/**
 The vote-reply callback as it is written (src/raft/election.go:32-35) steps
 down to the term of its own request. When that step keeps the server's
 promises, that it is harmless while no such reply arrives, and what it costs
 when one does.
 */
module RaftStepDown {
  import opened Sets
  import opened RaftTypes
  import opened RaftServer
  import opened RaftCluster
  import opened RaftCore
  import opened RaftRefinement
  import opened RaftSafety

  /**
   A candidate that has not yet broken a promise keeps its term and vote over a
   reply exactly when the reply's term is not newer than the request's.
   */
  lemma AsWrittenKeepsPromise(s: Server, n: nat, peer: int, args: RequestVoteArgs, reply: RequestVoteReply)
    requires |s.logs| > 0 && args.term in s.elections && args.term <= s.currentTerm
    requires s.currentTerm == args.term ==> s.votedFor != NO_VOTE
    ensures KeepsPromise(s, VoteReply(s, n, peer, args, reply, AsWritten).0) <==> reply.term <= args.term
  {
  }

  /** As intended, it always does. */
  lemma AsIntendedKeepsPromise(s: Server, n: nat, peer: int, args: RequestVoteArgs, reply: RequestVoteReply)
    requires |s.logs| > 0 && args.term in s.elections
    ensures KeepsPromise(s, VoteReply(s, n, peer, args, reply, AsIntended).0)
  {
  }

  /** A peer turns down a ballot from a newer term. */
  predicate NewerTermReply(a: Action) {
    a.Deliver? && a.m.VoteAnswer? && a.m.vote.term > a.m.ballot.term
  }

  ghost predicate QuietNext(c: Cluster, c': Cluster) {
    exists a :: Enabled(c, a) && !NewerTermReply(a) && c' == Apply(c, a, AsWritten)
  }

  /** An execution of the code as written in which no such reply reaches a candidate. */
  ghost predicate QuietRun(run: seq<Cluster>, n: nat) {
    && n > 0
    && |run| > 0
    && run[0] == Init(n)
    && forall k :: 0 <= k < |run| - 1 ==> QuietNext(run[k], run[k + 1])
  }

  lemma QuietIsIntended(c: Cluster, h: Core, c': Cluster)
    requires Inv(h) && Rel(c, h) && QuietNext(c, c')
    ensures Next(c, c', AsIntended)
  {
    hide Inv, VoteReply, LogOk, PeerOk, Broadcast, AppendEntries, AppendReply, Timeout, RequestVote;
    var a :| Enabled(c, a) && !NewerTermReply(a) && c' == Apply(c, a, AsWritten);
    var i := Actor(a);
    RelServer(c, h, i);
    var s := c.servers[i];
    if a.Deliver? && a.m.VoteAnswer? {
      assert ElectionRel(h, i, a.m.ballot.term, s.elections[a.m.ballot.term]);
      SameReply(s, |c.servers|, a.m.from, a.m.ballot, a.m.vote);
    }
    assert c' == Apply(c, a, AsIntended);
  }

  lemma SameReply(s: Server, n: nat, peer: int, args: RequestVoteArgs, reply: RequestVoteReply)
    requires |s.logs| > 0 && args.term in s.elections && reply.term <= args.term <= s.currentTerm
    ensures VoteReply(s, n, peer, args, reply, AsWritten) == VoteReply(s, n, peer, args, reply, AsIntended)
  {
  }

  /** Until a newer-term vote reply arrives, the code as written has all the guarantees of RaftSafety. */
  lemma {:induction false} QuietRunIsSafe(run: seq<Cluster>, n: nat)
    requires QuietRun(run, n)
    ensures Run(run, n, AsIntended)
  {
    hide Next, QuietNext;
    if |run| > 1 {
      var rest := run[..|run| - 1];
      assert forall k :: 0 <= k < |rest| - 1 ==> QuietNext(rest[k], rest[k + 1]);
      QuietRunIsSafe(rest, n);
      var hs := History(rest, n);
      var last := |rest| - 1;
      assert QuietNext(run[last], run[last + 1]);
      QuietIsIntended(run[last], hs[last], run[last + 1]);
      forall k | 0 <= k < |run| - 1 ensures Next(run[k], run[k + 1], AsIntended) {
        if k < last { assert Next(rest[k], rest[k + 1], AsIntended); }
      }
    }
  }

  lemma QuietGrow(run: seq<Cluster>, n: nat, a: Action) returns (run': seq<Cluster>)
    requires QuietRun(run, n) && Enabled(run[|run| - 1], a) && !NewerTermReply(a)
    ensures QuietRun(run', n) && run' == run + [Apply(run[|run| - 1], a, AsWritten)]
  {
    hide Enabled, Apply;
    var c := Apply(run[|run| - 1], a, AsWritten);
    run' := run + [c];
    assert QuietNext(run[|run| - 1], c);
    hide QuietNext;
    forall k | 0 <= k < |run'| - 1 ensures QuietNext(run'[k], run'[k + 1]) {
      if k < |run| - 1 { assert QuietNext(run[k], run[k + 1]); }
    }
  }

  /** A candidate of the history has cast its vote in the term of its ballot, and has not gone back since. */
  lemma BallotVoted(h: Core, i: int, s: Server, t: nat)
    requires 0 <= i < |h.peers| && ServerRel(h, i, s) && PeerOk(h, i) && t in s.elections
    ensures s.elections[t].args.term == t <= s.currentTerm && (s.currentTerm == t ==> s.votedFor != NO_VOTE)
  {
    assert ElectionRel(h, i, t, s.elections[t]);
    assert Voted(h, i, t, i);
  }

  /**
   Up to the first such reply the code as written is safe; and whatever comes
   next, the acting server keeps its term and vote exactly when it is not one.
   */
  lemma NextKeepsPromise(run: seq<Cluster>, n: nat, a: Action)
    requires QuietRun(run, n) && Enabled(run[|run| - 1], a)
    ensures var c, i := run[|run| - 1], Actor(a);
            KeepsPromise(c.servers[i], Apply(c, a, AsWritten).servers[i]) <==> !NewerTermReply(a)
  {
    QuietRunIsSafe(run, n);
    var c, i := run[|run| - 1], Actor(a);
    var hs := History(run, n);
    RelServer(c, hs[|run| - 1], i);
    if NewerTermReply(a) {
      hide QuietRun, Run, Recorded, LogOk;
      BallotVoted(hs[|run| - 1], i, c.servers[i], a.m.ballot.term);
      AsWrittenKeepsPromise(c.servers[i], n, a.m.from, a.m.ballot, a.m.vote);
      NewerTermBreaks(c, a);
    } else {
      hide Enabled, Apply, Recorded, ServerRel, Rel, Inv;
      var run' := QuietGrow(run, n, a);
      QuietRunIsSafe(run', n);
      Sizes(run', n, |run|);
      PromisesKept(run', n, |run| - 1, |run|, i);
    }
  }

  lemma NewerTermBreaks(c: Cluster, a: Action)
    requires Enabled(c, a) && NewerTermReply(a)
    requires var s := c.servers[Actor(a)];
             a.m.ballot.term <= s.currentTerm && (s.currentTerm == a.m.ballot.term ==> s.votedFor != NO_VOTE)
    ensures !KeepsPromise(c.servers[Actor(a)], Apply(c, a, AsWritten).servers[Actor(a)])
  {
  }

  // ---- Three servers, one such reply, two leaders of term 2

  lemma Grow(run: seq<Cluster>, n: nat, a: Action) returns (run': seq<Cluster>)
    requires Run(run, n, AsWritten) && Enabled(run[|run| - 1], a)
    ensures Run(run', n, AsWritten) && run' == run + [Apply(run[|run| - 1], a, AsWritten)]
  {
    run' := run + [Apply(run[|run| - 1], a, AsWritten)];
    assert Next(run[|run| - 1], run'[|run|], AsWritten);
    forall k | 0 <= k < |run'| - 1 ensures Next(run'[k], run'[k + 1], AsWritten) {
      if k < |run| - 1 { assert run'[k] == run[k] && run'[k + 1] == run[k + 1]; }
    }
  }

  function EmptyBallot(t: nat, c: int): RequestVoteArgs {
    RequestVoteArgs(t, c, 0, 0)
  }

  ghost function Latest(run: seq<Cluster>): Cluster
    requires |run| > 0
  {
    run[|run| - 1]
  }

  ghost function Stood(s: Server, c: int): Server
    requires |s.logs| > 0
  {
    Timeout(s, c, 3)
  }

  lemma Ids3()
    ensures Below(3) == {0, 1, 2}
  {
    assert Below(1) == {0};
    assert Below(2) == {0, 1};
  }

  lemma Stands(run: seq<Cluster>, c: int) returns (run': seq<Cluster>)
    requires Run(run, 3, AsWritten) && |Latest(run).servers| == 3 && 0 <= c < 3 && InBounds(Latest(run).servers[c], 3)
    requires Latest(run).servers[c].logs == [SENTINEL]
    ensures Run(run', 3, AsWritten) && |run'| == |run| + 1 && run'[..|run|] == run
    ensures var s' := Stood(Latest(run).servers[c], c);
            && Latest(run').servers == Latest(run).servers[c := s']
            && Latest(run').net >= Latest(run).net
            && (forall p :: 0 <= p < 3 && p != c ==> VoteRequest(p, EmptyBallot(s'.currentTerm, c)) in Latest(run').net)
  {
    Ids3();
    run' := Grow(run, 3, ElectionTimer(c));
    var s' := Stood(Latest(run).servers[c], c);
    assert Ballot(s', c) == EmptyBallot(s'.currentTerm, c);
  }

  lemma Asks(run: seq<Cluster>, p: int, b: RequestVoteArgs) returns (run': seq<Cluster>)
    requires Run(run, 3, AsWritten) && |Latest(run).servers| == 3 && 0 <= p < 3 && InBounds(Latest(run).servers[p], 3)
    requires VoteRequest(p, b) in Latest(run).net
    ensures Run(run', 3, AsWritten) && |run'| == |run| + 1 && run'[..|run|] == run
    ensures var (s', r) := RequestVote(Latest(run).servers[p], b);
            && Latest(run').servers == Latest(run).servers[p := s']
            && Latest(run').net >= Latest(run).net
            && VoteAnswer(p, b, r) in Latest(run').net
  {
    run' := Grow(run, 3, Deliver(VoteRequest(p, b)));
  }

  lemma Answers(run: seq<Cluster>, p: int, b: RequestVoteArgs, r: RequestVoteReply) returns (run': seq<Cluster>)
    requires Run(run, 3, AsWritten) && |Latest(run).servers| == 3 && 0 <= b.candidateId < 3
    requires VoteAnswer(p, b, r) in Latest(run).net
    requires var s := Latest(run).servers[b.candidateId];
             && InBounds(s, 3) && b.term in s.elections && s.elections[b.term].args == b
                && p in s.elections[b.term].awaiting
    ensures Run(run', 3, AsWritten) && |run'| == |run| + 1 && run'[..|run|] == run
    ensures Latest(run').servers ==
            Latest(run).servers[b.candidateId := VoteReply(Latest(run).servers[b.candidateId], 3, p, b, r, AsWritten).0]
    ensures Latest(run').net >= Latest(run).net
  {
    run' := Grow(run, 3, Deliver(VoteAnswer(p, b, r)));
  }

  lemma StartRun() returns (run: seq<Cluster>)
    ensures run == [Init(3)] && Run(run, 3, AsWritten)
  {
    run := [Init(3)];
  }

  /** Server 2 stands in terms 1 and 2 and wins term 2 with the vote of server 1. */
  lemma FirstLeader() returns (run: seq<Cluster>)
    ensures Run(run, 3, AsWritten) && |run| == 5 && |Latest(run).servers| == 3
    ensures var c := Latest(run);
            && c.servers[0] == Fresh(3)
            && c.servers[1].currentTerm == 2 && InBounds(c.servers[1], 3)
            && c.servers[2].role == Leader && c.servers[2].currentTerm == 2 && InBounds(c.servers[2], 3)
            && c.servers[2].logs == [SENTINEL]
            && 1 in c.servers[2].elections && c.servers[2].elections[1].args == EmptyBallot(1, 2)
            && 1 in c.servers[2].elections[1].awaiting
            && VoteRequest(1, EmptyBallot(1, 2)) in c.net
  {
    hide Run;
    Ids3();
    run := StartRun();
    run := Stands(run, 2);
    run := Stands(run, 2);
    run := Asks(run, 1, EmptyBallot(2, 2));
    run := Answers(run, 1, EmptyBallot(2, 2), RequestVoteReply(2, true));
  }

  /** The late answer of server 1 to the ballot of term 1 takes server 2 back to term 1, without a vote. */
  lemma FallsBack() returns (run: seq<Cluster>)
    ensures Run(run, 3, AsWritten) && |run| == 7 && |Latest(run).servers| == 3
    ensures |run[4].servers| == 3 && run[4].servers[2].role == Leader && run[4].servers[2].currentTerm == 2
    ensures var c := Latest(run);
            && c.servers[0] == Fresh(3)
            && c.servers[2].currentTerm == 1 && c.servers[2].votedFor == NO_VOTE && InBounds(c.servers[2], 3)
            && c.servers[2].logs == [SENTINEL]
  {
    var run0 := FirstLeader();
    var run1 := Asks(run0, 1, EmptyBallot(1, 2));
    run := Answers(run1, 1, EmptyBallot(1, 2), RequestVoteReply(2, false));
    assert run[4] == run1[4] == run0[4];
  }

  /** Server 2 then votes for server 0 in the term it led itself: election safety fails as written. */
  lemma TwoLeaders() returns (run: seq<Cluster>, k: int)
    ensures Run(run, 3, AsWritten) && InRun(run, 4, 2) && InRun(run, k, 0)
    ensures At(run, 4, 2).role == Leader && At(run, k, 0).role == Leader
    ensures At(run, 4, 2).currentTerm == At(run, k, 0).currentTerm == 2
  {
    hide Run;
    Ids3();
    var run0 := FallsBack();
    var run1 := Stands(run0, 0);
    var run2 := Stands(run1, 0);
    var run3 := Asks(run2, 2, EmptyBallot(2, 0));
    run := Answers(run3, 2, EmptyBallot(2, 0), RequestVoteReply(2, true));
    assert run[4] == run3[4] == run2[4] == run1[4] == run0[4];
    k := |run| - 1;
  }
}
