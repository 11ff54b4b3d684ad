/**
 What a majority can always do. From every state a run of the cluster reaches
 there are steps of the members of any majority, and of nobody else, that elect
 a leader, commit a new command, and have every member commit it.
 */
module RaftProgress {
  import opened Sets
  import opened RaftTypes
  import opened RaftServer
  import opened RaftCluster
  import opened RaftCore
  import opened RaftRefinement
  import opened RaftSteps
  import opened RaftSafety
  import opened RaftHandlers
  import opened RaftBacktrack

  // ---- Steps of some servers

  /** Steps of servers in `q`, none of them a crash. */
  ghost predicate Path(cs: seq<Cluster>, acts: seq<Action>, q: set<int>) {
    && |cs| == |acts| + 1
    && forall i :: 0 <= i < |acts| ==>
         && Enabled(cs[i], acts[i]) && cs[i + 1] == Apply(cs[i], acts[i], AsIntended)
         && Actor(acts[i]) in q && !acts[i].Crash?
  }

  ghost predicate Joins(cs: seq<Cluster>, acts: seq<Action>, q: set<int>, c: Cluster, c': Cluster) {
    Path(cs, acts, q) && cs[0] == c && cs[|cs| - 1] == c'
  }

  ghost predicate Reaches(c: Cluster, c': Cluster, q: set<int>) {
    exists cs, acts :: Joins(cs, acts, q, c, c')
  }

  /** The state fits some history that is in order, as every state of a run does. */
  ghost predicate Sound(c: Cluster) {
    exists h :: Inv(h) && Rel(c, h)
  }

  lemma ReachesItself(c: Cluster, q: set<int>)
    ensures Reaches(c, c, q)
  {
    assert Joins([c], [], q, c, c);
  }

  lemma Chain(c: Cluster, c1: Cluster, c2: Cluster, q: set<int>)
    requires Reaches(c, c1, q) && Reaches(c1, c2, q)
    ensures Reaches(c, c2, q)
  {
    var cs: seq<Cluster>, acts: seq<Action> :| Joins(cs, acts, q, c, c1);
    var cs': seq<Cluster>, acts': seq<Action> :| Joins(cs', acts', q, c1, c2);
    hide Enabled, Apply;
    var ds, bs := cs + cs'[1..], acts + acts';
    forall i | 0 <= i < |bs|
      ensures Enabled(ds[i], bs[i]) && ds[i + 1] == Apply(ds[i], bs[i], AsIntended)
      ensures Actor(bs[i]) in q && !bs[i].Crash?
    {
      if i >= |acts| {
        var k := i - |acts|;
        assert ds[i] == cs'[k] && ds[i + 1] == cs'[k + 1] && bs[i] == acts'[k];
      }
    }
    assert Joins(ds, bs, q, c, c2);
  }

  lemma Wider(c: Cluster, c': Cluster, q: set<int>, q': set<int>)
    requires Reaches(c, c', q) && q <= q'
    ensures Reaches(c, c', q')
  {
    hide Enabled, Apply;
    var cs: seq<Cluster>, acts: seq<Action> :| Joins(cs, acts, q, c, c');
    assert Joins(cs, acts, q', c, c');
  }

  lemma SoundStep(c: Cluster, a: Action)
    requires Sound(c) && Enabled(c, a)
    ensures Sound(Apply(c, a, AsIntended))
  {
    hide Inv, Rel, Enabled, Apply;
    var c' := Apply(c, a, AsIntended);
    var h :| Inv(h) && Rel(c, h);
    assert Next(c, c', AsIntended);
    var h' := NextStep(c, h, c');
  }

  /** One step more. */
  lemma Act(c0: Cluster, c: Cluster, a: Action, q: set<int>) returns (c': Cluster)
    requires Reaches(c0, c, q) && Sound(c) && Enabled(c, a) && Actor(a) in q && !a.Crash?
    ensures c' == Apply(c, a, AsIntended) && Sound(c') && Reaches(c0, c', q) && |c'.servers| == |c.servers|
  {
    hide Sound, Enabled, Apply;
    c' := Apply(c, a, AsIntended);
    SoundStep(c, a);
    assert Joins([c, c'], [a], q, c, c');
    Chain(c0, c, c', q);
    SameCount(c, a);
  }

  lemma SameCount(c: Cluster, a: Action)
    requires Enabled(c, a)
    ensures |Apply(c, a, AsIntended).servers| == |c.servers|
  {
    hide Effect;
  }

  lemma SoundServer(c: Cluster, i: int)
    requires Sound(c) && 0 <= i < |c.servers|
    ensures var s := c.servers[i];
            && InBounds(s, |c.servers|) && WfLog(s.logs) && s.disk.logs == s.logs && 0 <= s.commitIndex < |s.logs|
  {
    var h :| Inv(h) && Rel(c, h);
    hide Inv, LogOk;
    RelServer(c, h, i);
    LogWf(h, c.servers[i].logs);
    LogEnds(c.servers[i].logs);
  }

  lemma RunSound(run: seq<Cluster>, n: nat)
    requires Run(run, n, AsIntended)
    ensures Sound(run[|run| - 1])
  {
    var hs := History(run, n);
  }

  // ---- Election

  /** An entry of this term and index is not older than the last one of the log: a later term, or as far in the same. */
  predicate NotOlder(term: int, index: int, log: Log)
    requires |log| > 0
  {
    var end := log[|log| - 1];
    if term == end.term then index >= end.index else term > end.term
  }

  /** Server `i` is among the members of `q`, and the log of none of them ends newer than its own. */
  ghost predicate NoneNewer(c: Cluster, i: int, q: set<int>) {
    && q <= Below(|c.servers|) && i in q && (forall p <- q :: |c.servers[p].logs| > 0)
    && var last := Last(c.servers[i].logs);
       forall p <- q :: NotOlder(last.term, last.index, c.servers[p].logs)
  }

  /** What standing for election leaves alone. */
  ghost predicate OthersSame(c: Cluster, c': Cluster, i: int) {
    && |c'.servers| == |c.servers| && 0 <= i < |c.servers|
    && (forall p :: 0 <= p < |c.servers| && p != i ==> c'.servers[p] == c.servers[p])
    && c'.servers[i].logs == c.servers[i].logs && c'.servers[i].commitIndex == c.servers[i].commitIndex
  }

  /** The server has just stood for election, and its ballots are on their way. */
  ghost predicate Standing(c: Cluster, i: int) {
    && 0 <= i < |c.servers| && |c.servers[i].logs| > 0
    && (var s := c.servers[i];
        && s.role == Candidate && s.currentTerm in s.elections
        && s.elections[s.currentTerm] == Election(Ballot(s, i), Below(|c.servers|) - {i}, 1, false)
        && forall p :: 0 <= p < |c.servers| && p != i ==> VoteRequest(p, Ballot(s, i)) in c.net)
  }

  lemma StandEffect(c: Cluster, i: int)
    requires 0 <= i < |c.servers| && InBounds(c.servers[i], |c.servers|)
    ensures Enabled(c, ElectionTimer(i)) && Actor(ElectionTimer(i)) == i
    ensures var c' := Apply(c, ElectionTimer(i), AsIntended);
            && c'.servers == c.servers[i := Timeout(c.servers[i], i, |c.servers|)]
            && (set p | p in Below(|c.servers|) && p != i :: VoteRequest(p, Ballot(c'.servers[i], i))) <= c'.net
  {
    hide Timeout;
  }

  lemma StandOnce(c: Cluster, i: int, q: set<int>) returns (c': Cluster)
    requires Sound(c) && 0 <= i < |c.servers| && i in q
    ensures Reaches(c, c', q) && Sound(c') && OthersSame(c, c', i) && Standing(c', i)
    ensures c'.servers[i].currentTerm == c.servers[i].currentTerm + 1
  {
    hide Sound, Reaches, InBounds, WfLog, Enabled, Apply;
    SoundServer(c, i);
    ReachesItself(c, q);
    StandEffect(c, i);
    c' := Act(c, c, ElectionTimer(i), q);
    forall p | 0 <= p < |c.servers| && p != i ensures VoteRequest(p, Ballot(c'.servers[i], i)) in c'.net {
      assert p in Below(|c.servers|);
    }
  }

  /** Standing again and again until the term is beyond `top`. */
  lemma {:induction false} Stand(c: Cluster, i: int, q: set<int>, top: nat) returns (c': Cluster)
    requires Sound(c) && 0 <= i < |c.servers| && i in q
    ensures Reaches(c, c', q) && Sound(c') && OthersSame(c, c', i) && Standing(c', i) && c'.servers[i].currentTerm > top
    decreases if top >= c.servers[i].currentTerm then top - c.servers[i].currentTerm + 1 else 0
  {
    hide Sound, Reaches, Standing;
    var c1 := StandOnce(c, i, q);
    if c1.servers[i].currentTerm > top {
      c' := c1;
    } else {
      c' := Stand(c1, i, q, top);
      Chain(c, c1, c', q);
    }
  }

  /**
   Collecting votes: members in `rest` have yet to be asked; the others are in the candidate's term,
   and it leads, or has counted all their votes and they are not enough.
   */
  ghost predicate Collecting(c0: Cluster, c: Cluster, i: int, q: set<int>, rest: set<int>, b: RequestVoteArgs) {
    var n := |c.servers|;
    && |c0.servers| == n && q <= Below(n) && i in q && rest <= q - {i} && b.term == c.servers[i].currentTerm
    && b.candidateId == i
    && (forall p <- q :: c.servers[p].logs == c0.servers[p].logs
                         && c.servers[p].commitIndex == c0.servers[p].commitIndex)
    && (forall p <- rest :: c.servers[p].currentTerm < b.term && VoteRequest(p, b) in c.net)
    && (forall p <- q - rest :: c.servers[p].currentTerm == b.term)
    && (c.servers[i].role == Leader || Counting(c, i, q, rest, b))
  }

  ghost predicate Counting(c: Cluster, i: int, q: set<int>, rest: set<int>, b: RequestVoteArgs)
    requires 0 <= i < |c.servers|
  {
    var s := c.servers[i];
    && s.role == Candidate && b.term in s.elections
    && (var e := s.elections[b.term];
        && e.args == b && rest <= e.awaiting && !e.becomeLeader
        && e.grantedVote + |rest| == |q| && 2 * e.grantedVote <= |c.servers|)
  }

  lemma AskEffect(c: Cluster, p: int, b: RequestVoteArgs)
    requires 0 <= p < |c.servers| && InBounds(c.servers[p], |c.servers|) && VoteRequest(p, b) in c.net
    ensures var a := Deliver(VoteRequest(p, b));
            && Enabled(c, a) && Actor(a) == p
            && var (s', reply) := RequestVote(c.servers[p], b);
               Apply(c, a, AsIntended) == Cluster(c.servers[p := s'], c.net + {VoteAnswer(p, b, reply)})
  {
    hide RequestVote;
  }

  /** A member that is asked grants its vote. */
  lemma AskVote(c0: Cluster, c: Cluster, i: int, q: set<int>, rest: set<int>, b: RequestVoteArgs, p: int)
    returns (c': Cluster, answer: RequestVoteReply)
    requires Sound(c) && Collecting(c0, c, i, q, rest, b) && p in rest && p != i
    requires |c.servers[p].logs| > 0 && NotOlder(b.lastLogTerm, b.lastLogIndex, c.servers[p].logs)
    ensures Reaches(c, c', q) && Sound(c') && |c'.servers| == |c.servers|
    ensures forall r :: 0 <= r < |c.servers| && r != p ==> c'.servers[r] == c.servers[r]
    ensures c'.servers[p].currentTerm == b.term && c'.servers[p].logs == c.servers[p].logs
            && c'.servers[p].commitIndex == c.servers[p].commitIndex
    ensures c.net <= c'.net && answer.voteGranted && answer.term == b.term && VoteAnswer(p, b, answer) in c'.net
  {
    hide Sound, Reaches, InBounds, WfLog, RequestVote, Counting, Enabled, Apply;
    SoundServer(c, p);
    ReachesItself(c, q);
    AskEffect(c, p, b);
    VoteExactly(c.servers[p], b);
    c' := Act(c, c, Deliver(VoteRequest(p, b)), q);
    answer := RequestVote(c.servers[p], b).1;
  }

  lemma CountEffect(c: Cluster, i: int, q: set<int>, rest: set<int>, b: RequestVoteArgs, p: int,
                    answer: RequestVoteReply)
    requires 0 <= i < |c.servers| && InBounds(c.servers[i], |c.servers|) && b.candidateId == i
    requires VoteAnswer(p, b, answer) in c.net && Counting(c, i, q, rest, b) && p in rest
    ensures var a := Deliver(VoteAnswer(p, b, answer));
            && Enabled(c, a) && Actor(a) == i
            && var c' := Apply(c, a, AsIntended);
               && c'.servers == c.servers[i := VoteReply(c.servers[i], |c.servers|, p, b, answer, AsIntended).0]
               && c.net <= c'.net
  {
    hide VoteReply, Broadcast;
  }

  lemma CountOutcome(c: Cluster, c': Cluster, i: int, q: set<int>, rest: set<int>, b: RequestVoteArgs, p: int,
                     answer: RequestVoteReply)
    requires 0 <= i < |c.servers| && |c.servers[i].logs| > 0 && p in rest
    requires c.servers[i].currentTerm == b.term && Counting(c, i, q, rest, b)
    requires answer.voteGranted && answer.term == b.term
    requires c'.servers == c.servers[i := VoteReply(c.servers[i], |c.servers|, p, b, answer, AsIntended).0]
    ensures OthersSame(c, c', i)
    ensures c'.servers[i].currentTerm == b.term && (c'.servers[i].role == Leader || Counting(c', i, q, rest - {p}, b))
  {
    WinExactly(c.servers[i], |c.servers|, p, b, answer, AsIntended);
    VoteCounted(c.servers[i], |c.servers|, p, b, answer);
    hide VoteReply;
    assert |rest - {p}| == |rest| - 1;
  }

  /** The candidate counts the vote. */
  lemma CountVote(c: Cluster, i: int, q: set<int>, rest: set<int>, b: RequestVoteArgs, p: int, answer: RequestVoteReply)
    returns (c': Cluster)
    requires Sound(c) && 0 <= i < |c.servers| && i in q && p in rest && b.candidateId == i
    requires c.servers[i].currentTerm == b.term && Counting(c, i, q, rest, b)
    requires VoteAnswer(p, b, answer) in c.net && answer.voteGranted && answer.term == b.term
    ensures Reaches(c, c', q) && Sound(c') && OthersSame(c, c', i) && c.net <= c'.net
    ensures c'.servers[i].currentTerm == b.term && (c'.servers[i].role == Leader || Counting(c', i, q, rest - {p}, b))
  {
    hide Sound, Reaches, InBounds, WfLog, VoteReply, Enabled, Apply, Counting, OthersSame;
    SoundServer(c, i);
    ReachesItself(c, q);
    CountEffect(c, i, q, rest, b, p, answer);
    c' := Act(c, c, Deliver(VoteAnswer(p, b, answer)), q);
    CountOutcome(c, c', i, q, rest, b, p, answer);
  }

  /** A vote that does not win is counted all the same. */
  lemma VoteCounted(s: Server, n: nat, peer: int, args: RequestVoteArgs, reply: RequestVoteReply)
    requires |s.logs| > 0 && args.term in s.elections && reply.voteGranted && reply.term == args.term == s.currentTerm
    ensures var (s', won) := VoteReply(s, n, peer, args, reply, AsIntended); var e := s.elections[args.term];
            && s'.currentTerm == s.currentTerm && s'.logs == s.logs && s'.commitIndex == s.commitIndex
            && (!won ==> && s'.role == s.role && args.term in s'.elections
                         && s'.elections[args.term] ==
                            e.(awaiting := e.awaiting - {peer}, grantedVote := e.grantedVote + 1))
  {
  }

  lemma CollectOne(c0: Cluster, c: Cluster, i: int, q: set<int>, rest: set<int>, b: RequestVoteArgs, p: int)
    returns (c': Cluster)
    requires Sound(c) && Collecting(c0, c, i, q, rest, b) && p in rest
    requires |c.servers[p].logs| > 0 && NotOlder(b.lastLogTerm, b.lastLogIndex, c.servers[p].logs)
    ensures Reaches(c, c', q) && Sound(c') && |c'.servers| == |c.servers| && Collecting(c0, c', i, q, rest - {p}, b)
  {
    hide Sound, Reaches, Counting, NotOlder;
    var answer;
    c', answer := AskVote(c0, c, i, q, rest, b, p);
    if c.servers[i].role == Candidate {
      assert Counting(c', i, q, rest, b) by { SameCounting(c, c', i, q, rest, b); }
      var c1 := c';
      c' := CountVote(c1, i, q, rest, b, p, answer);
      Chain(c, c1, c', q);
    } else {
      assert c.servers[i].role == Leader by { CountingRole(c, i, q, rest, b); }
    }
  }

  lemma SameCounting(c: Cluster, c': Cluster, i: int, q: set<int>, rest: set<int>, b: RequestVoteArgs)
    requires 0 <= i < |c.servers| == |c'.servers| && c'.servers[i] == c.servers[i]
    requires c.servers[i].role == Leader || Counting(c, i, q, rest, b)
    requires c.servers[i].role == Candidate
    ensures Counting(c', i, q, rest, b)
  {
  }

  lemma CountingRole(c: Cluster, i: int, q: set<int>, rest: set<int>, b: RequestVoteArgs)
    requires 0 <= i < |c.servers| && (c.servers[i].role == Leader || Counting(c, i, q, rest, b))
    ensures c.servers[i].role == Leader || c.servers[i].role == Candidate
  {
  }

  lemma {:induction false} Collect(c0: Cluster, c: Cluster, i: int, q: set<int>, rest: set<int>, b: RequestVoteArgs)
    returns (c': Cluster)
    requires Sound(c) && Collecting(c0, c, i, q, rest, b)
    requires forall p <- rest :: |c0.servers[p].logs| > 0 && NotOlder(b.lastLogTerm, b.lastLogIndex, c0.servers[p].logs)
    ensures Reaches(c, c', q) && Sound(c') && |c'.servers| == |c.servers| && Collecting(c0, c', i, q, {}, b)
    decreases |rest|
  {
    hide Sound, Reaches, NotOlder, Counting;
    if |rest| == 0 {
      assert rest == {};
      c' := c;
      ReachesItself(c, q);
    } else {
      var p := SomeElement(rest);
      var c1 := CollectOne(c0, c, i, q, rest, b, p);
      c' := Collect(c0, c1, i, q, rest - {p}, b);
      Chain(c, c1, c', q);
    }
  }

  /** A leader whose majority has followed it into its term, with all logs as they were. */
  ghost predicate Elected(c0: Cluster, c: Cluster, i: int, q: set<int>) {
    && |c.servers| == |c0.servers| && q <= Below(|c.servers|) && i in q && c.servers[i].role == Leader
    && forall p <- q :: && c.servers[p].currentTerm == c.servers[i].currentTerm
                        && c.servers[p].logs == c0.servers[p].logs
                        && c.servers[p].commitIndex == c0.servers[p].commitIndex
  }

  lemma {:induction false} HighestTerm(c: Cluster, q: set<int>) returns (top: nat)
    requires q <= Below(|c.servers|)
    ensures forall p <- q :: c.servers[p].currentTerm <= top
  {
    if |q| == 0 {
      top := 0;
    } else {
      var p := SomeElement(q);
      top := HighestTerm(c, q - {p});
      forall r <- q ensures r == p || c.servers[r].currentTerm <= top { assert r == p || r in q - {p}; }
      if c.servers[p].currentTerm > top { top := c.servers[p].currentTerm; }
    }
  }

  /** A server whose log ends no older than that of any member of a majority can become leader with their votes. */
  lemma CanBeElected(c: Cluster, i: int, q: set<int>) returns (c': Cluster)
    requires Sound(c) && Quorum(|c.servers|, q) && |c.servers| > 1 && NoneNewer(c, i, q)
    ensures Reaches(c, c', q) && Sound(c') && Elected(c, c', i, q)
    ensures forall p <- q :: c'.servers[i].currentTerm > c.servers[p].currentTerm
  {
    hide Sound, Reaches;
    var top := HighestTerm(c, q);
    var c1 := Stand(c, i, q, top);
    var b := Ballot(c1.servers[i], i);
    StartCollecting(c, c1, i, q, b, top);
    hide Standing, Collecting, Counting;
    c' := Collect(c, c1, i, q, q - {i}, b);
    Chain(c, c1, c', q);
    AllCollected(c, c', i, q, b);
  }

  lemma StartCollecting(c: Cluster, c1: Cluster, i: int, q: set<int>, b: RequestVoteArgs, top: nat)
    requires OthersSame(c, c1, i) && Standing(c1, i) && b == Ballot(c1.servers[i], i) && Quorum(|c.servers|, q)
             && i in q
    requires c1.servers[i].currentTerm > top && (forall p <- q :: c.servers[p].currentTerm <= top) && |c.servers| > 1
    requires NoneNewer(c, i, q)
    ensures Collecting(c, c1, i, q, q - {i}, b)
            && forall p <- q - {i} :: NotOlder(b.lastLogTerm, b.lastLogIndex, c.servers[p].logs)
  {
    assert |q - {i}| == |q| - 1;
  }

  lemma AllCollected(c: Cluster, c': Cluster, i: int, q: set<int>, b: RequestVoteArgs)
    requires Collecting(c, c', i, q, {}, b) && Quorum(|c.servers|, q)
    ensures Elected(c, c', i, q) && c'.servers[i].currentTerm == b.term
  {
  }

  // ---- Replication

  /** What the leader sends next is on the network once its heartbeat timer fires. */
  lemma Probe(c: Cluster, l: int, f: int) returns (c': Cluster)
    requires Sound(c) && 0 <= l < |c.servers| && 0 <= f < |c.servers| && l != f && c.servers[l].role == Leader
    ensures InBounds(c.servers[l], |c.servers|) && Reaches(c, c', {l, f}) && Sound(c') && c'.servers == c.servers
    ensures SendTo(c.servers[l], l, f) in c'.net
  {
    SoundServer(c, l);
    ReachesItself(c, {l, f});
    hide Sound, Reaches, WfLog, SendTo, Indexed, CanSend;
    c' := Act(c, c, HeartbeatTimer(l), {l, f});
    assert f in Below(|c.servers|);
  }

  ghost predicate OnlyThese(ss: seq<Server>, ss': seq<Server>, l: int, f: int) {
    |ss'| == |ss| && forall p :: 0 <= p < |ss| && p != l && p != f ==> ss'[p] == ss[p]
  }

  /** A request of the leader is delivered, and so is the answer. */
  lemma AppendSteps(c: Cluster, l: int, f: int, args: AppendEntriesArgs) returns (c': Cluster)
    requires Sound(c) && 0 <= l < |c.servers| && 0 <= f < |c.servers| && l != f && args.leaderId == l
    requires InBounds(c.servers[l], |c.servers|) && InBounds(c.servers[f], |c.servers|)
    requires AppendRequest(f, args) in c.net
    ensures Reaches(c, c', {l, f}) && Sound(c') && OnlyThese(c.servers, c'.servers, l, f)
    ensures var (follow, reply) := AppendEntries(c.servers[f], args);
            c'.servers[f] == follow && c'.servers[l] == AppendReply(c.servers[l], l, |c.servers|, f, args, reply)
  {
    ReachesItself(c, {l, f});
    hide Sound, Reaches, AppendEntries, AppendReply, Indexed, CanSend;
    var c1 := Act(c, c, Deliver(AppendRequest(f, args)), {l, f});
    c' := Act(c, c1, Deliver(AppendAnswer(f, args, AppendEntries(c.servers[f], args).1)), {l, f});
  }

  lemma SnapshotSteps(c: Cluster, l: int, f: int, args: InstallSnapshotArgs) returns (c': Cluster)
    requires Sound(c) && 0 <= l < |c.servers| && 0 <= f < |c.servers| && l != f
    requires InBounds(c.servers[l], |c.servers|) && InBounds(c.servers[f], |c.servers|)
    requires SnapshotRequest(f, l, args) in c.net
    ensures Reaches(c, c', {l, f}) && Sound(c') && OnlyThese(c.servers, c'.servers, l, f)
    ensures var (follow, reply) := InstallSnapshot(c.servers[f], args);
            c'.servers[f] == follow && c'.servers[l] == SnapshotReply(c.servers[l], f, args, reply)
  {
    ReachesItself(c, {l, f});
    hide Sound, Reaches, InstallSnapshot, SnapshotReply, Indexed, CanSend;
    var c1 := Act(c, c, Deliver(SnapshotRequest(f, l, args)), {l, f});
    c' := Act(c, c1, Deliver(SnapshotAnswer(f, l, args, InstallSnapshot(c.servers[f], args).1)), {l, f});
  }

  lemma ExchangeCases(lead: Server, follow: Server, l: int, n: nat, f: int)
    requires CanSend(lead, n) && Indexed(lead.logs) && |lead.matchIndex| == n && 0 <= f < n && Indexed(follow.logs)
    ensures match SendTo(lead, l, f)
            case AppendRequest(to, args) =>
              var (follow', reply) := AppendEntries(follow, args);
              && to == f && args.leaderId == l
              && Exchange(lead, follow, l, n, f) == (AppendReply(lead, l, n, f, args, reply), follow')
            case SnapshotRequest(to, leader, args) =>
              var (follow', reply) := InstallSnapshot(follow, args);
              && to == f && leader == l
              && Exchange(lead, follow, l, n, f) == (SnapshotReply(lead, f, args, reply), follow')
            case _ => false
  {
    hide AppendEntries, AppendReply, InstallSnapshot, SnapshotReply;
  }

  /** The leader probes, the follower answers, the leader takes the answer in. */
  lemma ExchangeSteps(c: Cluster, l: int, f: int) returns (c': Cluster)
    requires Sound(c) && 0 <= l < |c.servers| && 0 <= f < |c.servers| && l != f && c.servers[l].role == Leader
    ensures InBounds(c.servers[l], |c.servers|) && InBounds(c.servers[f], |c.servers|)
    ensures Reaches(c, c', {l, f}) && Sound(c') && OnlyThese(c.servers, c'.servers, l, f)
    ensures (c'.servers[l], c'.servers[f]) == Exchange(c.servers[l], c.servers[f], l, |c.servers|, f)
  {
    SoundServer(c, l);
    SoundServer(c, f);
    ExchangeCases(c.servers[l], c.servers[f], l, |c.servers|, f);
    hide *;
    var c1 := Probe(c, l, f);
    match SendTo(c.servers[l], l, f)
    case AppendRequest(_, args) =>
      c' := AppendSteps(c1, l, f, args);
      Chain(c, c1, c', {l, f});
    case SnapshotRequest(_, _, args) =>
      c' := SnapshotSteps(c1, l, f, args);
      Chain(c, c1, c', {l, f});
  }

  /** The follower has the leader's log and has committed as much as the leader had. */
  ghost predicate InStep(lead: Server, lead': Server, follow': Server, me: int, peer: int) {
    && CaughtUp(lead', follow', peer) && follow'.commitIndex >= lead.commitIndex
    && forall i :: OwnEntry(lead', i) && MostHold(lead'.matchIndex, me, i) ==> i <= lead'.commitIndex
  }

  /** What an exchange leaves alone. */
  ghost predicate SameReign(lead: Server, lead': Server, peer: int) {
    && lead'.role == Leader && lead'.currentTerm == lead.currentTerm && lead'.logs == lead.logs
    && lead'.commitIndex >= lead.commitIndex && |lead'.matchIndex| == |lead.matchIndex|
    && forall p :: 0 <= p < |lead.matchIndex| && p != peer ==> lead'.matchIndex[p] == lead.matchIndex[p]
  }

  /** A probe that fits brings the follower into step. */
  lemma FittingProbe(h: Core, lead: Server, follow: Server, me: int, n: nat, peer: int)
    requires Pair(h, lead, follow, n, peer) && CanSend(lead, n) && Indexed(lead.logs) && Indexed(follow.logs)
    requires lead.nextIndex[peer] >= 1 && lead.commitIndex < |lead.logs| && me != peer
    requires var prev := lead.nextIndex[peer] - 1;
               prev < |follow.logs| && follow.logs[prev].term == lead.logs[prev].term
    requires WfLog(Exchange(lead, follow, me, n, peer).1.logs)
    ensures var (lead', follow') := Exchange(lead, follow, me, n, peer);
            && InStep(lead, lead', follow', me, peer) && SameReign(lead, lead', peer)
            && follow'.currentTerm == follow.currentTerm
  {
    hide LogOk, AppendEntries, AppendReply, LaidOn, MostHold, OwnEntry, Untouched, Saved;
    PairBounds(h, lead, follow, n, peer);
    AcceptedProbe(h, lead, follow, me, n, peer);
    var args := SendTo(lead, me, peer).append;
    AppendExactly(follow, args);
    CommitExactly(lead, me, n, peer, args, AppendEntries(follow, args).1);
    var (lead', follow') := Exchange(lead, follow, me, n, peer);
    forall i | OwnEntry(lead', i) && MostHold(lead'.matchIndex, me, i) ensures i <= lead'.commitIndex {
      SameOwn(lead, lead', i);
    }
  }

  lemma SameOwn(s: Server, s': Server, i: int)
    requires s'.logs == s.logs && s'.currentTerm == s.currentTerm && |s.logs| > 0
    ensures OwnEntry(s', i) == OwnEntry(s, i)
  {
  }

  /** Any other probe leads to a strictly lower one. */
  lemma MisfitProbe(h: Core, lead: Server, follow: Server, me: int, n: nat, peer: int)
    requires Pair(h, lead, follow, n, peer) && CanSend(lead, n) && Indexed(lead.logs) && Indexed(follow.logs)
    requires lead.nextIndex[peer] >= 1 ==>
               var prev := lead.nextIndex[peer] - 1;
               !(prev < |follow.logs| && follow.logs[prev].term == lead.logs[prev].term)
    ensures var (lead', follow') := Exchange(lead, follow, me, n, peer);
            && SameReign(lead, lead', peer) && follow'.currentTerm == follow.currentTerm
            && |lead'.nextIndex| == n && Most(lead'.nextIndex[peer]) < Most(lead.nextIndex[peer])
  {
    PairBounds(h, lead, follow, n, peer);
    LogEnds(lead.logs);
    if lead.nextIndex[peer] >= 1 { ProbeDescends(h, lead, follow, me, n, peer); }
    hide LogOk, AppendEntries, CommitScan, NextProbe;
  }

  /** A leader brings a server of its term into step. */
  lemma {:induction false} BringIntoStep(c: Cluster, l: int, f: int) returns (c': Cluster)
    requires Sound(c) && 0 <= l < |c.servers| && 0 <= f < |c.servers| && l != f
    requires c.servers[l].role == Leader && c.servers[f].currentTerm == c.servers[l].currentTerm
    requires |c.servers[l].nextIndex| == |c.servers|
    ensures Reaches(c, c', {l, f}) && Sound(c') && OnlyThese(c.servers, c'.servers, l, f)
    ensures InStep(c.servers[l], c'.servers[l], c'.servers[f], l, f) && SameReign(c.servers[l], c'.servers[l], f)
    ensures c'.servers[f].currentTerm == c.servers[f].currentTerm
    decreases Most(c.servers[l].nextIndex[f])
  {
    var n, lead, follow := |c.servers|, c.servers[l], c.servers[f];
    SoundServer(c, l);
    c' := ExchangeSteps(c, l, f);
    SoundServer(c', f);
    var h :| Inv(h) && Rel(c, h);
    RelPair(c, h, l, f);
    hide *;
    var next := lead.nextIndex[f];
    if next >= 1 && next - 1 < |follow.logs| && follow.logs[next - 1].term == lead.logs[next - 1].term {
      FittingProbe(h, lead, follow, l, n, f);
    } else {
      MisfitProbe(h, lead, follow, l, n, f);
      var c1 := c';
      c' := BringIntoStep(c1, l, f);
      Chain(c, c1, c', {l, f});
      SameOthers(c.servers, c1.servers, c'.servers, l, f);
      SameReigns(lead, c1.servers[l], c'.servers[l], c'.servers[f], l, f);
    }
  }

  lemma SameOthers(ss: seq<Server>, ss1: seq<Server>, ss2: seq<Server>, l: int, f: int)
    requires OnlyThese(ss, ss1, l, f) && OnlyThese(ss1, ss2, l, f)
    ensures OnlyThese(ss, ss2, l, f)
  {
  }

  lemma SameReigns(lead: Server, lead1: Server, lead2: Server, follow: Server, me: int, peer: int)
    requires SameReign(lead, lead1, peer) && SameReign(lead1, lead2, peer) && InStep(lead1, lead2, follow, me, peer)
    ensures SameReign(lead, lead2, peer) && InStep(lead, lead2, follow, me, peer)
  {
    hide CaughtUp, OwnEntry, MostHold;
  }

  // ---- Commitment

  /** A leader and a majority of servers in its term. */
  ghost predicate Reign(c: Cluster, l: int, q: set<int>) {
    && Quorum(|c.servers|, q) && |c.servers| > 1 && l in q && c.servers[l].role == Leader
    && |c.servers[l].logs| > 0 && |c.servers[l].matchIndex| == |c.servers| == |c.servers[l].nextIndex|
    && forall p <- q :: c.servers[p].currentTerm == c.servers[l].currentTerm
  }

  /** The same reign later: the leader's log is the same and no less is committed. */
  ghost predicate Later(c: Cluster, c': Cluster, l: int, q: set<int>) {
    && Reign(c, l, q) && Reign(c', l, q) && |c'.servers| == |c.servers|
    && c'.servers[l].currentTerm == c.servers[l].currentTerm && c'.servers[l].logs == c.servers[l].logs
    && c'.servers[l].commitIndex >= c.servers[l].commitIndex
  }

  /** The leader knows that the server has its whole log. */
  ghost predicate Known(c: Cluster, l: int, p: int)
    requires 0 <= l < |c.servers|
  {
    0 <= p < |c.servers[l].matchIndex| && c.servers[l].matchIndex[p] >= |c.servers[l].logs| - 1
  }

  /** The server has the leader's log and has committed up to `i`. */
  ghost predicate Holds(c: Cluster, l: int, p: int, i: int)
    requires 0 <= l < |c.servers|
  {
    && 0 <= p < |c.servers| && |c.servers[l].logs| > 0
    && Upto(c.servers[l].logs, c.servers[p].logs, |c.servers[l].logs| - 1) && c.servers[p].commitIndex >= i
  }

  /** One member more is in step. */
  lemma StepWith(c: Cluster, l: int, q: set<int>, p: int) returns (c': Cluster)
    requires Sound(c) && Reign(c, l, q) && p in q && p != l
    ensures Reaches(c, c', q) && Sound(c') && Later(c, c', l, q) && Known(c', l, p)
    ensures Holds(c', l, p, c.servers[l].commitIndex)
    ensures forall r <- q :: Known(c, l, r) && r != p ==> Known(c', l, r)
    ensures forall r <- q, i :: Holds(c, l, r, i) && r != p && r != l ==> Holds(c', l, r, i)
    ensures forall i :: OwnEntry(c'.servers[l], i) && MostHold(c'.servers[l].matchIndex, l, i) ==>
              i <= c'.servers[l].commitIndex
  {
    hide Sound, Reaches, OwnEntry, MostHold, Upto;
    c' := BringIntoStep(c, l, p);
    SoundServer(c', l);
    Wider(c, c', {l, p}, q);
  }

  /** When all of a majority are known to have its log, and it ends in an entry of its term, most hold its end. */
  lemma EndHeld(c: Cluster, l: int, q: set<int>)
    requires Reign(c, l, q) && WfLog(c.servers[l].logs) && (forall p <- q - {l} :: Known(c, l, p))
    requires Last(c.servers[l].logs).term == c.servers[l].currentTerm
    ensures var end := |c.servers[l].logs| - 1;
            OwnEntry(c.servers[l], end) && MostHold(c.servers[l].matchIndex, l, end)
  {
    var matched, end := c.servers[l].matchIndex, |c.servers[l].logs| - 1;
    var holders := set p | p in Below(|matched|) && (p == l || matched[p] >= end);
    forall p <- q ensures p in holders { assert p == l || p in q - {l}; }
    SubsetSize(q, holders);
  }

  lemma {:induction false} CommitWith(c: Cluster, l: int, q: set<int>, rest: set<int>) returns (c': Cluster)
    requires Sound(c) && Reign(c, l, q) && rest <= q - {l} && |rest| > 0
    requires Last(c.servers[l].logs).term == c.servers[l].currentTerm
    requires forall p <- q - {l} - rest :: Known(c, l, p)
    ensures Reaches(c, c', q) && Sound(c') && Later(c, c', l, q)
    ensures c'.servers[l].commitIndex >= |c.servers[l].logs| - 1
    decreases |rest|
  {
    var p := SomeElement(rest);
    c' := StepWith(c, l, q, p);
    SoundServer(c', l);
    hide Sound, Reaches, OwnEntry, MostHold, Holds;
    if |rest| == 1 {
      assert rest - {p} == {} by { assert |rest - {p}| == 0; }
      forall r <- q - {l} ensures Known(c', l, r) { assert r == p || r in q - {l} - rest; }
      EndHeld(c', l, q);
    } else {
      var c1 := c';
      assert |rest - {p}| == |rest| - 1;
      forall r <- q - {l} - (rest - {p}) ensures Known(c1, l, r) { assert r == p || r in q - {l} - rest; }
      c' := CommitWith(c1, l, q, rest - {p});
      Chain(c, c1, c', q);
    }
  }

  /**
   A leader whose last entry is of its term, with a majority of servers in that term, can commit its
   whole log.
   */
  lemma LeaderCanCommit(c: Cluster, l: int, q: set<int>) returns (c': Cluster)
    requires Sound(c) && Reign(c, l, q) && Last(c.servers[l].logs).term == c.servers[l].currentTerm
    ensures Reaches(c, c', q) && Sound(c') && Later(c, c', l, q)
    ensures c'.servers[l].commitIndex == |c.servers[l].logs| - 1
  {
    hide Sound, Reaches;
    assert |q - {l}| == |q| - 1;
    assert q - {l} - (q - {l}) == {};
    c' := CommitWith(c, l, q, q - {l});
    SoundServer(c', l);
  }

  /** The server has committed what the other has, and it is the same. */
  ghost predicate CommitsAll(lead: Server, follow: Server) {
    && follow.commitIndex >= lead.commitIndex
    && 0 <= lead.commitIndex < |lead.logs| && lead.commitIndex < |follow.logs|
    && follow.logs[..lead.commitIndex + 1] == lead.logs[..lead.commitIndex + 1]
  }

  lemma InStepCommits(lead: Server, lead': Server, follow: Server, me: int, peer: int)
    requires InStep(lead, lead', follow, me, peer) && SameReign(lead, lead', peer)
    requires 0 <= lead.commitIndex < |lead.logs|
    ensures CommitsAll(lead, follow)
  {
    UptoShorter(lead.logs, follow.logs, |lead.logs| - 1, lead.commitIndex);
  }

  /** Once a leader has committed, every server of its term can. */
  lemma FollowerCanCommit(c: Cluster, l: int, f: int) returns (c': Cluster)
    requires Sound(c) && 0 <= l < |c.servers| && 0 <= f < |c.servers| && l != f
    requires c.servers[l].role == Leader && c.servers[f].currentTerm == c.servers[l].currentTerm
    ensures Reaches(c, c', {l, f}) && Sound(c') && OnlyThese(c.servers, c'.servers, l, f)
    ensures CommitsAll(c.servers[l], c'.servers[f])
  {
    SoundServer(c, l);
    hide Sound, Reaches, InStep, SameReign, CommitsAll, WfLog;
    c' := BringIntoStep(c, l, f);
    InStepCommits(c.servers[l], c'.servers[l], c'.servers[f], l, f);
  }

  lemma {:induction false} AllCommit(c: Cluster, l: int, q: set<int>, rest: set<int>, i: int) returns (c': Cluster)
    requires Sound(c) && Reign(c, l, q) && rest <= q - {l} && c.servers[l].commitIndex >= i
    requires forall p <- q - {l} - rest :: Holds(c, l, p, i)
    ensures Reaches(c, c', q) && Sound(c') && Later(c, c', l, q)
    ensures forall p <- q - {l} :: Holds(c', l, p, i)
    decreases |rest|
  {
    hide Sound, Reaches, OwnEntry, MostHold, Upto;
    if |rest| == 0 {
      assert rest == {};
      c' := c;
      ReachesItself(c, q);
    } else {
      var p := SomeElement(rest);
      var c1 := StepWith(c, l, q, p);
      forall r <- q - {l} - (rest - {p}) ensures Holds(c1, l, r, i) {
        assert r == p || (r in q - {l} - rest && Holds(c, l, r, i));
      }
      c' := AllCommit(c1, l, q, rest - {p}, i);
      Chain(c, c1, c', q);
    }
  }

  /** A member of the set whose log ends no older than that of any other. */
  lemma {:induction false} Newest(c: Cluster, q: set<int>) returns (i: int)
    requires q <= Below(|c.servers|) && |q| > 0 && forall p <- q :: |c.servers[p].logs| > 0
    ensures NoneNewer(c, i, q)
    decreases |q|
  {
    var p := SomeElement(q);
    if |q| == 1 {
      i := p;
      forall r <- q ensures r == p { assert |q - {p}| == 0 && (r == p || r in q - {p}); }
    } else {
      assert |q - {p}| == |q| - 1;
      i := Newest(c, q - {p});
      var last := Last(c.servers[i].logs);
      forall r <- q ensures r == p || NotOlder(last.term, last.index, c.servers[r].logs) { assert r == p
                            || r in q - {p}; }
      if !NotOlder(last.term, last.index, c.servers[p].logs) { i := p; }
    }
  }

  lemma SubmitEffect(c: Cluster, l: int, command: Command)
    requires 0 <= l < |c.servers| && c.servers[l].role == Leader && InBounds(c.servers[l], |c.servers|)
    ensures Enabled(c, Submit(l, command)) && Actor(Submit(l, command)) == l
    ensures Apply(c, Submit(l, command), AsIntended).servers == c.servers[l := Start(c.servers[l], command)]
    ensures var s, s' := c.servers[l], Start(c.servers[l], command);
            && s'.role == Leader && s'.currentTerm == s.currentTerm && |s'.matchIndex| == |c.servers| == |s'.nextIndex|
            && s'.logs == s.logs + [Entry(s.logs[|s.logs| - 1].index + 1, s.currentTerm, command)]
  {
    hide Broadcast;
  }

  lemma SubmitTo(c: Cluster, l: int, command: Command, q: set<int>) returns (c': Cluster)
    requires Sound(c) && 0 <= l < |c.servers| && c.servers[l].role == Leader && l in q
    ensures Reaches(c, c', q) && Sound(c') && |c'.servers| == |c.servers|
    ensures forall p :: 0 <= p < |c.servers| && p != l ==> c'.servers[p] == c.servers[p]
    ensures var s, s' := c.servers[l], c'.servers[l];
            && s'.role == Leader && s'.currentTerm == s.currentTerm && |s'.matchIndex| == |c.servers| == |s'.nextIndex|
            && s'.logs == s.logs + [Entry(|s.logs|, s.currentTerm, command)]
  {
    SoundServer(c, l);
    ReachesItself(c, q);
    LogEnds(c.servers[l].logs);
    SubmitEffect(c, l, command);
    hide *;
    c' := Act(c, c, Submit(l, command), q);
  }

  /** All members have committed one and the same log up to an entry that holds the command. */
  ghost predicate AllHave(c: Cluster, l: int, q: set<int>, i: int, command: Command) {
    && 0 <= l < |c.servers| && l in q && 0 <= i < |c.servers[l].logs| && c.servers[l].logs[i].command == command
    && forall p <- q :: && 0 <= p < |c.servers| && i <= c.servers[p].commitIndex < |c.servers[p].logs|
                        && c.servers[p].logs[..i + 1] == c.servers[l].logs[..i + 1]
  }

  /** A majority can elect one of its members and have it take a command. */
  lemma CanTake(c: Cluster, q: set<int>, command: Command) returns (c': Cluster, l: int)
    requires Sound(c) && Quorum(|c.servers|, q) && |c.servers| > 1
    ensures Reaches(c, c', q) && Sound(c') && Reign(c', l, q) && |c'.servers| == |c.servers|
    ensures var lead := c'.servers[l]; var last := lead.logs[|lead.logs| - 1];
            last.term == lead.currentTerm && last.command == command
    ensures forall p <- q :: c'.servers[l].currentTerm > c.servers[p].currentTerm
  {
    hide Sound, Reaches, InBounds, WfLog;
    forall p <- q ensures |c.servers[p].logs| > 0 { SoundServer(c, p); }
    l := Newest(c, q);
    var c1 := CanBeElected(c, l, q);
    c' := SubmitTo(c1, l, command, q);
    Chain(c, c1, c', q);
  }

  lemma HoldersHave(c: Cluster, l: int, q: set<int>, i: int)
    requires Sound(c) && Reign(c, l, q) && i == |c.servers[l].logs| - 1 && c.servers[l].commitIndex >= i
    requires forall p <- q - {l} :: Holds(c, l, p, i)
    ensures AllHave(c, l, q, i, c.servers[l].logs[i].command)
  {
    hide Sound, InBounds, WfLog;
    forall p <- q ensures i <= c.servers[p].commitIndex < |c.servers[p].logs|
                          && c.servers[p].logs[..i + 1] == c.servers[l].logs[..i + 1]
    {
      SoundServer(c, p);
      assert p == l || Holds(c, l, p, i);
    }
  }

  /** A majority, whatever its members have been through, can commit a new command. */
  lemma MajorityCanCommit(c: Cluster, q: set<int>, command: Command) returns (c': Cluster, l: int, i: int)
    requires Sound(c) && Quorum(|c.servers|, q) && |c.servers| > 1
    ensures Reaches(c, c', q) && Sound(c') && |c'.servers| == |c.servers| && AllHave(c', l, q, i, command)
    ensures forall p <- q :: c'.servers[l].logs[i].term > c.servers[p].currentTerm
  {
    hide Sound, Reaches, Known, Holds, Upto;
    var c1;
    c1, l := CanTake(c, q, command);
    i := |c1.servers[l].logs| - 1;
    var c2 := LeaderCanCommit(c1, l, q);
    Chain(c, c1, c2, q);
    assert q - {l} - (q - {l}) == {};
    c' := AllCommit(c2, l, q, q - {l}, i);
    Chain(c, c2, c', q);
    HoldersHave(c', l, q, i);
  }

  // ---- Over runs

  ghost predicate StepOf(c: Cluster, c': Cluster, q: set<int>) {
    exists a :: Enabled(c, a) && c' == Apply(c, a, AsIntended) && Actor(a) in q && !a.Crash?
  }

  /** The run goes on by steps of members of `q` alone. */
  ghost predicate GoesOn(run: seq<Cluster>, run': seq<Cluster>, n: nat, q: set<int>) {
    && Run(run', n, AsIntended) && 0 < |run| <= |run'| && run'[..|run|] == run
    && forall k :: |run| - 1 <= k < |run'| - 1 ==> StepOf(run'[k], run'[k + 1], q)
  }

  ghost function End(run: seq<Cluster>): Cluster
    requires |run| > 0
  {
    run[|run| - 1]
  }

  lemma Continue(run: seq<Cluster>, n: nat, c': Cluster, q: set<int>) returns (run': seq<Cluster>)
    requires Run(run, n, AsIntended) && Reaches(End(run), c', q)
    ensures GoesOn(run, run', n, q) && End(run') == c'
  {
    hide Enabled, Apply;
    var cs: seq<Cluster>, acts: seq<Action> :| Joins(cs, acts, q, End(run), c');
    run' := run + cs[1..];
    forall k | |run| - 1 <= k < |run'| - 1
      ensures StepOf(run'[k], run'[k + 1], q) && Next(run'[k], run'[k + 1], AsIntended)
    {
      var j := k - |run| + 1;
      assert run'[k] == cs[j] && run'[k + 1] == cs[j + 1] && Enabled(cs[j], acts[j]);
    }
    forall k | 0 <= k < |run| - 1 ensures Next(run'[k], run'[k + 1], AsIntended) {}
  }

  /**
   However a run has gone, a server whose last (term, index) no member of a majority exceeds can be
   elected by that majority.
   */
  lemma Electable(run: seq<Cluster>, n: nat, i: int, q: set<int>) returns (run': seq<Cluster>)
    requires Run(run, n, AsIntended) && Quorum(|End(run).servers|, q) && |End(run).servers| > 1
             && NoneNewer(End(run), i, q)
    ensures GoesOn(run, run', n, q) && Elected(End(run), End(run'), i, q)
  {
    hide Sound, Reaches, Elected, Next;
    RunSound(run, n);
    var c' := CanBeElected(End(run), i, q);
    run' := Continue(run, n, c', q);
  }

  /** A leader with an entry of its term at the end and a majority in its term can commit all its log. */
  lemma Committing(run: seq<Cluster>, n: nat, l: int, q: set<int>) returns (run': seq<Cluster>)
    requires Run(run, n, AsIntended) && Reign(End(run), l, q)
    requires Last(End(run).servers[l].logs).term == End(run).servers[l].currentTerm
    ensures GoesOn(run, run', n, q) && Later(End(run), End(run'), l, q)
    ensures End(run').servers[l].commitIndex == |End(run).servers[l].logs| - 1
  {
    hide Sound, Reaches, Reign, Next;
    RunSound(run, n);
    var c' := LeaderCanCommit(End(run), l, q);
    run' := Continue(run, n, c', q);
  }

  /** What a leader has committed, every server of its term can come to commit. */
  lemma Following(run: seq<Cluster>, n: nat, l: int, f: int) returns (run': seq<Cluster>)
    requires Run(run, n, AsIntended) && l != f
    requires 0 <= l < |End(run).servers| && 0 <= f < |End(run).servers|
    requires End(run).servers[l].role == Leader && End(run).servers[f].currentTerm == End(run).servers[l].currentTerm
    ensures GoesOn(run, run', n, {l, f}) && OnlyThese(End(run).servers, End(run').servers, l, f)
    ensures CommitsAll(End(run).servers[l], End(run').servers[f])
  {
    hide Sound, Reaches, OnlyThese, Next, CommitsAll;
    RunSound(run, n);
    var c' := FollowerCanCommit(End(run), l, f);
    run' := Continue(run, n, c', {l, f});
  }

  lemma TermsBelow(c: Cluster, p: int, i: int)
    requires Sound(c) && 0 <= p < |c.servers| && 0 <= i < |c.servers[p].logs|
    ensures c.servers[p].logs[i].term <= c.servers[p].currentTerm
  {
    var h :| Inv(h) && Rel(c, h);
    hide Inv, LogOk;
    RelServer(c, h, p);
  }

  /** An entry of a newer term than a server has been in is not among those the server had committed. */
  lemma BeyondCommitted(run: seq<Cluster>, n: nat, k: int, p: int, i: int)
    requires Run(run, n, AsIntended) && InRun(run, k, p) && InRun(run, |run| - 1, p) && Sound(run[k])
    requires 0 <= i <= At(run, |run| - 1, p).commitIndex < |At(run, |run| - 1, p).logs|
    requires At(run, |run| - 1, p).logs[i].term > At(run, k, p).currentTerm
    ensures i > At(run, k, p).commitIndex
  {
    hide Run, Sound;
    if i <= At(run, k, p).commitIndex {
      var had, has := At(run, k, p).logs, At(run, |run| - 1, p).logs;
      StateMachineSafety(run, n, k, |run| - 1, p, p, i);
      assert had[i] == had[..i + 1][i] && has[i] == has[..i + 1][i];
      TermsBelow(run[k], p, i);
      assert false;
    }
  }

  /**
   However a run has gone, any majority can on its own commit a new command: every member holds it,
   committed, behind one common log, at an index beyond all that any of them had committed.
   */
  lemma Available(run: seq<Cluster>, n: nat, q: set<int>, command: Command)
    returns (run': seq<Cluster>, l: int, i: int)
    requires Run(run, n, AsIntended) && Quorum(|End(run).servers|, q) && |End(run).servers| > 1
    ensures GoesOn(run, run', n, q) && AllHave(End(run'), l, q, i, command)
    ensures forall p <- q :: i > End(run).servers[p].commitIndex
  {
    RunSound(run, n);
    hide Sound, Reaches, Next, Init;
    var c';
    c', l, i := MajorityCanCommit(End(run), q, command);
    run' := Continue(run, n, c', q);
    forall p <- q ensures i > End(run).servers[p].commitIndex {
      var k := |run| - 1;
      assert run'[..|run|][k] == run'[k] == End(run);
      assert c'.servers[p].logs[i] == c'.servers[p].logs[..i + 1][i] == c'.servers[l].logs[..i + 1][i];
      BeyondCommitted(run', n, k, p, i);
    }
  }

  // ---- A cluster of one

  /** All that a cluster of one ever reaches: nobody to ask, so nothing is ever won or committed. */
  ghost predicate Alone(c: Cluster) {
    && |c.servers| == 1 && c.net == {}
    && (var s := c.servers[0];
        && s.role != Leader && s.logs == [SENTINEL] == s.disk.logs && s.commitIndex == 0
        && forall t <- s.elections :: s.elections[t].awaiting == {})
  }

  lemma StaysAlone(c: Cluster, a: Action, how: StepDown)
    requires Alone(c) && Enabled(c, a)
    ensures Alone(Apply(c, a, how))
  {
    assert a.ElectionTimer? || a.Crash?;
    assert Below(1) - {0} == {};
    assert (set p | p in Below(1) && p != 0) == {};
  }

  /**
   A cluster of one server never elects a leader and never commits: the vote count is only taken in
   a peer's answer.
   */
  lemma {:induction false} AloneNeverCommits(run: seq<Cluster>, how: StepDown, k: int)
    requires Run(run, 1, how) && 0 <= k < |run|
    ensures |run[k].servers| == 1 && run[k].servers[0].role != Leader && run[k].servers[0].commitIndex == 0
    ensures Alone(run[k])
  {
    if k > 0 {
      AloneNeverCommits(run, how, k - 1);
      assert Next(run[k - 1], run[k - 1 + 1], how);
      var a :| Enabled(run[k - 1], a) && run[k] == Apply(run[k - 1], a, how);
      StaysAlone(run[k - 1], a, how);
    }
  }
}
