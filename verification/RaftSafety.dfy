/** What every execution of the cluster guarantees (sections 5.2 to 5.4 of the extended Raft paper). */
module RaftSafety {
  import opened RaftTypes
  import opened RaftServer
  import opened RaftCluster
  import opened RaftCore
  import opened RaftRefinement
  import opened RaftSteps

  ghost predicate Recorded(run: seq<Cluster>, hs: seq<Core>) {
    && |hs| == |run|
    && (forall k :: 0 <= k < |run| ==> Inv(hs[k]) && Rel(run[k], hs[k]))
    && (forall j, k :: 0 <= j <= k < |run| ==> Extends(hs[j], hs[k]))
  }

  lemma InitHistory(n: nat) returns (h: Core)
    requires n > 0
    ensures Inv(h) && Rel(Init(n), h)
  {
    h := Core(seq(n, _ => Peer(0, [SENTINEL], map[], map[], map[])), map[]);
  }

  /** Every run of the cluster has a history that is in order throughout. */
  lemma {:induction false} History(run: seq<Cluster>, n: nat) returns (hs: seq<Core>)
    requires Run(run, n, AsIntended)
    ensures Recorded(run, hs)
    decreases |run|
  {
    hide Inv, Rel, Extends, Next;
    if |run| == 1 {
      var h := InitHistory(n);
      ExtendsRefl(h);
      hs := [h];
    } else {
      var rest := run[..|run| - 1];
      assert forall k :: 0 <= k < |rest| - 1 ==> Next(rest[k], rest[k + 1], AsIntended);
      var hs0 := History(rest, n);
      var last := |rest| - 1;
      assert Next(run[last], run[last + 1], AsIntended);
      var h := NextStep(run[last], hs0[last], run[last + 1]);
      hs := hs0 + [h];
      ExtendsRefl(h);
      forall j | 0 <= j <= last ensures Extends(hs[j], h) { ExtendsTrans(hs0[j], hs0[last], h); }
    }
  }

  /** The server `i` of the `k`-th state. */
  ghost function At(run: seq<Cluster>, k: int, i: int): Server
    requires 0 <= k < |run| && 0 <= i < |run[k].servers|
  {
    run[k].servers[i]
  }

  ghost predicate InRun(run: seq<Cluster>, k: int, i: int) {
    0 <= k < |run| && 0 <= i < |run[k].servers|
  }

  lemma RelServer(c: Cluster, h: Core, i: int)
    requires Inv(h) && Rel(c, h) && 0 <= i < |c.servers|
    ensures |c.servers| == |h.peers| && ServerRel(h, i, c.servers[i]) && PeerOk(h, i) && LogOk(h, c.servers[i].logs)
  {
  }

  /** Election safety: no two servers, at any two moments, lead the same term. */
  lemma ElectionSafety(run: seq<Cluster>, n: nat, j: int, k: int, a: int, b: int)
    requires Run(run, n, AsIntended) && InRun(run, j, a) && InRun(run, k, b)
    requires At(run, j, a).role == Leader && At(run, k, b).role == Leader
    requires At(run, j, a).currentTerm == At(run, k, b).currentTerm
    ensures a == b
  {
    hide Inv, Run;
    var hs := History(run, n);
    RelServer(run[j], hs[j], a);
    RelServer(run[k], hs[k], b);
    if j <= k { assert Extends(hs[j], hs[k]); } else { assert Extends(hs[k], hs[j]); }
  }

  /** A server never votes for two candidates of one term, however often it crashes in between. */
  lemma OneVotePerTerm(run: seq<Cluster>, n: nat, j: int, k: int, a: int)
    requires Run(run, n, AsIntended) && InRun(run, j, a) && InRun(run, k, a)
    requires At(run, j, a).currentTerm == At(run, k, a).currentTerm
    requires At(run, j, a).votedFor != NO_VOTE && At(run, k, a).votedFor != NO_VOTE
    ensures At(run, j, a).votedFor == At(run, k, a).votedFor
  {
    hide Inv, Run;
    var hs := History(run, n);
    RelServer(run[j], hs[j], a);
    RelServer(run[k], hs[k], a);
    if j <= k {
      assert Extends(hs[j], hs[k]);
      assert PeerExtends(hs[j].peers[a], hs[k].peers[a]);
    } else {
      assert Extends(hs[k], hs[j]);
      assert PeerExtends(hs[k].peers[a], hs[j].peers[a]);
    }
  }

  /** Terms never go back and a vote, once cast, is kept until the term changes. */
  lemma PromisesKept(run: seq<Cluster>, n: nat, j: int, k: int, a: int)
    requires Run(run, n, AsIntended) && InRun(run, j, a) && InRun(run, k, a) && j <= k
    ensures KeepsPromise(At(run, j, a), At(run, k, a))
  {
    hide Inv, Run;
    var hs := History(run, n);
    RelServer(run[j], hs[j], a);
    RelServer(run[k], hs[k], a);
    assert Extends(hs[j], hs[k]);
    assert PeerExtends(hs[j].peers[a], hs[k].peers[a]);
  }

  predicate KeepsPromise(s: Server, s': Server) {
    && s'.currentTerm >= s.currentTerm
    && (s'.currentTerm == s.currentTerm && s.votedFor != NO_VOTE ==> s'.votedFor == s.votedFor)
  }

  /** Log matching: two logs, at any two moments, that hold the same term at an index agree up to it. */
  lemma LogMatching(run: seq<Cluster>, n: nat, j: int, k: int, a: int, b: int, i: int)
    requires Run(run, n, AsIntended) && InRun(run, j, a) && InRun(run, k, b)
    requires 0 <= i < |At(run, j, a).logs| && i < |At(run, k, b).logs|
    requires At(run, j, a).logs[i].term == At(run, k, b).logs[i].term
    ensures Upto(At(run, j, a).logs, At(run, k, b).logs, i)
  {
    hide Inv, Run, LogOk;
    var hs := History(run, n);
    RelServer(run[j], hs[j], a);
    RelServer(run[k], hs[k], b);
    var m := if j <= k then k else j;
    LogOkStable(hs[j], hs[m], At(run, j, a).logs);
    LogOkStable(hs[k], hs[m], At(run, k, b).logs);
    LogsMatch(hs[m], At(run, j, a).logs, At(run, k, b).logs, i);
  }

  /** State machine safety: no two servers ever commit different entries at one index. */
  lemma StateMachineSafety(run: seq<Cluster>, n: nat, j: int, k: int, a: int, b: int, i: int)
    requires Run(run, n, AsIntended) && InRun(run, j, a) && InRun(run, k, b)
    requires 0 <= i <= At(run, j, a).commitIndex && i <= At(run, k, b).commitIndex
    ensures i < |At(run, j, a).logs| && i < |At(run, k, b).logs|
    ensures At(run, j, a).logs[..i + 1] == At(run, k, b).logs[..i + 1]
  {
    hide Inv, Run, Rel, Committed, Extends;
    var hs := History(run, n);
    RelCommitted(run[j], hs[j], a);
    RelCommitted(run[k], hs[k], b);
    var s, t := At(run, j, a), At(run, k, b);
    var m := if j <= k then k else j;
    var bound := Max(s.currentTerm, t.currentTerm);
    CommittedStable(hs[j], hs[m], s.logs, s.commitIndex, s.currentTerm, bound);
    CommittedStable(hs[k], hs[m], t.logs, t.commitIndex, t.currentTerm, bound);
    if s.commitIndex <= t.commitIndex {
      CommittedAgree(hs[m], s.logs, s.commitIndex, t.logs, t.commitIndex, bound);
      UptoShorter(s.logs, t.logs, s.commitIndex, i);
    } else {
      CommittedAgree(hs[m], t.logs, t.commitIndex, s.logs, s.commitIndex, bound);
      UptoShorter(t.logs, s.logs, t.commitIndex, i);
    }
  }

  lemma RelCommitted(c: Cluster, h: Core, i: int)
    requires Inv(h) && Rel(c, h) && 0 <= i < |c.servers|
    ensures var s := c.servers[i]; Committed(h, s.logs, s.commitIndex, s.currentTerm)
  {
    hide Inv, Committed;
  }

  // ---- Who committed what

  /** A leader that has applied the commit rule of section 5.4.2: its commit index is at an entry of its own term. */
  predicate OwnCommit(s: Server) {
    s.role == Leader && 0 < s.commitIndex < |s.logs| && s.logs[s.commitIndex].term == s.currentTerm
  }

  /** Server `l` had committed index `c` by the rule at moment `m`, no later than `j`. */
  ghost predicate CommittedBy(run: seq<Cluster>, j: int, c: int, m: int, l: int) {
    m <= j && InRun(run, m, l) && OwnCommit(At(run, m, l)) && At(run, m, l).commitIndex >= c
  }

  ghost predicate Traced(run: seq<Cluster>, j: int, c: int) {
    c <= 0 || exists m, l :: CommittedBy(run, j, c, m, l)
  }

  ghost predicate AllTraced(run: seq<Cluster>, j: int)
    requires 0 <= j < |run|
  {
    && (forall i :: 0 <= i < |run[j].servers| ==> Traced(run, j, run[j].servers[i].commitIndex))
    && (forall m <- run[j].net :: m.AppendRequest? ==> Traced(run, j, m.append.leaderCommit))
  }

  lemma TracedLater(run: seq<Cluster>, j: int, k: int, c: int, c': int)
    requires Traced(run, j, c) && j <= k && c' <= c
    ensures Traced(run, k, c')
  {
    if c' > 0 {
      var m, l :| CommittedBy(run, j, c, m, l);
      assert CommittedBy(run, k, c', m, l);
    }
  }

  /** A commit index moves by the rule, or to no more than a leader's message says. */
  lemma CommitMovesHow(s: Server, i: int, n: nat, a: Action)
    requires InBounds(s, n) && WfLog(s.logs) && s.disk.logs == s.logs && 0 <= s.commitIndex
    requires a.Submit? || a.HeartbeatTimer? ==> s.role == Leader
    requires a.Deliver? && a.m.VoteAnswer? ==> a.m.ballot.term in s.elections
    requires a.Deliver? && (a.m.AppendAnswer? || a.m.SnapshotAnswer?) ==> 0 <= a.m.from < n
    ensures var (s', sent) := Effect(s, i, n, a, AsIntended);
            && MovedBy(a, s, s')
            && forall m <- sent :: m.AppendRequest? ==> m.append.leaderCommit == s'.commitIndex
  {
    hide Broadcast, AppendReply, Timeout, RequestVote, VoteReply, AppendEntries, InstallSnapshot, OwnCommit;
    match a
    case ElectionTimer(_) => TimeoutKeepsCommit(s, i, n);
    case HeartbeatTimer(_) => BroadcastSays(s, i, n, true);
    case Submit(_, command) => BroadcastSays(Start(s, command), i, n, false);
    case Crash(_) =>
    case Deliver(VoteRequest(_, ballot)) => BallotKeepsCommit(s, ballot);
    case Deliver(VoteAnswer(from, ballot, reply)) => VoteKeepsCommit(s, i, n, from, ballot, reply);
    case Deliver(AppendRequest(_, append)) => AppendMovesCommit(s, append);
    case Deliver(AppendAnswer(from, append, reply)) => LeaderMovesCommit(s, i, n, from, append, reply);
    case Deliver(SnapshotRequest(_, _, snapshot)) => SnapshotKeepsCommit(s, snapshot);
    case Deliver(SnapshotAnswer(_, _, _, _)) =>
  }

  lemma TimeoutKeepsCommit(s: Server, i: int, n: nat)
    requires |s.logs| > 0
    ensures Timeout(s, i, n).commitIndex == s.commitIndex
  {
  }

  lemma VoteKeepsCommit(s: Server, i: int, n: nat, peer: int, args: RequestVoteArgs, reply: RequestVoteReply)
    requires InBounds(s, n) && args.term in s.elections
    ensures var (s', won) := VoteReply(s, n, peer, args, reply, AsIntended);
            && s'.commitIndex == s.commitIndex
            && (won ==> forall m <- Broadcast(s', i, n, true) ::
                        m.AppendRequest? ==> m.append.leaderCommit == s.commitIndex)
  {
    var (s', won) := VoteReply(s, n, peer, args, reply, AsIntended);
    if won { BroadcastSays(s', i, n, true); }
  }

  lemma LeaderMovesCommit(s: Server, i: int, n: nat, peer: int, args: AppendEntriesArgs, reply: AppendEntriesReply)
    requires InBounds(s, n) && WfLog(s.logs) && 0 <= s.commitIndex && 0 <= peer < n
    ensures var s' := AppendReply(s, i, n, peer, args, reply); s'.commitIndex <= s.commitIndex || OwnCommit(s')
  {
    hide NextProbe;
    LogEnds(s.logs);
  }

  lemma BallotKeepsCommit(s: Server, args: RequestVoteArgs)
    requires |s.logs| > 0
    ensures RequestVote(s, args).0.commitIndex == s.commitIndex
  {
  }

  lemma SnapshotKeepsCommit(s: Server, args: InstallSnapshotArgs)
    ensures InstallSnapshot(s, args).0.commitIndex == s.commitIndex
  {
  }

  lemma AppendMovesCommit(s: Server, args: AppendEntriesArgs)
    requires Indexed(s.logs)
    ensures var s' := AppendEntries(s, args).0; s'.commitIndex <= s.commitIndex || s'.commitIndex <= args.leaderCommit
  {
  }

  lemma BroadcastSays(s: Server, i: int, n: nat, heartbeat: bool)
    requires CanSend(s, n)
    ensures forall m <- Broadcast(s, i, n, heartbeat) :: m.AppendRequest? ==> m.append.leaderCommit == s.commitIndex
  {
  }

  /** What one step does to commit indexes and to what messages say of them. */
  lemma StepHow(c: Cluster, h: Core, c': Cluster) returns (a: Action)
    requires Inv(h) && Rel(c, h) && Next(c, c', AsIntended)
    ensures Enabled(c, a) && |c'.servers| == |c.servers| && 0 <= Actor(a) < |c.servers|
    ensures forall k :: 0 <= k < |c.servers| && k != Actor(a) ==> c'.servers[k] == c.servers[k]
    ensures MovedBy(a, c.servers[Actor(a)], c'.servers[Actor(a)])
    ensures forall m <- c'.net :: m.AppendRequest? ==>
                                  m in c.net || m.append.leaderCommit == c'.servers[Actor(a)].commitIndex
  {
    hide Effect, InBounds, LogOk, Inv;
    a :| Enabled(c, a) && c' == Apply(c, a, AsIntended);
    var i := Actor(a);
    RelServer(c, h, i);
    LogWf(h, c.servers[i].logs);
    CommitMovesHow(c.servers[i], i, |c.servers|, a);
  }

  predicate MovedBy(a: Action, s: Server, s': Server) {
    || s'.commitIndex <= s.commitIndex
    || (a.Deliver? && a.m.AppendRequest? && s'.commitIndex <= a.m.append.leaderCommit)
    || OwnCommit(s')
  }

  lemma TraceStep(run: seq<Cluster>, h: Core, j: int)
    requires 0 <= j < |run| - 1 && Inv(h) && Rel(run[j], h) && Next(run[j], run[j + 1], AsIntended) && AllTraced(run, j)
    ensures AllTraced(run, j + 1)
  {
    hide Inv, Rel, Next, Enabled, MovedBy, Traced;
    var c, c' := run[j], run[j + 1];
    var a := StepHow(c, h, c');
    var i := Actor(a);
    TraceServer(run, j, a, i);
    forall k | 0 <= k < |c'.servers| ensures Traced(run, j + 1, c'.servers[k].commitIndex) {
      if k != i { TracedLater(run, j, j + 1, c.servers[k].commitIndex, c.servers[k].commitIndex); }
    }
    forall m <- c'.net | m.AppendRequest? ensures Traced(run, j + 1, m.append.leaderCommit) {
      if m in c.net { TracedLater(run, j, j + 1, m.append.leaderCommit, m.append.leaderCommit); }
    }
  }

  lemma TraceServer(run: seq<Cluster>, j: int, a: Action, i: int)
    requires 0 <= j < |run| - 1 && AllTraced(run, j) && Enabled(run[j], a) && i == Actor(a)
    requires InRun(run, j, i) && InRun(run, j + 1, i) && MovedBy(a, At(run, j, i), At(run, j + 1, i))
    ensures Traced(run, j + 1, At(run, j + 1, i).commitIndex)
  {
    hide Traced;
    var s, s' := At(run, j, i), At(run, j + 1, i);
    if s'.commitIndex <= s.commitIndex {
      TracedLater(run, j, j + 1, s.commitIndex, s'.commitIndex);
    } else if OwnCommit(s') {
      TracedHere(run, j + 1, i);
    } else {
      assert a.m in run[j].net;
      TracedLater(run, j, j + 1, a.m.append.leaderCommit, s'.commitIndex);
    }
  }

  lemma TracedHere(run: seq<Cluster>, j: int, i: int)
    requires InRun(run, j, i) && OwnCommit(At(run, j, i))
    ensures Traced(run, j, At(run, j, i).commitIndex)
  {
    assert CommittedBy(run, j, At(run, j, i).commitIndex, j, i);
  }

  lemma InitTraced(run: seq<Cluster>, n: nat)
    requires |run| > 0 && run[0] == Init(n)
    ensures AllTraced(run, 0)
  {
  }

  lemma {:induction false} CommitsTraced(run: seq<Cluster>, n: nat, hs: seq<Core>, j: int)
    requires Run(run, n, AsIntended) && Recorded(run, hs) && 0 <= j < |run|
    ensures AllTraced(run, j)
  {
    hide AllTraced, Inv, Rel, Next, Extends, Init;
    if j == 0 {
      InitTraced(run, n);
    } else {
      CommitsTraced(run, n, hs, j - 1);
      assert Next(run[j - 1], run[j - 1 + 1], AsIntended);
      TraceStep(run, hs[j - 1], j - 1);
    }
  }

  /** The entry a leader committed by the rule is in the log of every leader of a later term, whenever that one led. */
  lemma LaterLeaderHas(run: seq<Cluster>, n: nat, hs: seq<Core>, m: int, l: int, k: int, b: int)
    requires Run(run, n, AsIntended) && Recorded(run, hs) && InRun(run, m, l) && InRun(run, k, b)
             && OwnCommit(At(run, m, l))
    requires At(run, k, b).role == Leader && At(run, k, b).currentTerm > At(run, m, l).currentTerm
    ensures Upto(At(run, m, l).logs, At(run, k, b).logs, At(run, m, l).commitIndex)
  {
    hide Run, LogOk, Inv;
    RelServer(run[m], hs[m], l);
    RelServer(run[k], hs[k], b);
    var s, lead, last := At(run, m, l), At(run, k, b), if m <= k then k else m;
    var c, t, u := s.commitIndex, s.currentTerm, lead.currentTerm;
    assert Extends(hs[m], hs[last]) && Extends(hs[k], hs[last]);
    CommittedStable(hs[m], hs[last], s.logs, c, t, u);
    CommittedInLeader(hs[last], s.logs, c, u);
    InvReign(hs[k], u);
    hide Recorded, Committed, Extends, ServerRel;
    assert Grows(lead.logs, hs[last].reign[u].log, u) by { LeaderLog(run[k], hs[k], hs[last], b); }
    EarlierThanTail(s.logs, hs[last].reign[u].log, lead.logs, c, u);
  }

  lemma LeaderLog(c: Cluster, h: Core, h': Core, b: int)
    requires Inv(h) && Rel(c, h) && Extends(h, h') && 0 <= b < |c.servers| && c.servers[b].role == Leader
    ensures var s := c.servers[b]; s.currentTerm in h'.reign
                                   && Grows(s.logs, h'.reign[s.currentTerm].log, s.currentTerm)
  {
    RelServer(c, h, b);
    InvReign(h, c.servers[b].currentTerm);
  }

  /** An entry of an earlier term is not in the part of a leader's log that grew during its term. */
  lemma EarlierThanTail(log: Log, whole: Log, part: Log, c: int, u: nat)
    requires Upto(log, whole, c) && Grows(part, whole, u) && log[c].term < u
    ensures Upto(log, part, c)
  {
    assert log[c] == log[..c + 1][c] == whole[..c + 1][c] == whole[c];
    assert c < |part|;
    assert part == whole[..|part|];
    assert part[..c + 1] == whole[..c + 1];
  }

  /**
   Leader completeness: whatever a server counts as committed was committed by
   the leader of some term, and is in the log of every leader of a later term,
   whether that one led before or after.
   */
  lemma LeaderCompleteness(run: seq<Cluster>, n: nat, j: int, a: int) returns (m: int, l: int)
    requires Run(run, n, AsIntended) && InRun(run, j, a) && At(run, j, a).commitIndex > 0
    ensures CommittedBy(run, j, At(run, j, a).commitIndex, m, l)
    ensures forall k, b :: InRun(run, k, b) && At(run, k, b).role == Leader
                           && At(run, k, b).currentTerm > At(run, m, l).currentTerm ==>
              Upto(At(run, j, a).logs, At(run, k, b).logs, At(run, j, a).commitIndex)
  {
    hide Run, Inv;
    var hs := History(run, n);
    CommitsTraced(run, n, hs, j);
    var s := At(run, j, a);
    assert Traced(run, j, s.commitIndex);
    m, l :| CommittedBy(run, j, s.commitIndex, m, l);
    var lead := At(run, m, l);
    StateMachineSafety(run, n, j, m, a, l, s.commitIndex);
    assert Upto(s.logs, lead.logs, s.commitIndex);
    hide Recorded, OwnCommit;
    forall k, b | InRun(run, k, b) && At(run, k, b).role == Leader && At(run, k, b).currentTerm > lead.currentTerm
      ensures Upto(s.logs, At(run, k, b).logs, s.commitIndex)
    {
      LaterLeaderHas(run, n, hs, m, l, k, b);
      UptoShorter(lead.logs, At(run, k, b).logs, lead.commitIndex, s.commitIndex);
      UptoTrans(s.logs, lead.logs, At(run, k, b).logs, s.commitIndex);
    }
  }

  /** No handler ever indexes outside its slices, and a crash never loses anything the server acted on. */
  lemma AlwaysInBounds(run: seq<Cluster>, n: nat, k: int, a: int)
    requires Run(run, n, AsIntended) && InRun(run, k, a)
    ensures |run[k].servers| == n && InBounds(At(run, k, a), n)
    ensures var s := At(run, k, a); s.disk == Disk(s.currentTerm, s.votedFor, s.logs)
  {
    hide Inv, Run;
    var hs := History(run, n);
    Sizes(run, n, k);
    RelServer(run[k], hs[k], a);
    LogEnds(At(run, k, a).logs);
  }

  lemma {:induction false} Sizes(run: seq<Cluster>, n: nat, k: int)
    requires Run(run, n, AsIntended) && 0 <= k < |run|
    ensures |run[k].servers| == n
  {
    if k > 0 {
      Sizes(run, n, k - 1);
      assert Next(run[k - 1], run[k], AsIntended);
    }
  }

  /**
   An append request, however stale, removes from the log of a server in its
   term nothing that agrees with that term's leader, whenever that one led.
   */
  lemma StaleAppendKeeps(run: seq<Cluster>, n: nat, k: int, a: int, j: int, l: int, args: AppendEntriesArgs, i: int)
    requires Run(run, n, AsIntended) && InRun(run, k, a) && InRun(run, j, l)
    requires AppendRequest(a, args) in run[k].net
    requires At(run, j, l).role == Leader && At(run, j, l).currentTerm == args.term
    requires Upto(At(run, k, a).logs, At(run, j, l).logs, i)
    ensures Indexed(At(run, k, a).logs)
    ensures Upto(AppendEntries(At(run, k, a), args).0.logs, At(run, j, l).logs, i)
  {
    hide Inv, Run, LogOk, AppendEntries, Upto, Committed, AppendRel, Grows, Extends;
    var hs := History(run, n);
    var last := if j <= k then k else j;
    var h, s, lead := hs[last], At(run, k, a), At(run, j, l).logs;
    RelServer(run[k], hs[k], a);
    assert MessageRel(hs[k], AppendRequest(a, args));
    AppendStable(hs[k], h, args);
    LogOkStable(hs[k], h, s.logs);
    LogWf(h, s.logs);
    LeaderLog(run[j], hs[j], h, l);
    InvReign(h, args.term);
    assert PrefixOf(lead, h.reign[args.term].log) by { GrowsIs(lead, h.reign[args.term].log, args.term); }
    UptoPrefix(s.logs, lead, h.reign[args.term].log, i);
    AppendKeeps(h, s, args, h.reign[args.term].log, i);
    UptoWithin(AppendEntries(s, args).0.logs, h.reign[args.term].log, s.logs, lead, i);
  }

  lemma GrowsIs(a: Log, b: Log, t: nat)
    requires Grows(a, b, t)
    ensures PrefixOf(a, b)
  {
  }

  lemma UptoWithin(a: Log, whole: Log, b: Log, part: Log, i: int)
    requires Upto(a, whole, i) && PrefixOf(part, whole) && Upto(b, part, i)
    ensures Upto(a, part, i)
  {
    assert part[..i + 1] == whole[..|part|][..i + 1];
  }

  lemma AppendKeeps(h: Core, s: Server, args: AppendEntriesArgs, lead: Log, i: int)
    requires LogOk(h, s.logs) && LogOk(h, lead) && Indexed(s.logs) && Upto(s.logs, lead, i)
    requires AppendRel(h, args) && lead == h.reign[args.term].log
    ensures Upto(AppendEntries(s, args).0.logs, lead, i)
  {
    hide Merge, Followed, LogOk, XIndex, WfLog;
    LogWf(h, s.logs);
    LogEnds(s.logs);
    var at := args.prevLogIndex;
    if args.term == s.currentTerm && at < |s.logs| && s.logs[at].term == args.prevLogTerm {
      MergeFollows(h, lead, s.logs, at, args.entries);
      FollowedKeepsCommit(lead, s.logs, at + 1 + |args.entries|, i);
    }
  }
}
