/**
 Where the agreed commands of the apply path come from: what the servers of a
 Raft cluster commit. Each server applies, beside its Raft steps and at its own
 pace, what its log and commit index are at the time.
 */
module ApplyRaft {
  import opened RaftTypes
  import opened RaftServer
  import opened RaftCluster
  import opened RaftCore
  import opened RaftRefinement
  import opened RaftSteps
  import opened RaftSafety
  import P = ApplyPath
  import G = ShardGroup

  // ---- Commit indexes only grow, crashes aside

  lemma AppendCommits(h: Core, i: int, s: Server, args: AppendEntriesArgs)
    requires Inv(h) && 0 <= i < |h.peers| && ServerRel(h, i, s) && LogOk(h, s.logs) && AppendRel(h, args)
             && Indexed(s.logs)
    ensures AppendEntries(s, args).0.commitIndex >= s.commitIndex
  {
    if args.term == s.currentTerm {
      hide Inv, LogOk, Merge, XIndex, ServerRel, Committed;
      InvReign(h, args.term);
      var lead := h.reign[args.term].log;
      assert Upto(s.logs, lead, s.commitIndex) by { HasCommitted(h, i, s); }
      AppendKeeps(h, s, args, lead, s.commitIndex);
      AppendEnds(h, s, args);
    }
  }

  lemma HasCommitted(h: Core, i: int, s: Server)
    requires Inv(h) && 0 <= i < |h.peers| && ServerRel(h, i, s) && s.currentTerm >= 0 && s.currentTerm in h.reign
    ensures Upto(s.logs, h.reign[s.currentTerm].log, s.commitIndex)
  {
    hide Inv, Committed;
    CommittedInLeader(h, s.logs, s.commitIndex, s.currentTerm);
  }

  /** The last entry of what an append request leaves has the index of its place. */
  lemma AppendEnds(h: Core, s: Server, args: AppendEntriesArgs)
    requires LogOk(h, s.logs) && AppendRel(h, args) && LogOk(h, h.reign[args.term].log) && Indexed(s.logs)
    ensures var s' := AppendEntries(s, args).0;
            |s'.logs| > 0 && (s'.commitIndex >= s.commitIndex || s'.commitIndex >= |s'.logs| - 1)
  {
    hide Merge, Followed, LogOk, XIndex, WfLog, Accept;
    LogWf(h, s.logs);
    LogEnds(s.logs);
    var at, lead := args.prevLogIndex, h.reign[args.term].log;
    LogWf(h, lead);
    if args.term == s.currentTerm && at < |s.logs| && s.logs[at].term == args.prevLogTerm {
      MergeFollows(h, lead, s.logs, at, args.entries);
      FollowedWf(lead, s.logs, at + 1 + |args.entries|);
      AcceptEnds(if s.role == Candidate then s.(role := Follower) else s, at + 1, args);
    }
  }

  lemma AcceptEnds(s: Server, at: nat, args: AppendEntriesArgs)
    requires 0 < at <= |s.logs| && WfLog(Merge(s.logs, at, args.entries))
    ensures var s' := Accept(s, at, args);
            |s'.logs| > 0 && (s'.commitIndex >= s.commitIndex || s'.commitIndex >= |s'.logs| - 1)
  {
    hide Merge;
    LogEnds(Merge(s.logs, at, args.entries));
  }

  lemma LeaderCommits(s: Server, i: int, n: nat, peer: int, args: AppendEntriesArgs, reply: AppendEntriesReply)
    requires InBounds(s, n) && WfLog(s.logs) && 0 <= peer < n
    ensures AppendReply(s, i, n, peer, args, reply).commitIndex >= s.commitIndex
  {
    hide NextProbe;
    LogEnds(s.logs);
  }

  lemma CommitGrows(c: Cluster, h: Core, a: Action)
    requires Inv(h) && Rel(c, h) && Enabled(c, a) && !a.Crash?
    ensures Apply(c, a, AsIntended).servers[Actor(a)].commitIndex >= c.servers[Actor(a)].commitIndex
  {
    var i, n := Actor(a), |c.servers|;
    var s := c.servers[i];
    RelServer(c, h, i);
    LogWf(h, s.logs);
    assert a.Deliver? ==> a.m in c.net && MessageRel(h, a.m);
    hide Inv, Rel, LogOk, Broadcast, AppendReply, Timeout, RequestVote, VoteReply, AppendEntries, InstallSnapshot,
         ServerRel;
    match a
    case ElectionTimer(_) => TimeoutKeepsCommit(s, i, n);
    case Deliver(VoteRequest(_, ballot)) => BallotKeepsCommit(s, ballot);
    case Deliver(VoteAnswer(from, ballot, reply)) => VoteKeepsCommit(s, i, n, from, ballot, reply);
    case Deliver(AppendRequest(_, append)) => AppendCommits(h, i, s, append);
    case Deliver(AppendAnswer(from, append, reply)) => LeaderCommits(s, i, n, from, append, reply);
    case Deliver(SnapshotRequest(_, _, snapshot)) => SnapshotKeepsCommit(s, snapshot);
    case _ =>
  }

  // ---- A log as the apply path has it

  type Decoder = Command -> G.CommandArgs

  ghost function Logged(logs: Log, dec: Decoder): (r: seq<P.LogEntry>)
    requires WfLog(logs)
    ensures P.Indexed(r) && |r| == |logs| && r[0] == P.Blank(0, 0)
    ensures forall k :: 0 < k < |r| ==> r[k] == P.LogEntry(k, logs[k].term, dec(logs[k].command))
  {
    seq(|logs|, k requires 0 <= k < |logs| =>
      if k == 0 then P.Blank(0, 0) else P.LogEntry(k, logs[k].term, dec(logs[k].command)))
  }

  ghost predicate CommittedIn(run: seq<Cluster>, k: int, b: int, i: int) {
    InRun(run, k, b) && 0 < i <= At(run, k, b).commitIndex && i < |At(run, k, b).logs|
  }

  /** The entry some server commits at an index at some moment, if any does. */
  ghost function AgreedEntry(run: seq<Cluster>, i: int): Entry {
    if exists k, b :: CommittedIn(run, k, b, i) then
      var k, b :| CommittedIn(run, k, b, i);
      At(run, k, b).logs[i]
    else SENTINEL
  }

  ghost function AgreedBy(run: seq<Cluster>, dec: Decoder): nat -> P.Agreed {
    (i: nat) => var en := AgreedEntry(run, i); P.Agreed(if en.term < 0 then 0 else en.term, dec(en.command))
  }

  lemma Witness(run: seq<Cluster>, i: int, k: int, b: int) returns (k': int, b': int)
    requires CommittedIn(run, k, b, i)
    ensures CommittedIn(run, k', b', i) && AgreedEntry(run, i) == At(run, k', b').logs[i]
  {
    k', b' :| CommittedIn(run, k', b', i) && AgreedEntry(run, i) == At(run, k', b').logs[i];
  }

  lemma CommittedIsAgreed(run: seq<Cluster>, n: nat, k: int, b: int, i: int)
    requires Run(run, n, AsIntended) && CommittedIn(run, k, b, i)
    ensures AgreedEntry(run, i) == At(run, k, b).logs[i]
  {
    var k', b' := Witness(run, i, k, b);
    hide Run;
    StateMachineSafety(run, n, k, k', b, b', i);
    assert At(run, k, b).logs[i] == At(run, k, b).logs[..i + 1][i];
    assert At(run, k', b').logs[i] == At(run, k', b').logs[..i + 1][i];
  }

  // ---- A server's node beside its Raft state

  ghost predicate Mirrors(n: P.Node, s: Server, dec: Decoder) {
    WfLog(s.logs) && n.logs == Logged(s.logs, dec) && n.commitIndex == s.commitIndex
  }

  function Drop<T>(s: seq<T>, k: int): seq<T> {
    if 0 <= k <= |s| then s[k..] else []
  }

  /** What a step of the cluster is to the node of server `b`. */
  ghost predicate Echoes(run: seq<Cluster>, as_: seq<Action>, k: int, b: int, dec: Decoder, a: P.Action) {
    && InRun(run, k, b) && InRun(run, k + 1, b) && k < |as_|
    && if as_[k] == Crash(b) then a == P.Restart
       else
         var s, s' := At(run, k, b), At(run, k + 1, b);
         && WfLog(s'.logs) && s'.commitIndex >= 0
         && a == P.AdvanceCommit(Drop(Logged(s'.logs, dec), s.commitIndex + 1), s'.commitIndex)
  }

  ghost predicate Steps(run: seq<Cluster>, n: nat, as_: seq<Action>) {
    && Run(run, n, AsIntended) && |run| == |as_| + 1
    && forall k :: 0 <= k < |as_| ==> Enabled(run[k], as_[k]) && run[k + 1] == Apply(run[k], as_[k], AsIntended)
  }

  lemma ServerFacts(run: seq<Cluster>, n: nat, k: int, b: int)
    requires Run(run, n, AsIntended) && InRun(run, k, b)
    ensures var s := At(run, k, b); WfLog(s.logs) && 0 <= s.commitIndex < |s.logs| && s.disk.logs == s.logs
  {
    hide Run, Inv, LogOk;
    var hs := History(run, n);
    RelServer(run[k], hs[k], b);
    LogWf(hs[k], At(run, k, b).logs);
  }

  lemma StepAt(run: seq<Cluster>, n: nat, as_: seq<Action>, k: int)
    requires Steps(run, n, as_) && 0 <= k < |as_|
    ensures Run(run, n, AsIntended) && k + 1 < |run| && Enabled(run[k], as_[k])
    ensures run[k + 1] == Apply(run[k], as_[k], AsIntended)
  {
    hide Run, Enabled, Apply;
  }

  /** A step of the cluster that is not a crash of the server leaves what it had committed. */
  lemma CommittedStays(run: seq<Cluster>, n: nat, as_: seq<Action>, k: int, b: int)
    requires Steps(run, n, as_) && 0 <= k < |as_| && InRun(run, k, b) && InRun(run, k + 1, b) && as_[k] != Crash(b)
    ensures var s, s' := At(run, k, b), At(run, k + 1, b);
            && s.commitIndex <= s'.commitIndex && s.commitIndex + 1 <= |s'.logs| && s.commitIndex + 1 <= |s.logs|
            && 0 <= s.commitIndex && s.logs[..s.commitIndex + 1] == s'.logs[..s.commitIndex + 1]
  {
    hide Steps, Run, Apply, Enabled, WfLog;
    StepAt(run, n, as_, k);
    var s := At(run, k, b);
    ServerFacts(run, n, k, b);
    NextCommits(run, n, k, as_[k], b);
    StateMachineSafety(run, n, k, k + 1, b, b, s.commitIndex);
  }

  lemma NextCommits(run: seq<Cluster>, n: nat, k: int, a: Action, b: int)
    requires Run(run, n, AsIntended) && InRun(run, k, b) && InRun(run, k + 1, b) && a != Crash(b)
    requires Enabled(run[k], a) && run[k + 1] == Apply(run[k], a, AsIntended)
    ensures At(run, k + 1, b).commitIndex >= At(run, k, b).commitIndex
  {
    hide Run, Apply, Enabled, Inv, Rel, Extends;
    var hs := History(run, n);
    StepCommits(run[k], hs[k], a, run[k + 1], b);
  }

  lemma StepCommits(c: Cluster, h: Core, a: Action, c': Cluster, b: int)
    requires Inv(h) && Rel(c, h) && Enabled(c, a) && c' == Apply(c, a, AsIntended) && a != Crash(b)
             && 0 <= b < |c.servers|
    ensures b < |c'.servers| && c'.servers[b].commitIndex >= c.servers[b].commitIndex
  {
    hide Inv, Rel, Effect;
    if Actor(a) == b { CommitGrows(c, h, a); }
  }

  lemma EchoEnabled(run: seq<Cluster>, n: nat, as_: seq<Action>, k: int, b: int, dec: Decoder, nd: P.Node, a: P.Action)
    requires Steps(run, n, as_) && InRun(run, k, b) && 0 <= k < |as_| && Echoes(run, as_, k, b, dec, a)
    requires Mirrors(nd, At(run, k, b), dec)
    ensures P.Enabled(nd, a, AgreedBy(run, dec)) && P.InBounds(nd, a) && Mirrors(P.Apply(nd, a), At(run, k + 1, b), dec)
  {
    hide Steps, Run, Apply, Enabled, WfLog, AgreedEntry;
    var s, s' := At(run, k, b), At(run, k + 1, b);
    StepAt(run, n, as_, k);
    ServerFacts(run, n, k, b);
    ServerFacts(run, n, k + 1, b);
    if as_[k] == Crash(b) {
      assert s' == Restart(s, |run[k].servers|) by { CrashIs(run[k], b); }
      LogEnds(s.logs);
    } else {
      CommittedStays(run, n, as_, k, b);
      AgreedUpTo(run, n, k + 1, b, dec);
      AdvanceMirrors(run, s, s', dec, nd);
    }
  }

  lemma CrashIs(c: Cluster, b: int)
    requires Enabled(c, Crash(b))
    ensures Apply(c, Crash(b), AsIntended).servers[b] == Restart(c.servers[b], |c.servers|)
  {
  }

  lemma AdvanceMirrors(run: seq<Cluster>, s: Server, s': Server, dec: Decoder, nd: P.Node)
    requires Mirrors(nd, s, dec) && WfLog(s'.logs) && 0 <= s.commitIndex <= s'.commitIndex < |s'.logs|
    requires s.commitIndex < |s.logs| && s.logs[..s.commitIndex + 1] == s'.logs[..s.commitIndex + 1]
    requires P.Agrees(Logged(s'.logs, dec), AgreedBy(run, dec), s'.commitIndex)
    ensures var a := P.AdvanceCommit(Drop(Logged(s'.logs, dec), s.commitIndex + 1), s'.commitIndex);
            P.Enabled(nd, a, AgreedBy(run, dec)) && P.InBounds(nd, a) && Mirrors(P.Apply(nd, a), s', dec)
  {
    hide AgreedBy, WfLog, P.Agrees;
    Spliced(s.logs, s'.logs, s.commitIndex, dec);
  }

  lemma Spliced(logs: Log, logs': Log, c: int, dec: Decoder)
    requires WfLog(logs) && WfLog(logs') && 0 <= c < |logs| && c < |logs'| && logs[..c + 1] == logs'[..c + 1]
    ensures Logged(logs, dec)[..c + 1] + Drop(Logged(logs', dec), c + 1) == Logged(logs', dec)
  {
    forall k | 0 <= k <= c ensures Logged(logs, dec)[k] == Logged(logs', dec)[k] {
      assert logs[k] == logs[..c + 1][k] == logs'[..c + 1][k] == logs'[k];
    }
  }

  lemma AgreedUpTo(run: seq<Cluster>, n: nat, k: int, b: int, dec: Decoder)
    requires Run(run, n, AsIntended) && InRun(run, k, b)
    requires var s := At(run, k, b); WfLog(s.logs) && 0 <= s.commitIndex < |s.logs|
    ensures P.Agrees(Logged(At(run, k, b).logs, dec), AgreedBy(run, dec), At(run, k, b).commitIndex)
  {
    hide Run, AgreedEntry;
    var s := At(run, k, b);
    var r := Logged(s.logs, dec);
    forall i | 0 < i < |r| && r[i].index <= s.commitIndex ensures P.IsAgreed(r[i], AgreedBy(run, dec)) {
      assert CommittedIn(run, k, b, i);
      CommittedIsAgreed(run, n, k, b, i);
    }
  }

  // ---- The two together

  /** What the appliers do at their own pace. */
  predicate Local(a: P.Action) { a.StartBatch? || a.Deliver? || a.EndBatch? }

  ghost predicate CanDo(nd: P.Node, a: P.Action) {
    match a
    case StartBatch => nd.batch.NoBatch? && nd.lastApplied < nd.commitIndex
    case Deliver => nd.batch.Batch? && nd.batch.pending != []
    case EndBatch => nd.batch.Batch? && nd.batch.pending == []
    case _ => true
  }

  ghost predicate Follows(nd: P.Node, a: P.Action, nd': P.Node) {
    CanDo(nd, a) && (P.InBounds(nd, a) && (a.StartBatch? ==> nd.lastApplied <= nd.commitIndex) ==>
                     nd' == P.Apply(nd, a))
  }

  /**
   Node `ns[i]` of server `b` when the cluster is at `run[at[i]]`: each step is one of the cluster or
   one of the server's own.
   */
  ghost predicate Beside(run: seq<Cluster>, as_: seq<Action>, b: int, dec: Decoder,
                         ns: seq<P.Node>, acts: seq<P.Action>, at: seq<int>) {
    && |ns| == |at| == |acts| + 1 && P.IsInit(ns[0]) && at[0] == 0
    && forall i :: 0 <= i < |acts| ==>
         && Follows(ns[i], acts[i], ns[i + 1]) && InRun(run, at[i], b)
         && (|| (Local(acts[i]) && at[i + 1] == at[i])
             || (at[i + 1] == at[i] + 1 && 0 <= at[i] < |as_| && Echoes(run, as_, at[i], b, dec, acts[i])))
  }

  lemma InitMirrors(run: seq<Cluster>, n: nat, b: int, dec: Decoder, nd: P.Node)
    requires Run(run, n, AsIntended) && 0 <= b < n && P.IsInit(nd)
    ensures InRun(run, 0, b) && Mirrors(nd, At(run, 0, b), dec)
  {
  }

  /** So the node runs on agreed commands: what the apply path takes for granted is what Raft provides. */
  lemma {:induction false} BesideIsRun(run: seq<Cluster>, n: nat, as_: seq<Action>, b: int, dec: Decoder,
                                       ns: seq<P.Node>, acts: seq<P.Action>, at: seq<int>, i: nat)
    requires Steps(run, n, as_) && 0 <= b < n && Beside(run, as_, b, dec, ns, acts, at) && i < |ns|
    ensures P.Run(ns[..i + 1], acts[..i], AgreedBy(run, dec))
    ensures InRun(run, at[i], b) && Mirrors(ns[i], At(run, at[i], b), dec)
    decreases i
  {
    if i == 0 {
      InitMirrors(run, n, b, dec, ns[0]);
    } else {
      BesideIsRun(run, n, as_, b, dec, ns, acts, at, i - 1);
      hide Mirrors, Steps, P.IsInit;
      BesideStep(run, n, as_, b, dec, ns, acts, at, i - 1);
      forall j | 0 <= j < i ensures P.Next(ns[..i + 1][j], acts[..i][j], AgreedBy(run, dec), ns[..i + 1][j + 1]) {
        if j < i - 1 {
          assert P.Next(ns[..i][j], acts[..i - 1][j], AgreedBy(run, dec), ns[..i][j + 1]);
        }
      }
    }
  }

  lemma BesideStep(run: seq<Cluster>, n: nat, as_: seq<Action>, b: int, dec: Decoder,
                   ns: seq<P.Node>, acts: seq<P.Action>, at: seq<int>, i: nat)
    requires Steps(run, n, as_) && Beside(run, as_, b, dec, ns, acts, at) && i < |acts|
    requires InRun(run, at[i], b) && Mirrors(ns[i], At(run, at[i], b), dec)
             && P.Run(ns[..i + 1], acts[..i], AgreedBy(run, dec))
    ensures P.Next(ns[i], acts[i], AgreedBy(run, dec), ns[i + 1])
    ensures InRun(run, at[i + 1], b) && Mirrors(ns[i + 1], At(run, at[i + 1], b), dec)
  {
    var agreed := AgreedBy(run, dec);
    assert Follows(ns[i], acts[i], ns[i + 1]);
    P.AlwaysFold(ns[..i + 1], acts[..i], agreed, i);
    if Local(acts[i]) && at[i + 1] == at[i] {
      hide Steps, Mirrors, Logged, P.Fold;
      assert P.Enabled(ns[i], acts[i], agreed);
      P.SlicesInBounds(ns[i], acts[i], agreed, P.DoneAt(ns[..i + 1], acts[..i], i));
      LocalMirrors(ns[i], acts[i], ns[i + 1], At(run, at[i], b), dec);
    } else {
      hide Steps, Mirrors, P.Enabled, P.InBounds, P.Inv, P.Run;
      EchoEnabled(run, n, as_, at[i], b, dec, ns[i], acts[i]);
    }
  }

  lemma LocalMirrors(nd: P.Node, a: P.Action, nd': P.Node, s: Server, dec: Decoder)
    requires Local(a) && Follows(nd, a, nd') && P.InBounds(nd, a) && Mirrors(nd, s, dec)
    ensures Mirrors(nd', s, dec)
  {
  }

  /**
   Replicas of a service on one Raft cluster, whatever steps the cluster takes and however far each
   has applied, hold the results of prefixes of one sequence of commands.
   */
  lemma ReplicasAgree(run: seq<Cluster>, n: nat, as_: seq<Action>, dec: Decoder,
                      a: int, ns: seq<P.Node>, acts: seq<P.Action>, at: seq<int>, i: nat,
                      b: int, ns': seq<P.Node>, acts': seq<P.Action>, at': seq<int>, j: nat)
    returns (d: nat, d': nat)
    requires Steps(run, n, as_) && 0 <= a < n && 0 <= b < n && i < |ns| && j < |ns'|
    requires Beside(run, as_, a, dec, ns, acts, at) && Beside(run, as_, b, dec, ns', acts', at')
    ensures ns[i].state == P.Fold(AgreedBy(run, dec), d) && ns'[j].state == P.Fold(AgreedBy(run, dec), d')
    ensures d <= ns[i].commitIndex && d' <= ns'[j].commitIndex
  {
    hide Steps, Mirrors, P.Fold;
    BesideIsRun(run, n, as_, a, dec, ns, acts, at, i);
    BesideIsRun(run, n, as_, b, dec, ns', acts', at', j);
    P.AlwaysFold(ns[..i + 1], acts[..i], AgreedBy(run, dec), i);
    P.AlwaysFold(ns'[..j + 1], acts'[..j], AgreedBy(run, dec), j);
    d, d' := P.DoneAt(ns[..i + 1], acts[..i], i), P.DoneAt(ns'[..j + 1], acts'[..j], j);
  }
}
