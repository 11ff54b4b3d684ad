/**
 A cluster of Raft servers over a network that may lose, delay, reorder and
 repeat messages, with crashes and restarts from persisted state. Timers are
 steps that may happen at any time.
 */
module RaftCluster {
  import opened Sets
  import opened RaftTypes
  import opened RaftServer

  /** `net` holds every message ever sent: delivering one leaves it there, losing one is never delivering it. */
  datatype Cluster = Cluster(servers: seq<Server>, net: set<Message>)

  datatype Action =
    | ElectionTimer(i: int)
    | HeartbeatTimer(i: int)
    | Submit(i: int, command: Command)
    | Crash(i: int)
    | Deliver(m: Message)

  ghost function Init(n: nat): Cluster {
    Cluster(seq(n, _ => Fresh(n)), {})
  }

  /** Every slice and index expression of the handlers is within bounds. */
  ghost predicate InBounds(s: Server, n: nat) {
    && Indexed(s.logs)
    && |s.disk.logs| > 0
    && |s.nextIndex| == n
    && |s.matchIndex| == n
    && (s.role == Leader ==> CanSend(s, n))
  }

  /** The server a message is for. */
  function Receiver(m: Message): int {
    match m
    case VoteRequest(to, _) => to
    case VoteAnswer(_, ballot, _) => ballot.candidateId
    case AppendRequest(to, _) => to
    case AppendAnswer(_, append, _) => append.leaderId
    case SnapshotRequest(to, _, _) => to
    case SnapshotAnswer(_, leader, _, _) => leader
  }

  function Actor(a: Action): int {
    match a
    case Deliver(m) => Receiver(m)
    case ElectionTimer(i) => i
    case HeartbeatTimer(i) => i
    case Submit(i, _) => i
    case Crash(i) => i
  }

  ghost predicate Enabled(c: Cluster, a: Action) {
    var n := |c.servers|;
    && 0 <= Actor(a) < n
    && InBounds(c.servers[Actor(a)], n)
    && (var s := c.servers[Actor(a)];
        match a
        case Submit(_, _) => s.role == Leader
        case HeartbeatTimer(_) => s.role == Leader
        case Deliver(VoteAnswer(from, ballot, _)) =>
          a.m in c.net && ballot.term in s.elections
          && s.elections[ballot.term].args == ballot && from in s.elections[ballot.term].awaiting
        case Deliver(AppendAnswer(from, _, _)) => a.m in c.net && 0 <= from < n
        case Deliver(SnapshotAnswer(from, _, _, _)) => a.m in c.net && 0 <= from < n
        case Deliver(_) => a.m in c.net
        case _ => true)
  }

  /** What the acting server becomes, and what it sends. */
  ghost function Effect(s: Server, i: int, n: nat, a: Action, how: StepDown): (Server, set<Message>)
    requires InBounds(s, n)
    requires a.Submit? || a.HeartbeatTimer? ==> s.role == Leader
    requires a.Deliver? && a.m.VoteAnswer? ==> a.m.ballot.term in s.elections
    requires a.Deliver? && (a.m.AppendAnswer? || a.m.SnapshotAnswer?) ==> 0 <= a.m.from < n
  {
    match a
    case ElectionTimer(_) =>
      var s' := Timeout(s, i, n);
      (s', set p | p in Below(n) && p != i :: VoteRequest(p, Ballot(s', i)))
    case HeartbeatTimer(_) => (s, Broadcast(s, i, n, true))
    case Submit(_, command) =>
      var s' := Start(s, command);
      (s', Broadcast(s', i, n, false))
    case Crash(_) => (Restart(s, n), {})
    case Deliver(VoteRequest(_, ballot)) =>
      var (s', reply) := RequestVote(s, ballot);
      (s', {VoteAnswer(i, ballot, reply)})
    case Deliver(VoteAnswer(from, ballot, reply)) =>
      var (s', won) := VoteReply(s, n, from, ballot, reply, how);
      (s', if won then Broadcast(s', i, n, true) else {})
    case Deliver(AppendRequest(_, append)) =>
      var (s', reply) := AppendEntries(s, append);
      (s', {AppendAnswer(i, append, reply)})
    case Deliver(AppendAnswer(from, append, reply)) => (AppendReply(s, i, n, from, append, reply), {})
    case Deliver(SnapshotRequest(_, leader, snapshot)) =>
      var (s', reply) := InstallSnapshot(s, snapshot);
      (s', {SnapshotAnswer(i, leader, snapshot, reply)})
    case Deliver(SnapshotAnswer(from, _, snapshot, reply)) => (SnapshotReply(s, from, snapshot, reply), {})
  }

  ghost function Apply(c: Cluster, a: Action, how: StepDown): Cluster
    requires Enabled(c, a)
  {
    var i := Actor(a);
    var (s', sent) := Effect(c.servers[i], i, |c.servers|, a, how);
    Cluster(c.servers[i := s'], c.net + sent)
  }

  ghost predicate Next(c: Cluster, c': Cluster, how: StepDown) {
    exists a :: Enabled(c, a) && c' == Apply(c, a, how)
  }

  /** The states of an execution from a fresh cluster of `n` servers. */
  ghost predicate Run(run: seq<Cluster>, n: nat, how: StepDown) {
    && n > 0
    && |run| > 0
    && run[0] == Init(n)
    && forall k :: 0 <= k < |run| - 1 ==> Next(run[k], run[k + 1], how)
  }
}
