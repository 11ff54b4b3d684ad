/**
 From the committed log to the key/value store of one server: the applier of
 src/raft/apply.go, snapshots (src/raft/raft.go), and the applier of
 src/kvraft/server.go at the other end of the channel.
 */
module ApplyPath {
  import opened Options
  import opened ShardGroup

  /** The entry at the head of the log stands for everything up to its index and carries no command. */
  datatype LogEntry = Blank(index: nat, term: nat) | LogEntry(index: nat, term: nat, command: CommandArgs)

  /** What all servers agree on at one index. */
  datatype Agreed = Agreed(term: nat, command: CommandArgs)

  /** The store and the table of each client's last write. */
  datatype State = State(store: map<string, string>, ops: Operations)

  const EMPTY := State(map[], map[])

  /** What the kv applier does with a command it has not seen. */
  function ApplyCommand(st: State, command: CommandArgs): State {
    if command.op != Get && IsDuplicate(st.ops, command.clientId, command.commandId) then st
    else
      State(Execute(st.store, command),
            if command.op == Get then st.ops
            else st.ops[command.clientId := OperationInfo(command.commandId, ReplyTo(st.store, command))])
  }

  /** The reply to that command: for a write seen before, the reply it got then. */
  function AnswerTo(st: State, command: CommandArgs): CommandReply {
    if command.op != Get && IsDuplicate(st.ops, command.clientId, command.commandId)
      then st.ops[command.clientId].lastReply
    else ReplyTo(st.store, command)
  }

  /** The state after the first `n` commands all servers agree on; command numbers start at 1. */
  ghost function Fold(agreed: nat -> Agreed, n: nat): State {
    if n == 0 then EMPTY else ApplyCommand(Fold(agreed, n - 1), agreed(n).command)
  }

  datatype Snapshot = Snapshot(index: nat, term: nat, data: State)

  /** Entries on their way over the channel, and the commit index read when they were copied. */
  datatype Batch = NoBatch | Batch(pending: seq<LogEntry>, upTo: nat)

  datatype Node = Node(
    logs: seq<LogEntry>, commitIndex: nat, lastApplied: nat, batch: Batch,
    snapshots: set<Snapshot>,  // received from a leader, not yet looked at
    saved: State,              // the snapshot on disk; the log is on disk too
    state: State, kvApplied: nat)

  function First(n: Node): nat
    requires |n.logs| > 0
  {
    n.logs[0].index
  }

  function LastIndex(n: Node): nat
    requires |n.logs| > 0
  {
    n.logs[|n.logs| - 1].index
  }

  ghost predicate IsInit(n: Node) {
    n == Node([Blank(0, 0)], 0, 0, NoBatch, {}, EMPTY, EMPTY, 0)
  }

  // ---- Steps

  datatype Action =
    | AdvanceCommit(tail: seq<LogEntry>, commitIndex: nat)
    | StartBatch
    | Deliver
    | EndBatch
    | TakeSnapshot
    | ReceiveSnapshot(snapshot: Snapshot)
    | InstallSnapshot(snapshot: Snapshot)
    | Restart

  /** Positions in the log are indexes counted from its first. */
  ghost predicate Indexed(logs: seq<LogEntry>) {
    |logs| > 0 && forall k :: 0 <= k < |logs| ==> logs[k].index == logs[0].index + k
  }

  ghost predicate IsAgreed(e: LogEntry, agreed: nat -> Agreed) {
    e == LogEntry(e.index, agreed(e.index).term, agreed(e.index).command)
  }

  /** The head carries the term of the entry it stands for, as the leader's consistency test needs it. */
  ghost predicate HeadOk(e: LogEntry, agreed: nat -> Agreed) {
    e.Blank? && (e.index > 0 ==> e.term == agreed(e.index).term)
  }

  ghost predicate Agrees(logs: seq<LogEntry>, agreed: nat -> Agreed, upTo: nat) {
    forall k :: 0 < k < |logs| && logs[k].index <= upTo ==> IsAgreed(logs[k], agreed)
  }

  ghost predicate SnapshotOk(m: Snapshot, agreed: nat -> Agreed) {
    m.data == Fold(agreed, m.index) && HeadOk(Blank(m.index, m.term), agreed)
  }

  /**
   What Raft guarantees of the log: entries are only replaced above the commit index, and what gets
   committed is agreed.
   */
  ghost predicate Enabled(n: Node, a: Action, agreed: nat -> Agreed) {
    |n.logs| > 0 &&
    match a
    case AdvanceCommit(tail, c) =>
      && First(n) <= n.commitIndex < First(n) + |n.logs|
      && var logs' := n.logs[..n.commitIndex - First(n) + 1] + tail;
         n.commitIndex <= c < First(n) + |logs'| && Indexed(logs') && Agrees(logs', agreed, c)
    case StartBatch => n.batch.NoBatch? && n.lastApplied < n.commitIndex
    case Deliver => n.batch.Batch? && n.batch.pending != []
    case EndBatch => n.batch.Batch? && n.batch.pending == []
    case TakeSnapshot => true
    // the leader's snapshot is a prefix of the agreed commands
    case ReceiveSnapshot(m) => m.index > n.commitIndex && SnapshotOk(m, agreed)
    case InstallSnapshot(m) => m in n.snapshots
    case Restart => true
  }

  /** The bounds of every slice a step takes. */
  ghost predicate InBounds(n: Node, a: Action) {
    |n.logs| > 0 &&
    match a
    case StartBatch => First(n) <= n.lastApplied && n.commitIndex - First(n) + 1 <= |n.logs|
    case TakeSnapshot => n.kvApplied > First(n) ==> n.kvApplied - First(n) < |n.logs|
    case InstallSnapshot(m) => m.index > n.commitIndex && m.index <= LastIndex(n) ==>
                               First(n) <= m.index && m.index - First(n) < |n.logs|
    case AdvanceCommit(_, _) => First(n) <= n.commitIndex && n.commitIndex - First(n) < |n.logs|
    case _ => true
  }

  /** The copy of committed entries the raft applier sends. */
  function Slice(n: Node): seq<LogEntry>
    requires |n.logs| > 0 && First(n) <= n.lastApplied <= n.commitIndex && n.commitIndex - First(n) + 1 <= |n.logs|
  {
    n.logs[n.lastApplied - First(n) + 1..n.commitIndex - First(n) + 1]
  }

  /** The log from `index` on, with a blank head of the given term. */
  function Compact(logs: seq<LogEntry>, index: nat, term: nat): seq<LogEntry>
    requires |logs| > 0 && logs[0].index <= index && index - logs[0].index < |logs|
  {
    [Blank(index, term)] + logs[index - logs[0].index + 1..]
  }

  /** One message at the kv applier. */
  function Receive(n: Node, e: LogEntry): Node {
    if e.index <= n.kvApplied || e.Blank? then n
    else n.(kvApplied := e.index, state := ApplyCommand(n.state, e.command))
  }

  function Snapshotted(n: Node): Node
    requires |n.logs| > 0 && (n.kvApplied > First(n) ==> n.kvApplied - First(n) < |n.logs|)
  {
    if n.kvApplied <= First(n) then n
    else n.(logs := Compact(n.logs, n.kvApplied, n.logs[n.kvApplied - First(n)].term), saved := n.state)
  }

  /** CondInstallSnapshot, and what the kv applier does when it says yes. */
  function Installed(n: Node, m: Snapshot): Node
    requires |n.logs| > 0 && (m.index > n.commitIndex && m.index <= LastIndex(n) ==>
                              First(n) <= m.index && m.index - First(n) < |n.logs|)
  {
    var n := n.(snapshots := n.snapshots - {m});
    if m.index <= n.commitIndex then n
    else
      n.(logs := if m.index > LastIndex(n) then [Blank(m.index, m.term)] else Compact(n.logs, m.index, m.term),
         lastApplied := m.index, commitIndex := m.index, saved := m.data, state := m.data, kvApplied := m.index)
  }

  /** Everything but the disk is lost; the kv server does not know how far its snapshot goes. */
  function Restarted(n: Node): Node
    requires |n.logs| > 0
  {
    Node(n.logs, First(n), First(n), NoBatch, {}, n.saved, n.saved, 0)
  }

  ghost function Apply(n: Node, a: Action): Node
    requires InBounds(n, a)
    requires a.StartBatch? ==> n.lastApplied <= n.commitIndex
    requires a.Deliver? ==> n.batch.Batch? && n.batch.pending != []
    requires a.EndBatch? ==> n.batch.Batch?
  {
    match a
    case AdvanceCommit(tail, c) => n.(logs := n.logs[..n.commitIndex - First(n) + 1] + tail, commitIndex := c)
    case StartBatch => n.(batch := Batch(Slice(n), n.commitIndex))
    case Deliver => Receive(n, n.batch.pending[0]).(batch := Batch(n.batch.pending[1..], n.batch.upTo))
    case EndBatch => n.(batch := NoBatch, lastApplied := if n.lastApplied > n.batch.upTo
                        then n.lastApplied else n.batch.upTo)
    case TakeSnapshot => Snapshotted(n)
    case ReceiveSnapshot(m) => n.(snapshots := n.snapshots + {m})
    case InstallSnapshot(m) => Installed(n, m)
    case Restart => Restarted(n)
  }

  // ---- Invariant

  /** The message at the front is the one after the last applied, or a snapshot has overtaken them all. */
  ghost predicate BatchOk(n: Node, agreed: nat -> Agreed, done: nat) {
    match n.batch
    case NoBatch => n.lastApplied == done
    case Batch(pending, upTo) =>
      && upTo <= n.commitIndex && n.lastApplied <= done && |pending| <= upTo
      && (forall k :: 0 <= k < |pending| ==>
                      pending[k].index == upTo - |pending| + 1 + k && IsAgreed(pending[k], agreed))
      && (done == upTo - |pending| || (done > upTo && n.lastApplied == done && n.kvApplied == done))
  }

  /** The store is exactly the first `done` agreed commands. */
  ghost predicate Inv(n: Node, agreed: nat -> Agreed, done: nat) {
    && Indexed(n.logs) && Agrees(n.logs, agreed, n.commitIndex) && HeadOk(n.logs[0], agreed)
    && First(n) <= done <= n.commitIndex < First(n) + |n.logs|
    && n.state == Fold(agreed, done)
    && (n.kvApplied == done || (n.kvApplied == 0 && done == First(n)))
    && n.saved == Fold(agreed, First(n))
    && BatchOk(n, agreed, done)
    && (forall m <- n.snapshots :: SnapshotOk(m, agreed))
  }

  /** How far the store is after a step. */
  ghost function NextDone(n: Node, a: Action, done: nat): nat
    requires |n.logs| > 0
  {
    match a
    case Deliver => if n.batch.Batch? && n.batch.pending != []
                    && n.batch.pending[0].index > n.kvApplied then n.batch.pending[0].index else done
    case InstallSnapshot(m) => if m.index <= n.commitIndex then done else m.index
    case Restart => First(n)
    case _ => done
  }

  /** Whatever step comes next, its slices are in bounds. */
  lemma SlicesInBounds(n: Node, a: Action, agreed: nat -> Agreed, done: nat)
    requires Inv(n, agreed, done) && Enabled(n, a, agreed)
    ensures InBounds(n, a)
  {
  }

  lemma CompactIndexed(logs: seq<LogEntry>, index: nat, term: nat)
    requires Indexed(logs) && logs[0].index <= index && index - logs[0].index < |logs|
    ensures var r := Compact(logs, index, term); Indexed(r) && r[0] == Blank(index, term)
                                                 && |r| == |logs| - (index - logs[0].index)
    ensures forall k :: 0 < k < |Compact(logs, index, term)| ==>
                        Compact(logs, index, term)[k] == logs[k + index - logs[0].index]
  {
  }

  lemma StartKeeps(n: Node, agreed: nat -> Agreed, done: nat)
    requires Inv(n, agreed, done) && Enabled(n, StartBatch, agreed) && InBounds(n, StartBatch)
    ensures Inv(Apply(n, StartBatch), agreed, done)
  {
    var n' := Apply(n, StartBatch);
    var pending := n'.batch.pending;
    forall k | 0 <= k < |pending|
      ensures pending[k].index == n.commitIndex - |pending| + 1 + k && IsAgreed(pending[k], agreed)
    {
      assert pending[k] == n.logs[n.lastApplied - First(n) + 1 + k];
    }
  }

  lemma DeliverKeeps(n: Node, agreed: nat -> Agreed, done: nat)
    requires Inv(n, agreed, done) && Enabled(n, Deliver, agreed)
    ensures Inv(Apply(n, Deliver), agreed, NextDone(n, Deliver, done))
  {
    hide Indexed, Agrees;
    var pending := n.batch.pending;
    var e := pending[0];
    assert IsAgreed(e, agreed);
    forall k | 0 <= k < |pending| - 1 ensures pending[1..][k] == pending[k + 1] {}
    if e.index > n.kvApplied {
      assert e.index == done + 1;
      assert Fold(agreed, done + 1) == ApplyCommand(Fold(agreed, done), agreed(done + 1).command);
    }
  }

  lemma TakeKeeps(n: Node, agreed: nat -> Agreed, done: nat)
    requires Inv(n, agreed, done) && InBounds(n, TakeSnapshot)
    ensures Inv(Apply(n, TakeSnapshot), agreed, done)
  {
    hide Fold;
    if n.kvApplied > First(n) {
      CompactIndexed(n.logs, n.kvApplied, n.logs[n.kvApplied - First(n)].term);
      assert IsAgreed(n.logs[n.kvApplied - First(n)], agreed);
    }
  }

  /** Only the blank head of a log kept behind a snapshot is at or below the snapshot. */
  lemma InstallKeeps(n: Node, m: Snapshot, agreed: nat -> Agreed, done: nat)
    requires Inv(n, agreed, done) && Enabled(n, InstallSnapshot(m), agreed) && InBounds(n, InstallSnapshot(m))
    ensures Inv(Apply(n, InstallSnapshot(m)), agreed, NextDone(n, InstallSnapshot(m), done))
  {
    hide Fold;
    if m.index > n.commitIndex && m.index <= LastIndex(n) {
      CompactIndexed(n.logs, m.index, m.term);
    }
  }

  lemma StepKeeps(n: Node, a: Action, agreed: nat -> Agreed, done: nat)
    requires Inv(n, agreed, done) && Enabled(n, a, agreed)
    ensures InBounds(n, a) && Inv(Apply(n, a), agreed, NextDone(n, a, done))
  {
    SlicesInBounds(n, a, agreed, done);
    match a
    case AdvanceCommit(tail, c) => AdvanceKeeps(n, tail, c, agreed, done);
    case StartBatch => StartKeeps(n, agreed, done);
    case Deliver => DeliverKeeps(n, agreed, done);
    case EndBatch =>
    case TakeSnapshot => TakeKeeps(n, agreed, done);
    case ReceiveSnapshot(m) =>
    case InstallSnapshot(m) => InstallKeeps(n, m, agreed, done);
    case Restart => RestartKeeps(n, agreed, done);
  }

  lemma AdvanceKeeps(n: Node, tail: seq<LogEntry>, c: nat, agreed: nat -> Agreed, done: nat)
    requires Inv(n, agreed, done) && Enabled(n, AdvanceCommit(tail, c), agreed) && InBounds(n, AdvanceCommit(tail, c))
    ensures Inv(Apply(n, AdvanceCommit(tail, c)), agreed, done)
  {
    hide Fold;
  }

  lemma RestartKeeps(n: Node, agreed: nat -> Agreed, done: nat)
    requires Inv(n, agreed, done)
    ensures Inv(Apply(n, Restart), agreed, First(n))
  {
    hide Fold;
  }

  // ---- Runs

  ghost predicate Run(ns: seq<Node>, acts: seq<Action>, agreed: nat -> Agreed) {
    && |ns| == |acts| + 1
    && IsInit(ns[0])
    && forall i :: 0 <= i < |acts| ==> Next(ns[i], acts[i], agreed, ns[i + 1])
  }

  ghost predicate Next(n: Node, a: Action, agreed: nat -> Agreed, n': Node) {
    Enabled(n, a, agreed) && (InBounds(n, a) ==> n' == Apply(n, a))
  }

  /** How many of the agreed commands the store holds at each point of a run. */
  ghost function DoneAt(ns: seq<Node>, acts: seq<Action>, i: nat): nat
    requires i < |ns| && |ns| == |acts| + 1
  {
    if i == 0 || |ns[i - 1].logs| == 0 then 0 else NextDone(ns[i - 1], acts[i - 1], DoneAt(ns, acts, i - 1))
  }

  /** In every run the store and the table are the fold of one gapless prefix of the agreed commands. */
  lemma {:induction false} AlwaysFold(ns: seq<Node>, acts: seq<Action>, agreed: nat -> Agreed, i: nat)
    requires Run(ns, acts, agreed) && i < |ns|
    ensures Inv(ns[i], agreed, DoneAt(ns, acts, i)) && ns[i].state == Fold(agreed, DoneAt(ns, acts, i))
  {
    hide Enabled, Apply;
    if i > 0 {
      AlwaysFold(ns, acts, agreed, i - 1);
      assert Next(ns[i - 1], acts[i - 1], agreed, ns[i - 1 + 1]);
      StepKeeps(ns[i - 1], acts[i - 1], agreed, DoneAt(ns, acts, i - 1));
      hide Fold;
    }
  }

  /** No slice is ever out of bounds. */
  lemma AlwaysInBounds(ns: seq<Node>, acts: seq<Action>, agreed: nat -> Agreed, i: nat)
    requires Run(ns, acts, agreed) && i < |acts|
    ensures InBounds(ns[i], acts[i])
  {
    AlwaysFold(ns, acts, agreed, i);
    assert Next(ns[i], acts[i], agreed, ns[i + 1]);
    SlicesInBounds(ns[i], acts[i], agreed, DoneAt(ns, acts, i));
  }

  /**
   A delivered command is either the next one or leaves the store alone: none is applied twice and
   none is skipped.
   */
  lemma DeliveredOnce(ns: seq<Node>, acts: seq<Action>, agreed: nat -> Agreed, i: nat)
    requires Run(ns, acts, agreed) && i < |acts| && acts[i].Deliver?
    ensures var done := DoneAt(ns, acts, i);
            || (DoneAt(ns, acts, i + 1) == done && ns[i + 1].state == ns[i].state)
            || (DoneAt(ns, acts, i + 1) == done + 1
                && ns[i + 1].state == ApplyCommand(ns[i].state, agreed(done + 1).command))
  {
    AlwaysFold(ns, acts, agreed, i);
    AlwaysFold(ns, acts, agreed, i + 1);
    assert Next(ns[i], acts[i], agreed, ns[i + 1]);
    var n, done := ns[i], DoneAt(ns, acts, i);
    hide Indexed, Agrees, Fold;
    assert n.batch.pending[0].index > n.kvApplied ==> n.batch.pending[0].index == done + 1;
    FoldNext(agreed, done);
  }

  lemma FoldNext(agreed: nat -> Agreed, n: nat)
    ensures Fold(agreed, n + 1) == ApplyCommand(Fold(agreed, n), agreed(n + 1).command)
  {
  }

  /** The reply the kv applier has for a delivered entry; none for one that is outdated. */
  function AnswerFor(n: Node, e: LogEntry): Option<CommandReply> {
    if e.index <= n.kvApplied || e.Blank? then None else Some(AnswerTo(n.state, e.command))
  }

  /** So every server has the same reply for the same command: the one the agreed commands before it give. */
  lemma SameAnswer(ns: seq<Node>, acts: seq<Action>, agreed: nat -> Agreed, i: nat)
    requires Run(ns, acts, agreed) && i < |acts| && acts[i].Deliver?
    ensures ns[i].batch.Batch? && ns[i].batch.pending != []
    ensures var e := ns[i].batch.pending[0];
            AnswerFor(ns[i], e).Some? ==> e.index > 0
                                          && AnswerFor(ns[i], e).value ==
                                             AnswerTo(Fold(agreed, e.index - 1), agreed(e.index).command)
  {
    AlwaysFold(ns, acts, agreed, i);
    assert Next(ns[i], acts[i], agreed, ns[i + 1]);
    hide Indexed, Agrees, Fold;
    assert IsAgreed(ns[i].batch.pending[0], agreed);
  }

  // ---- Retries

  lemma {:induction false} WriteRemembered(agreed: nat -> Agreed, i: nat, n: nat)
    requires 1 <= i <= n && agreed(i).command.op != Get
    ensures var c := agreed(i).command; IsDuplicate(Fold(agreed, n).ops, c.clientId, c.commandId)
  {
    if i < n { WriteRemembered(agreed, i, n - 1); }
  }

  /**
   A write that comes up again in the agreed commands, or one the client gave up before a later
   one, changes nothing.
   */
  lemma RetryIgnored(agreed: nat -> Agreed, i: nat, j: nat)
    requires 1 <= i < j
    requires var c, d := agreed(i).command, agreed(j).command;
             c.op != Get && d.op != Get && c.clientId == d.clientId && d.commandId <= c.commandId
    ensures Fold(agreed, j) == Fold(agreed, j - 1)
  {
    WriteRemembered(agreed, i, j - 1);
  }

  // ---- Early answers

  /** What Command answers a repeated write with before it turns to the log. */
  function EarlyReply(st: State, command: CommandArgs): Option<CommandReply> {
    if command.op != Get && IsDuplicate(st.ops, command.clientId, command.commandId)
    then Some(st.ops[command.clientId].lastReply) else None
  }

  lemma {:induction false} FoldReplies(agreed: nat -> Agreed, n: nat, c: int)
    requires c in Fold(agreed, n).ops
    ensures Fold(agreed, n).ops[c].lastReply == CommandReply(OK, "")
  {
    if c in Fold(agreed, n - 1).ops { FoldReplies(agreed, n - 1, c); }
  }

  /** It is the answer the command gets wherever it comes up in the agreed commands. */
  lemma EarlyAnswer(ns: seq<Node>, acts: seq<Action>, agreed: nat -> Agreed, i: nat, command: CommandArgs, j: nat)
    requires Run(ns, acts, agreed) && i < |ns| && EarlyReply(ns[i].state, command).Some?
    ensures EarlyReply(ns[i].state, command).value == AnswerTo(Fold(agreed, j), command)
  {
    AlwaysFold(ns, acts, agreed, i);
    var c := command.clientId;
    FoldReplies(agreed, DoneAt(ns, acts, i), c);
    if c in Fold(agreed, j).ops { FoldReplies(agreed, j, c); }
    hide Fold, Run, Inv;
  }
}
