/**
 The key/value store of one server against the sequential store: what the agreed
 commands add up to, what each is answered, and that everything committed can
 come to be applied (src/kvraft/server.go, src/raft/apply.go).
 */
module ApplyStore {
  import opened Linearizability
  import opened KvLocality
  import opened ShardGroup
  import opened ApplyPath
  import opened StoreModel
  import R = ApplyRaft
  import C = RaftCluster

  // ---- Which commands count

  ghost predicate IsWrite(agreed: nat -> Agreed, i: nat, c: int) {
    agreed(i).command.op != Get && agreed(i).command.clientId == c
  }

  /** A write that is not numbered above every earlier write of its client. */
  ghost predicate Repeated(agreed: nat -> Agreed, i: nat) {
    var command := agreed(i).command;
    command.op != Get
    && exists j: nat :: 1 <= j < i && IsWrite(agreed, j, command.clientId)
                        && agreed(j).command.commandId >= command.commandId
  }

  /** The table holds, for every client that has written, its highest number and nothing else. */
  ghost predicate Highest(agreed: nat -> Agreed, n: nat, c: int) {
    var ops := Fold(agreed, n).ops;
    && (forall j: nat :: 1 <= j <= n && IsWrite(agreed, j, c) ==>
                           c in ops && agreed(j).command.commandId <= ops[c].maxApplied)
    && (c in ops ==> exists j: nat :: 1 <= j <= n && IsWrite(agreed, j, c)
                                      && agreed(j).command.commandId == ops[c].maxApplied)
  }

  lemma {:induction false} AlwaysHighest(agreed: nat -> Agreed, n: nat, c: int)
    ensures Highest(agreed, n, c)
  {
    if n > 0 {
      AlwaysHighest(agreed, n - 1, c);
      var ops, ops' := Fold(agreed, n - 1).ops, Fold(agreed, n).ops;
      if c in ops' && !(c in ops && ops'[c] == ops[c]) { assert IsWrite(agreed, n, c); }
      if c in ops {
        var j: nat :| 1 <= j <= n - 1 && IsWrite(agreed, j, c) && agreed(j).command.commandId == ops[c].maxApplied;
        assert 1 <= j <= n;
      }
    }
  }

  /** The test against the table recognises exactly these. */
  lemma RecognisedExactly(agreed: nat -> Agreed, i: nat)
    requires i > 0
    ensures var command := agreed(i).command;
            Repeated(agreed, i) <==>
            command.op != Get && IsDuplicate(Fold(agreed, i - 1).ops, command.clientId, command.commandId)
  {
    AlwaysHighest(agreed, i - 1, agreed(i).command.clientId);
  }

  // ---- What they add up to

  /** The commands up to number `n` that are not repeated, with the answers the server has for them. */
  ghost function Effective(agreed: nat -> Agreed, n: nat): seq<Served> {
    if n == 0 then []
    else
      var before := Effective(agreed, n - 1);
      if Repeated(agreed, n) then before
      else before + [Served(n, agreed(n).command, AnswerTo(Fold(agreed, n - 1), agreed(n).command))]
  }

  lemma {:induction false} EffectiveInTurn(agreed: nat -> Agreed, n: nat)
    ensures InTurn(Effective(agreed, n)) && forall x <- Effective(agreed, n) :: x.at <= n
  {
    hide Repeated, AnswerTo;
    if n > 0 { EffectiveInTurn(agreed, n - 1); }
  }

  lemma {:induction false} EffectiveGrows(agreed: nat -> Agreed, m: nat, n: nat)
    requires m <= n
    ensures Effective(agreed, m) <= Effective(agreed, n)
  {
    hide Repeated, AnswerTo;
    if m < n { EffectiveGrows(agreed, m, n - 1); }
  }

  /** A repeated write changes nothing; any other command is carried out and answered as the store stands. */
  lemma FoldStep(agreed: nat -> Agreed, n: nat)
    requires n > 0
    ensures var st, st', command := Fold(agreed, n - 1), Fold(agreed, n), agreed(n).command;
            if Repeated(agreed, n) then st' == st && AnswerTo(st, command) == CommandReply(OK, "")
            else st'.store == Execute(st.store, command) && AnswerTo(st, command) == ReplyTo(st.store, command)
  {
    RecognisedExactly(agreed, n);
    if Repeated(agreed, n) { FoldReplies(agreed, n - 1, agreed(n).command.clientId); }
  }

  /**
   The store after the first `n` agreed commands is the sequential store after those of them that
   are not repeated writes, in order, and the sequential store accepts what each was answered.
   */
  lemma {:induction false} FoldReplays(agreed: nat -> Agreed, n: nat, all: seq<Served>)
    requires Effective(agreed, n) <= all
    ensures Replays(all, |Effective(agreed, n)|, Fold(agreed, n).store)
  {
    hide Repeated, Replays, AnswerTo, Execute, ReplyTo;
    if n == 0 {
      ReplaysNone(all);
    } else {
      EffectiveGrows(agreed, n - 1, n);
      FoldReplays(agreed, n - 1, all);
      FoldStep(agreed, n);
      if !Repeated(agreed, n) {
        var k := |Effective(agreed, n - 1)|;
        assert all[k] == Effective(agreed, n)[k];
        ReplaysNext(all, k, Fold(agreed, n - 1).store);
      }
    }
  }

  /** In every run, after restarts and snapshots too, the store of a server is the sequential one. */
  lemma StoreIsModel(ns: seq<Node>, acts: seq<Action>, agreed: nat -> Agreed, i: nat)
    requires Run(ns, acts, agreed) && i < |ns|
    ensures var done := DoneAt(ns, acts, i);
            Replays(Effective(agreed, done), |Effective(agreed, done)|, ns[i].state.store)
  {
    AlwaysFold(ns, acts, agreed, i);
    hide Run, Inv;
    FoldReplays(agreed, DoneAt(ns, acts, i), Effective(agreed, DoneAt(ns, acts, i)));
  }

  /** What a server answers a delivered command is what the sequential store answers at its place. */
  lemma AnswerIsModel(ns: seq<Node>, acts: seq<Action>, agreed: nat -> Agreed, i: nat)
    requires Run(ns, acts, agreed) && i < |acts| && acts[i].Deliver?
    ensures ns[i].batch.Batch? && ns[i].batch.pending != []
    ensures var e := ns[i].batch.pending[0];
            AnswerFor(ns[i], e).Some? && !Repeated(agreed, e.index) ==>
              && e.index > 0
              && var ops := Effective(agreed, e.index);
                 && |ops| > 0 && ops[|ops| - 1] == Served(e.index, agreed(e.index).command, AnswerFor(ns[i], e).value)
                 && Replays(ops, |ops|, Fold(agreed, e.index).store)
  {
    SameAnswer(ns, acts, agreed, i);
    var e := ns[i].batch.pending[0];
    hide Run, Repeated, AnswerFor;
    if AnswerFor(ns[i], e).Some? { FoldReplays(agreed, e.index, Effective(agreed, e.index)); }
  }

  /** So the store is linearizable, whenever its clients call and are answered around the agreed places. */
  lemma StoreLinearizable(agreed: nat -> Agreed, n: nat, call: seq<int>, ret: seq<int>)
    requires Between(Effective(agreed, n), call, ret)
    ensures var h := Timed(Effective(agreed, n), call, ret);
            h.Valid() && Linearizable(STORE_MODEL, h)
  {
    EffectiveInTurn(agreed, n);
    FoldReplays(agreed, n, Effective(agreed, n));
    ReplayedIsLinearizable(Effective(agreed, n), call, ret, Fold(agreed, n).store);
  }

  /**
   Every replica of a store on a Raft cluster, at any moment, is the sequential store on commands
   the cluster committed.
   */
  lemma ReplicaIsModel(run: seq<C.Cluster>, n: nat, as_: seq<C.Action>, dec: R.Decoder, b: int,
                       ns: seq<Node>, acts: seq<Action>, at: seq<int>, i: nat)
    returns (done: nat)
    requires R.Steps(run, n, as_) && 0 <= b < n && R.Beside(run, as_, b, dec, ns, acts, at) && i < |ns|
    ensures done <= ns[i].commitIndex
    ensures var ops := Effective(R.AgreedBy(run, dec), done); Replays(ops, |ops|, ns[i].state.store)
  {
    var agreed := R.AgreedBy(run, dec);
    hide R.Steps, R.Mirrors;
    R.BesideIsRun(run, n, as_, b, dec, ns, acts, at, i);
    AlwaysFold(ns[..i + 1], acts[..i], agreed, i);
    done := DoneAt(ns[..i + 1], acts[..i], i);
    hide Run, Fold, R.AgreedBy, Replays, Effective;
    FoldReplays(agreed, done, Effective(agreed, done));
  }

  /**
   A command is answered at once exactly if it is a write and the server has applied one of its
   client numbered as high.
   */
  lemma EarlyExactly(ns: seq<Node>, acts: seq<Action>, agreed: nat -> Agreed, i: nat, command: CommandArgs)
    requires Run(ns, acts, agreed) && i < |ns|
    ensures EarlyReply(ns[i].state, command).Some? <==>
            && command.op != Get
            && exists j: nat :: 1 <= j <= DoneAt(ns, acts, i) && IsWrite(agreed, j, command.clientId)
                                && agreed(j).command.commandId >= command.commandId
    ensures EarlyReply(ns[i].state, command).Some? ==> EarlyReply(ns[i].state, command).value == CommandReply(OK, "")
  {
    AlwaysFold(ns, acts, agreed, i);
    AlwaysHighest(agreed, DoneAt(ns, acts, i), command.clientId);
    if EarlyReply(ns[i].state, command).Some? { FoldReplies(agreed, DoneAt(ns, acts, i), command.clientId); }
    hide Run, Inv, Fold;
  }

  // ---- Snapshots

  /** A snapshot keeps every entry behind it and moves the head of the log to what has been applied. */
  lemma TakenExactly(n: Node)
    requires Indexed(n.logs) && (n.kvApplied > First(n) ==> n.kvApplied - First(n) < |n.logs|)
    ensures var n' := Snapshotted(n);
            && |n'.logs| > 0 && First(n') == (if n.kvApplied > First(n) then n.kvApplied else First(n))
            && (forall e :: e in n'.logs[1..] <==> e in n.logs[1..] && e.index > First(n'))
            && n'.state == n.state && n'.kvApplied == n.kvApplied && n'.commitIndex == n.commitIndex
  {
    var at := if n.kvApplied > First(n) then n.kvApplied - First(n) else 0;
    assert Snapshotted(n).logs[1..] == n.logs[at + 1..];
    forall e ensures e in n.logs[at + 1..] <==> e in n.logs[1..] && e.index > First(n) + at { Behind(n.logs, at, e); }
  }

  lemma Behind(logs: seq<LogEntry>, at: nat, e: LogEntry)
    requires Indexed(logs) && at < |logs|
    ensures e in logs[at + 1..] <==> e in logs[1..] && e.index > logs[0].index + at
  {
    if e in logs[at + 1..] {
      var k :| at + 1 <= k < |logs| && logs[k] == e;
      assert logs[1..][k - 1] == e;
    }
    if e in logs[1..] && e.index > logs[0].index + at {
      var k :| 1 <= k < |logs| && logs[k] == e;
      assert logs[at + 1..][k - at - 1] == e;
    }
  }

  /** What has been applied since the last restart survives the next one if a snapshot is taken before it. */
  lemma SnapshotSurvives(ns: seq<Node>, acts: seq<Action>, agreed: nat -> Agreed, i: nat)
    requires Run(ns, acts, agreed) && i < |ns|
    ensures InBounds(ns[i], TakeSnapshot) && |Snapshotted(ns[i]).logs| > 0
    ensures var n := Restarted(Snapshotted(ns[i]));
            n.state == ns[i].state && First(n) == DoneAt(ns, acts, i)
  {
    AlwaysFold(ns, acts, agreed, i);
    hide Run, Fold, Agrees;
  }

  /**
   A received snapshot that reaches beyond the commit index replaces the store; of the log what lies
   behind it is kept if the log reaches it. Any other is dropped.
   */
  lemma InstalledExactly(n: Node, m: Snapshot)
    requires Indexed(n.logs) && First(n) <= n.commitIndex
    ensures InBounds(n, InstallSnapshot(m))
    ensures var n' := Installed(n, m);
            if m.index > n.commitIndex then
              && n'.state == m.data == n'.saved && n'.commitIndex == n'.lastApplied == n'.kvApplied == m.index
              && |n'.logs| > 0 && n'.logs[0] == Blank(m.index, m.term)
              && n'.logs[1..] == (if m.index > LastIndex(n) then [] else n.logs[m.index - First(n) + 1..])
            else n' == n.(snapshots := n.snapshots - {m})
  {
  }

  // ---- Everything committed can come to be applied

  ghost predicate Leads(n: Node, n': Node, agreed: nat -> Agreed) {
    exists ns, acts :: Links(ns, acts, agreed, n, n')
  }

  /** Steps of the two appliers alone. */
  ghost predicate Links(ns: seq<Node>, acts: seq<Action>, agreed: nat -> Agreed, n: Node, n': Node) {
    && |ns| == |acts| + 1 && ns[0] == n && ns[|acts|] == n'
    && forall i :: 0 <= i < |acts| ==> (acts[i].StartBatch? || acts[i].Deliver? || acts[i].EndBatch?)
                                       && Next(ns[i], acts[i], agreed, ns[i + 1])
  }

  lemma LeadsItself(n: Node, agreed: nat -> Agreed)
    ensures Leads(n, n, agreed)
  {
    assert Links([n], [], agreed, n, n);
  }

  lemma OneMore(n: Node, n1: Node, a: Action, agreed: nat -> Agreed, done: nat) returns (n2: Node)
    requires Leads(n, n1, agreed) && Inv(n1, agreed, done) && Enabled(n1, a, agreed)
    requires a.StartBatch? || a.Deliver? || a.EndBatch?
    ensures InBounds(n1, a) && n2 == Apply(n1, a) && Leads(n, n2, agreed) && Inv(n2, agreed, NextDone(n1, a, done))
  {
    StepKeeps(n1, a, agreed, done);
    n2 := Apply(n1, a);
    hide Inv, Enabled, InBounds, Apply;
    var ns: seq<Node>, acts: seq<Action> :| Links(ns, acts, agreed, n, n1);
    var ns', acts' := ns + [n2], acts + [a];
    forall i | 0 <= i < |acts'|
      ensures (acts'[i].StartBatch? || acts'[i].Deliver? || acts'[i].EndBatch?)
      ensures Next(ns'[i], acts'[i], agreed, ns'[i + 1])
    {
      if i < |acts| { assert Next(ns[i], acts[i], agreed, ns[i + 1]); }
    }
    assert Links(ns', acts', agreed, n, n2);
  }

  /** A batch that has been started can be finished. */
  lemma {:induction false} FinishBatch(n: Node, n1: Node, agreed: nat -> Agreed, done: nat)
    returns (n2: Node, done': nat)
    requires Leads(n, n1, agreed) && Inv(n1, agreed, done) && n1.batch.Batch?
    ensures Leads(n, n2, agreed) && Inv(n2, agreed, done') && n2.batch.NoBatch?
    ensures n2.commitIndex == n1.commitIndex && done' >= n1.batch.upTo && done' >= done
    decreases |n1.batch.pending|
  {
    hide Indexed, Agrees, Fold, Leads;
    if n1.batch.pending == [] {
      n2 := OneMore(n, n1, EndBatch, agreed, done);
      done' := done;
    } else {
      var n' := OneMore(n, n1, Deliver, agreed, done);
      n2, done' := FinishBatch(n, n', agreed, NextDone(n1, Deliver, done));
    }
  }

  /** From any state of any run the appliers can bring the store up to the commit index. */
  lemma CanApplyAll(ns: seq<Node>, acts: seq<Action>, agreed: nat -> Agreed, i: nat) returns (n': Node)
    requires Run(ns, acts, agreed) && i < |ns|
    ensures Leads(ns[i], n', agreed) && n'.commitIndex == ns[i].commitIndex
    ensures n'.state == Fold(agreed, ns[i].commitIndex)
  {
    AlwaysFold(ns, acts, agreed, i);
    var n, done := ns[i], DoneAt(ns, acts, i);
    LeadsItself(n, agreed);
    hide Run, Indexed, Agrees, Fold, Leads;
    n' := n;
    if n.batch.Batch? { n', done := FinishBatch(n, n', agreed, done); }
    if done < n.commitIndex {
      n' := OneMore(n, n', StartBatch, agreed, done);
      n', done := FinishBatch(n, n', agreed, done);
    }
  }
}
