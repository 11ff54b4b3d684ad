/**
 When a shard that has moved can no longer be released at its old group: the
 source may answer a delete request with OK before it has got to deleting, and
 then nobody asks again (src/shardkv/common.go, DeleteShardsData and gcAction).
 */
module ShardStranded {
  import opened ShardGroup
  import opened ShardSystem
  import opened ShardInvariant
  import opened ShardProof
  import opened ShardSafety

  ghost function StatusAt(y: System, g: int, s: int): Status
    requires g in y.groups && 0 <= s < |y.groups[g].shards|
  {
    y.groups[g].shards[s].status
  }

  /** The group has finished with what configuration `n` brought it. */
  ghost predicate Past(y: System, p: int, n: nat, s: int) {
    && p in y.groups && 0 <= s < |y.groups[p].shards|
    && (y.groups[p].current.num > n
        || (y.groups[p].current.num == n && StatusAt(y, p, s) != PULLING && StatusAt(y, p, s) != GC))
  }

  /** A request to release the shard at its old group is still under way. */
  ghost predicate Pending(y: System, q: int, n: nat, s: int) {
    exists t <- y.deletes :: t.source == q && t.configNum == n && s in t.ids
  }

  /** The shard waits at its old group to be released, but the new one has finished and no request is under way. */
  ghost predicate Stranded(e: Env, y: System, q: int, s: int) {
    && q in y.groups && 0 <= s < |y.groups[q].shards| && StatusAt(y, q, s) == BEPULLING
    && var n := y.groups[q].current.num; Past(y, Holder(e, n, s), n, s) && !Pending(y, q, n, s)
  }

  ghost predicate NoneStranded(e: Env, y: System) {
    forall q, s :: !Stranded(e, y, q, s)
  }

  // ---- What a step may do to one shard at one group

  lemma {:induction false} InsertEffect(shards: seq<Shard>, data: map<int, map<string, string>>, order: seq<int>,
                                        s: int)
    requires Within(order, |shards|) && Given(order, data) && 0 <= s < |shards|
    ensures var r := InsertLoop(shards, data, order)[s];
            r.status == shards[s].status || (shards[s].status == PULLING && r.status == GC)
    decreases |order|
  {
    if order != [] && shards[order[0]].status == PULLING {
      var x := order[0];
      InsertEffect(shards[x := Shard(shards[x].kv + data[x], GC)], data, order[1..], s);
    }
  }

  lemma {:induction false} DeleteEffect(shards: seq<Shard>, ids: seq<int>, s: int)
    requires Within(ids, |shards|) && 0 <= s < |shards|
    ensures var r := DeleteLoop(shards, ids)[s];
            || r.status == shards[s].status
            || (s in ids && r.status == SERVING && (shards[s].status == GC || shards[s].status == BEPULLING))
    decreases |ids|
  {
    if ids != [] {
      var x := ids[0];
      if shards[x].status == GC {
        DeleteEffect(shards[x := shards[x].(status := SERVING)], ids[1..], s);
      } else if shards[x].status == BEPULLING {
        DeleteEffect(shards[x := NewShard()], ids[1..], s);
      }
    }
  }

  ghost predicate Same(y: System, y': System, g: int, s: int)
    requires g in y.groups && g in y'.groups && 0 <= s < |y.groups[g].shards| && s < |y'.groups[g].shards|
  {
    y'.groups[g].current.num == y.groups[g].current.num && StatusAt(y', g, s) == StatusAt(y, g, s)
  }

  /** The group takes the next configuration. */
  ghost predicate Advanced(e: Env, y: System, a: Action, y': System, g: int) {
    && a.CommitConfig? && a.gid == g && g in y.groups && g in y'.groups && y.groups[g].Sized(|y.groups[g].shards|)
    && AllServing(y.groups[g]) && |e.owner(y.groups[g].current.num + 1)| == |y.groups[g].shards|
    && y'.groups[g] == ApplyConfiguration(y.groups[g], ConfigAt(e, y.groups[g].current.num + 1))
  }

  ghost predicate Got(y: System, a: Action, y': System, g: int, s: int)
    requires g in y.groups && g in y'.groups && 0 <= s < |y.groups[g].shards| && s < |y'.groups[g].shards|
  {
    && a.CommitInsert? && y'.groups[g].current.num == y.groups[g].current.num
    && StatusAt(y, g, s) == PULLING && StatusAt(y', g, s) == GC
  }

  ghost predicate LetGo(y: System, a: Action, y': System, g: int, s: int)
    requires g in y.groups && g in y'.groups && 0 <= s < |y.groups[g].shards| && s < |y'.groups[g].shards|
  {
    && a.CommitDelete? && a.gid == g && a.task in y.deletes && (g == a.task.puller || g == a.task.source)
    && s in a.task.ids && a.task.configNum == y.groups[g].current.num == y'.groups[g].current.num
    && (StatusAt(y, g, s) == GC || StatusAt(y, g, s) == BEPULLING) && StatusAt(y', g, s) == SERVING
  }

  lemma OneOfFour(e: Env, y: System, a: Action, y': System, g: int, s: int)
    requires Inv(e, y) && Next(e, y, a, y') && g in e.gids && 0 <= s < e.nShards
    ensures g in y.groups && g in y'.groups && |y.groups[g].shards| == |y'.groups[g].shards| == e.nShards
    ensures Same(y, y', g, s) || Advanced(e, y, a, y', g) || Got(y, a, y', g, s) || LetGo(y, a, y', g, s)
  {
    hide Inv, Holder, EnvOk, WellFormed, ApplyConfiguration, ApplyInsert, ApplyDelete, ApplyOperation, AllServing;
    InvShape(e, y);
    ShapedKept(e, y, a);
    assert y'.groups[g].Sized(e.nShards) && y.groups[g].Sized(e.nShards);
    hide Shaped;
    match a
    case CommitConfig(h, config) => ConfigMoves(e, y, h, config);
    case CommitInsert(r, order) => InsertMoves(e, y, r, order, s);
    case CommitDelete(h, t) => DeleteMoves(e, y, h, t, s);
    case CommitOperation(h, c, m) => OperationMoves(e, y, h, e.request(c, m), s);
    case _ =>
  }

  lemma ConfigMoves(e: Env, y: System, g: int, config: Config)
    requires Inv(e, y) && (g, config) in y.proposals
    ensures g in e.gids && |config.shards| == e.nShards && g in y.groups && y.groups[g].Sized(e.nShards)
    ensures var n := y.groups[g].current.num;
            || ApplyConfiguration(y.groups[g], config) == y.groups[g]
            || (config == ConfigAt(e, n + 1) && |e.owner(n + 1)| == e.nShards && AllServing(y.groups[g]))
  {
    assert ProposalOk(e, y, g, config);
  }

  lemma OperationMoves(e: Env, y: System, g: int, args: CommandArgs, s: int)
    requires Inv(e, y) && g in e.gids && 0 <= s < e.nShards
    ensures g in y.groups && y.groups[g].Sized(e.nShards)
    ensures var g' := ApplyOperation(y.groups[g], args).0;
            g'.current == y.groups[g].current && g'.Sized(e.nShards)
              && g'.shards[s].status == y.groups[g].shards[s].status
  {
    hide Inv;
    InvShape(e, y);
  }

  lemma InsertMoves(e: Env, y: System, r: Reply, order: seq<int>, s: int)
    requires Inv(e, y) && Enabled(e, y, CommitInsert(r, order)) && 0 <= s < e.nShards
    ensures Within(order, e.nShards) && Given(order, r.data.shards)
    ensures var g, g' := y.groups[r.puller], ApplyInsert(y.groups[r.puller], r.data, order);
            && g'.current == g.current
            && (g'.shards[s].status == g.shards[s].status
                || (g.shards[s].status == PULLING && g'.shards[s].status == GC))
  {
    hide Inv;
    InvShape(e, y);
    ListedWithin(order, r.data.shards, e.nShards);
    InsertEffect(y.groups[r.puller].shards, r.data.shards, order, s);
  }

  lemma InvShape(e: Env, y: System)
    requires Inv(e, y)
    ensures EnvOk(e) && Shaped(e, y)
  {
  }

  lemma DeleteMoves(e: Env, y: System, g: int, t: Task, s: int)
    requires Inv(e, y) && Enabled(e, y, CommitDelete(g, t)) && 0 <= s < e.nShards
    ensures g in e.gids && Within(t.ids, e.nShards)
    ensures var g0, g1 := y.groups[g], ApplyDelete(y.groups[g], t.configNum, t.ids);
            && g1.current == g0.current
            && (|| g1.shards[s].status == g0.shards[s].status
                || (t.configNum == g0.current.num && s in t.ids && g1.shards[s].status == SERVING
                    && (g0.shards[s].status == GC || g0.shards[s].status == BEPULLING)))
  {
    hide Inv;
    InvShape(e, y);
    DeleteEffect(y.groups[g].shards, t.ids, s);
  }

  // ---- Stranded is for good

  lemma WaitingIs(e: Env, y: System, q: int, s: int)
    requires Inv(e, y) && q in e.gids && 0 <= s < e.nShards && StatusAt(y, q, s) == BEPULLING
    ensures var n := y.groups[q].current.num;
            n > 0 && Holder(e, n - 1, s) == q && Holder(e, n, s) != q && Holder(e, n, s) in e.gids
            && Moves(e, n, q, Holder(e, n, s), s)
  {
    hide SourceStopped, CleanedLate, FrontierCurrent, Untouched, SentOk, AllReturn;
    var n := y.groups[q].current.num;
    assert GroupOk(e, q, y.groups[q]);
    assert ShardOk(e, q, n, s, y.groups[q].shards[s]);
    hide GroupsOk;
    HolderStays(e, s, n - 1, n);
  }

  lemma TaskMoves(e: Env, y: System, t: Task, s: int)
    requires Inv(e, y) && t in y.deletes && s in t.ids
    ensures Moves(e, t.configNum, t.source, t.puller, s)
  {
    assert DeleteOk(e, y, t);
  }

  lemma SourceKeeps(e: Env, y: System, a: Action, y': System, q: int, s: int)
    requires Inv(e, y) && Next(e, y, a, y') && q in e.gids && 0 <= s < e.nShards && Stranded(e, y, q, s)
    ensures q in y'.groups && s < |y'.groups[q].shards| && Same(y, y', q, s)
  {
    hide Inv, Next, Past;
    OneOfFour(e, y, a, y', q, s);
    WaitingIs(e, y, q, s);
    if LetGo(y, a, y', q, s) { TaskMoves(e, y, a.task, s); }
  }

  lemma PastStays(e: Env, y: System, a: Action, y': System, p: int, n: nat, s: int)
    requires Inv(e, y) && Next(e, y, a, y') && p in e.gids && 0 <= s < e.nShards && Past(y, p, n, s)
    ensures Past(y', p, n, s)
  {
    hide Inv, Next;
    OneOfFour(e, y, a, y', p, s);
  }

  lemma NewlyAsked(e: Env, y: System, a: Action, y': System, t: Task)
    requires Next(e, y, a, y') && t in y'.deletes && t !in y.deletes
    ensures a == AskDelete(t) && Shaped(e, y) && Enabled(e, y, a)
  {
    hide WellFormed, Shaped, Enabled, ApplyConfiguration, ApplyInsert, ApplyDelete, ApplyOperation, Execute, Answer;
  }

  lemma NoneAsked(e: Env, y: System, a: Action, y': System, q: int, s: int)
    requires Inv(e, y) && Next(e, y, a, y') && q in e.gids && 0 <= s < e.nShards && Stranded(e, y, q, s)
    ensures !Pending(y', q, y.groups[q].current.num, s)
  {
    hide Next, Holder;
    var n := y.groups[q].current.num;
    if t :| t in y'.deletes && t.source == q && t.configNum == n && s in t.ids {
      assert t !in y.deletes;
      NewlyAsked(e, y, a, y', t);
      CollectsAll(e, y, t, GC);
    }
  }

  lemma StrandedStays(e: Env, y: System, a: Action, y': System, q: int, s: int)
    requires Inv(e, y) && Next(e, y, a, y') && Stranded(e, y, q, s)
    ensures Stranded(e, y', q, s) && y'.groups[q].current.num == y.groups[q].current.num
  {
    hide Inv, Next, Past, Pending, Holder;
    InvShape(e, y);
    assert q in e.gids && s < e.nShards by { assert y.groups[q].Sized(e.nShards); }
    var n := y.groups[q].current.num;
    SourceKeeps(e, y, a, y', q, s);
    WaitingIs(e, y, q, s);
    PastStays(e, y, a, y', Holder(e, n, s), n, s);
    NoneAsked(e, y, a, y', q, s);
  }

  // ---- Only the loss of a request strands a shard

  lemma OnlyLossStrands(e: Env, y: System, a: Action, y': System, q: int, s: int)
    requires Inv(e, y) && Next(e, y, a, y') && !a.LoseDeletes? && Stranded(e, y', q, s)
    ensures Stranded(e, y, q, s)
  {
    hide Inv, Next, Past, Pending, Holder;
    StepKeeps(e, y, a, y');
    InvShape(e, y');
    assert q in e.gids && s < e.nShards by { assert y'.groups[q].Sized(e.nShards); }
    PendingKept(e, y, a, y', q, y'.groups[q].current.num, s);
    WaitingIs(e, y', q, s);
    OneOfFour(e, y, a, y', q, s);
    var n := y'.groups[q].current.num;
    if Advanced(e, y, a, y', q) {
      NotBeforeSource(e, y, a, y', q, n, s);
    } else {
      PastBefore(e, y, a, y', q, Holder(e, n, s), n, s);
    }
  }

  lemma PendingKept(e: Env, y: System, a: Action, y': System, q: int, n: nat, s: int)
    requires Next(e, y, a, y') && !a.LoseDeletes?
    ensures Pending(y, q, n, s) ==> Pending(y', q, n, s)
  {
    assert forall t <- y.deletes :: t in y'.deletes;
  }

  /** No group is done with a shard at a configuration its old group has yet to take. */
  lemma NotBeforeSource(e: Env, y: System, a: Action, y': System, q: int, n: nat, s: int)
    requires Inv(e, y) && Next(e, y, a, y') && q in e.gids && Advanced(e, y, a, y', q) && n == y'.groups[q].current.num
    requires n > 0 && Moves(e, n, q, Holder(e, n, s), s) && Holder(e, n, s) in e.gids
    ensures !Past(y', Holder(e, n, s), n, s)
  {
    hide GroupsOk, CleanedLate, FrontierCurrent, Untouched, SentOk, AllReturn, Holder;
    var p := Holder(e, n, s);
    assert y'.groups[p] == y.groups[p];
    assert y.groups[q].current.num == n - 1;
    assert Handover(e, s, n - 1);
    assert !Reached(e, y, s, n - 1 + 1);
  }

  lemma PastBefore(e: Env, y: System, a: Action, y': System, q: int, p: int, n: nat, s: int)
    requires Inv(e, y) && Next(e, y, a, y') && p in e.gids && 0 <= s < e.nShards && Past(y', p, n, s)
    requires Moves(e, n, q, p, s) && !Pending(y, q, n, s)
    ensures Past(y, p, n, s)
  {
    hide Inv, Next, Moves, Holder;
    OneOfFour(e, y, a, y', p, s);
    if Advanced(e, y, a, y', p) {
      if y.groups[p].current.num == n - 1 { ArrivesPulling(e, y, p, q, n, s); }
    } else if LetGo(y, a, y', p, s) && y.groups[p].current.num == n {
      TaskMoves(e, y, a.task, s);
      SameSource(e, n, q, a.task.source, p, a.task.puller, s);
    }
  }

  lemma SameSource(e: Env, n: nat, q: int, q': int, p: int, p': int, s: int)
    requires Moves(e, n, q, p, s) && Moves(e, n, q', p', s)
    ensures q == q' && p == p'
  {
  }

  lemma ArrivesPulling(e: Env, y: System, p: int, q: int, n: nat, s: int)
    requires Inv(e, y) && p in e.gids && n > 0 && y.groups[p].current.num == n - 1 && AllServing(y.groups[p])
    requires Moves(e, n, q, p, s)
    ensures |e.owner(n)| == |y.groups[p].shards|
    ensures ApplyConfiguration(y.groups[p], ConfigAt(e, n)).shards[s].status == PULLING
  {
    hide SourceStopped, CleanedLate, FrontierCurrent, Untouched, SentOk, AllReturn;
    assert GroupOk(e, p, y.groups[p]);
    hide GroupsOk;
    SameStatus(e, p, n - 1, s);
  }
}
