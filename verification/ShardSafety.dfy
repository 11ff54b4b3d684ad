/** What holds over every run of the sharded store. */
module ShardSafety {
  import opened ShardGroup
  import opened ShardSystem
  import opened ShardInvariant
  import opened ShardSteps
  import opened ShardProof
  import opened ShardCommits
  import opened ShardOperations

  lemma InitInv(e: Env, y: System)
    requires EnvOk(e) && IsInit(e, y)
    ensures Inv(e, y)
  {
    forall g <- e.gids ensures GroupOk(e, g, y.groups[g]) {}
    forall s, k: nat ensures !Reached(e, y, s, k) {
      assert Holder(e, 0, s) == 0;
    }
    hide Reached, GroupOk;
    forall s ensures Restrict(e, y.store, s) == map[] {}
    assert SourceStopped(e, y);
    forall s, k: nat | 0 <= s < e.nShards && Handover(e, s, k) ensures !Cleaned(y.groups[Holder(e, k, s)], s, k + 1) {}
  }

  lemma StepKeeps(e: Env, y: System, a: Action, y': System)
    requires Inv(e, y) && Next(e, y, a, y')
    ensures Inv(e, y')
  {
    hide Inv, Apply, EnvOk, Shaped;
    match a
    case ProposeConfig(g) => ProposeKeeps(e, y, g);
    case CommitConfig(g, config) => ConfigKeeps(e, y, g, config);
    case AskPull(t) => AskPullKeeps(e, y, t);
    case AnswerPull(t) => AnswerPullKeeps(e, y, t);
    case CommitInsert(r, order) => InsertKeeps(e, y, r, order);
    case AskDelete(t) => AskDeleteKeeps(e, y, t);
    case CommitDelete(g, t) => DeleteKeeps(e, y, g, t);
    case LoseDeletes(ts) => LoseKeeps(e, y, ts);
    case CommitOperation(g, c, m) => OperationKeeps(e, y, g, c, m);
  }

  lemma {:induction false} Always(e: Env, ys: seq<System>, acts: seq<Action>, i: nat)
    requires EnvOk(e) && Run(e, ys, acts) && i < |ys|
    ensures Inv(e, ys[i])
    decreases i
  {
    hide Inv, Next, IsInit, EnvOk;
    if i == 0 {
      InitInv(e, ys[0]);
    } else {
      Always(e, ys, acts, i - 1);
      assert Next(e, ys[i - 1], acts[i - 1], ys[i - 1 + 1]);
      StepKeeps(e, ys[i - 1], acts[i - 1], ys[i]);
    }
  }

  /** At every moment at most one group serves a shard. */
  lemma AtMostOneServer(e: Env, ys: seq<System>, acts: seq<Action>, i: nat, g: int, h: int, s: int)
    requires EnvOk(e) && Run(e, ys, acts) && i < |ys| && Shaped(e, ys[i])
    requires g in e.gids && h in e.gids && 0 <= s < e.nShards && CanServer(ys[i].groups[g], s)
             && CanServer(ys[i].groups[h], s)
    ensures g == h
  {
    Always(e, ys, acts, i);
    hide Run, EnvOk, Inv, CanServer;
    OneServer(e, ys[i], g, h, s);
  }

  /** Who serves a shard has exactly what the operations so far left in it. */
  lemma ServerCurrent(e: Env, y: System, g: int, s: int)
    requires Inv(e, y) && g in e.gids && 0 <= s < e.nShards && CanServer(y.groups[g], s)
    ensures Current(e, y, y.groups[g].shards[s].kv, y.groups[g].ops, s)
  {
    InvParts(e, y);
    ServerAtFrontier(e, y, g, s);
    hide Inv, EnvOk, Shaped, GroupsOk, Tidy, SourceStopped, CleanedLate, Untouched, SentOk, Restrict, Covers, Holder,
         Reached;
  }

  // ---- The tables of operations

  /** Every entry is of a write that was carried out, and of its reply. */
  ghost predicate TableOk(ops: Operations, done: set<(int, int)>) {
    forall c <- ops :: ops[c].lastReply == CommandReply(OK, "") && (c, ops[c].maxApplied) in done
  }

  ghost predicate TablesOk(e: Env, y: System)
    requires Shaped(e, y)
  {
    && (forall g <- e.gids :: TableOk(y.groups[g].ops, y.done))
    && (forall r <- y.replies :: TableOk(r.data.ops, y.done))
  }

  lemma TablesKept(e: Env, y: System, a: Action)
    requires WellFormed(e) && Shaped(e, y) && Enabled(e, y, a) && TablesOk(e, y)
    ensures Shaped(e, Apply(e, y, a)) && TablesOk(e, Apply(e, y, a))
  {
    ShapedKept(e, y, a);
    hide WellFormed, Holder, Collects, Lists;
    if a.CommitInsert? {
      MergedTable(y.groups[a.reply.puller].ops, a.reply.data.ops, y.done);
      hide MergeOps, InsertLoop;
    } else if a.CommitOperation? {
      assert e.request(a.clientId, a.commandId).clientId == a.clientId by { RequestIs(e, a.clientId, a.commandId); }
      WrittenTable(y.groups[a.gid], e.request(a.clientId, a.commandId), y.done);
      hide ApplyOperation, Execute;
    }
  }

  lemma RequestIs(e: Env, c: int, m: int)
    requires WellFormed(e)
    ensures e.request(c, m).clientId == c && e.request(c, m).commandId == m
  {
  }

  lemma MergedTable(mine: Operations, theirs: Operations, done: set<(int, int)>)
    requires TableOk(mine, done) && TableOk(theirs, done)
    ensures TableOk(MergeOps(mine, theirs), done)
  {
  }

  lemma WrittenTable(g: Group, args: CommandArgs, done: set<(int, int)>)
    requires |g.shards| > 0 && g.Sized(|g.shards|) && TableOk(g.ops, done)
    ensures var done' := if TakesEffect(g, args) then done + {(args.clientId, args.commandId)} else done;
            TableOk(ApplyOperation(g, args).0.ops, done')
  {
  }

  lemma {:induction false} AlwaysTables(e: Env, ys: seq<System>, acts: seq<Action>, i: nat)
    requires WellFormed(e) && Run(e, ys, acts) && i < |ys|
    ensures Shaped(e, ys[i]) && TablesOk(e, ys[i])
    decreases i
  {
    if i > 0 {
      AlwaysTables(e, ys, acts, i - 1);
      assert Next(e, ys[i - 1], acts[i - 1], ys[i - 1 + 1]);
      hide WellFormed, Shaped, TablesOk, Apply;
      TablesKept(e, ys[i - 1], acts[i - 1]);
    }
  }

  /** An operation on a served shard, new or repeated, is answered as one map holding all keys would answer it. */
  lemma AnswersFromStore(e: Env, ys: seq<System>, acts: seq<Action>, i: nat, g: int, args: CommandArgs)
    requires EnvOk(e) && Run(e, ys, acts) && i < |ys| && Shaped(e, ys[i]) && g in e.gids
    requires CanServer(ys[i].groups[g], Key2Shard(args.key, e.nShards))
    ensures ApplyOperation(ys[i].groups[g], args).1 == ReplyTo(ys[i].store, args)
  {
    Always(e, ys, acts, i);
    AlwaysTables(e, ys, acts, i);
    var s := Key2Shard(args.key, e.nShards);
    ServerCurrent(e, ys[i], g, s);
    assert TableOk(ys[i].groups[g].ops, ys[i].done);
    hide Run, EnvOk, Inv, Covers, TablesOk;
    assert args.key in ys[i].store <==> args.key in Restrict(e, ys[i].store, s);
  }

  /**
   Every step either leaves the map alone, as all migration steps do, or applies
   one write to it that had never been applied before.
   */
  lemma StepOfStore(e: Env, ys: seq<System>, acts: seq<Action>, i: nat)
    requires EnvOk(e) && Run(e, ys, acts) && i < |acts|
    ensures var y, y', a := ys[i], ys[i + 1], acts[i];
            || (y'.store == y.store && y'.done == y.done)
            || (a.CommitOperation? && (a.clientId, a.commandId) !in y.done
                && y'.store == Execute(y.store, e.request(a.clientId, a.commandId))
                   && y'.done == y.done + {(a.clientId, a.commandId)})
  {
    Always(e, ys, acts, i);
    var y, a := ys[i], acts[i];
    assert Next(e, ys[i], acts[i], ys[i + 1]);
    if a.CommitOperation? && TakesEffect(y.groups[a.gid], e.request(a.clientId, a.commandId)) {
      var cm := (a.clientId, a.commandId);
      var s := Key2Shard(e.request(cm.0, cm.1).key, e.nShards);
      ServerCurrent(e, y, a.gid, s);
      hide Run, Inv, EnvOk, Restrict;
      assert OnShard(e, cm, s);
    } else {
      hide Run, Inv, EnvOk, Restrict, Covers;
    }
  }

  /** Step `i` carried out a write. */
  ghost predicate TookEffect(ys: seq<System>, acts: seq<Action>, i: nat) {
    i < |acts| && i + 1 < |ys| && acts[i].CommitOperation? && ys[i + 1].done != ys[i].done
  }

  /** A write, however often it is sent and to however many groups, takes effect at most once in a run. */
  lemma WriteOnce(e: Env, ys: seq<System>, acts: seq<Action>, i: nat, j: nat)
    requires EnvOk(e) && Run(e, ys, acts) && i < j < |acts| && TookEffect(ys, acts, i) && TookEffect(ys, acts, j)
    ensures (acts[i].clientId, acts[i].commandId) != (acts[j].clientId, acts[j].commandId)
  {
    StepOfStore(e, ys, acts, i);
    StepOfStore(e, ys, acts, j);
    hide Run, EnvOk;
    DoneGrows(e, ys, acts, i + 1, j);
  }

  lemma {:induction false} DoneGrows(e: Env, ys: seq<System>, acts: seq<Action>, i: nat, j: nat)
    requires EnvOk(e) && Run(e, ys, acts) && i <= j < |ys|
    ensures ys[i].done <= ys[j].done
    decreases j - i
  {
    if i < j {
      StepOfStore(e, ys, acts, i);
      DoneGrows(e, ys, acts, i + 1, j);
    }
  }

  /** A configuration that takes effect never overwrites an unfinished migration. */
  lemma ConfigsWait(e: Env, ys: seq<System>, acts: seq<Action>, i: nat)
    requires EnvOk(e) && Run(e, ys, acts) && i < |acts| && acts[i].CommitConfig?
    ensures var g, config := acts[i].gid, acts[i].config;
            && g in ys[i].groups
            && (config.num == ys[i].groups[g].current.num + 1 ==> AllServing(ys[i].groups[g]))
  {
    Always(e, ys, acts, i);
    assert Next(e, ys[i], acts[i], ys[i + 1]);
    hide Run, EnvOk, AllServing;
    if acts[i].config.num == ys[i].groups[acts[i].gid].current.num + 1 {
      ConfigFindsServing(e, ys[i], acts[i].gid, acts[i].config);
    }
  }

  /** Replicas that walk the pulled shards in different orders end in the same state, and no shard is skipped. */
  lemma InsertOrderFree(e: Env, ys: seq<System>, acts: seq<Action>, i: nat, r: Reply, order: seq<int>, order': seq<int>)
    requires EnvOk(e) && Run(e, ys, acts) && i < |ys| && Shaped(e, ys[i]) && r in ys[i].replies
    requires Asked(ys[i], r) && Lists(order, s => s in r.data.shards) && Lists(order', s => s in r.data.shards)
    ensures Apply(e, ys[i], CommitInsert(r, order)) == Apply(e, ys[i], CommitInsert(r, order'))
    ensures var g := ys[i].groups[r.puller];
            r.data.configNum == g.current.num ==>
              || (forall s <- r.data.shards :: g.shards[s].status != PULLING)
              || (forall s <- r.data.shards ::
                  Apply(e, ys[i], CommitInsert(r, order)).groups[r.puller].shards[s] == Shard(r.data.shards[s], GC))
  {
    Always(e, ys, acts, i);
    InvParts(e, ys[i]);
    assert ReplyOk(e, ys[i], r) && GroupOk(e, r.puller, ys[i].groups[r.puller]);
    AskedWhole(e, ys[i], r);
    hide Run, Inv, GroupsOk, Tidy, SourceStopped, CleanedLate, FrontierCurrent, Untouched, SentOk, EnvOk;
    InsertedSame(e, ys[i], r, order, order');
  }

  lemma InsertedSame(e: Env, y: System, r: Reply, order: seq<int>, order': seq<int>)
    requires EnvOk(e) && Shaped(e, y) && ReplyOk(e, y, r) && ReplyShaped(e, r) && r in y.replies
             && GroupOk(e, r.puller, y.groups[r.puller])
    requires Asked(y, r) && Whole(e, r) && Lists(order, s => s in r.data.shards)
             && Lists(order', s => s in r.data.shards)
    ensures Apply(e, y, CommitInsert(r, order)) == Apply(e, y, CommitInsert(r, order'))
    ensures var g := y.groups[r.puller];
            r.data.configNum == g.current.num ==>
              || (forall s <- r.data.shards :: g.shards[s].status != PULLING)
              || (forall s <- r.data.shards ::
                  Apply(e, y, CommitInsert(r, order)).groups[r.puller].shards[s] == Shard(r.data.shards[s], GC))
  {
    hide EnvOk, ReplyOk, Holder, MergeOps, InsertLoop, Lists, Moves, GroupOk;
    var g := y.groups[r.puller];
    ListedWithin(order, r.data.shards, e.nShards);
    ListedWithin(order', r.data.shards, e.nShards);
    OrderMoves(e, r, order);
    OrderMoves(e, r, order');
    if r.data.configNum == g.current.num {
      InsertOutcome(e, r.puller, g, r.source, r.data.shards, order);
      InsertOutcome(e, r.puller, g, r.source, r.data.shards, order');
      MovedTogether(e, r.puller, g, r.source, r.puller, order);
      SharedStatus(g, order, order');
      hide Within, Given;
      if g.shards[order[0]].status == PULLING {
        SameInserted(g, r.data.shards, InsertLoop(g.shards, r.data.shards, order),
                     InsertLoop(g.shards, r.data.shards, order'));
      }
    }
  }

  lemma SameInserted(g: Group, data: map<int, map<string, string>>, a: seq<Shard>, b: seq<Shard>)
    requires Inserted(g, data, a) && Inserted(g, data, b)
    ensures a == b
  {
  }

  lemma SharedStatus(g: Group, order: seq<int>, order': seq<int>)
    requires Within(order, |g.shards|) && order != [] && Share(g.shards, order, g.shards[order[0]].status)
    requires order' != [] && forall s :: s in order <==> s in order'
    ensures forall s <- order :: g.shards[s].status == g.shards[order[0]].status
    ensures 0 <= order'[0] < |g.shards| && g.shards[order'[0]].status == g.shards[order[0]].status
  {
    assert order'[0] in order';
  }

  // ---- Nothing is lost

  ghost function MaxNum(y: System, gids: set<int>): (n: nat)
    requires gids <= y.groups.Keys
    ensures forall g <- gids :: y.groups[g].current.num <= n
  {
    if exists g :: g in gids then
      var g :| g in gids;
      var n := MaxNum(y, gids - {g});
      if y.groups[g].current.num > n then y.groups[g].current.num else n
    else 0
  }

  lemma {:induction false} SomeFrontier(e: Env, y: System, s: int, k: nat, top: nat) returns (j: nat)
    requires Reached(e, y, s, k) && !Reached(e, y, s, top) && k <= top
    ensures Frontier(e, y, s, j)
    decreases top - k
  {
    if Reached(e, y, s, k + 1) {
      j := SomeFrontier(e, y, s, k + 1, top);
    } else {
      j := k;
    }
  }

  /**
   Once its first owner knows about it, a shard's current contents are always held by some group,
   in transit or not.
   */
  lemma NothingLost(e: Env, ys: seq<System>, acts: seq<Action>, i: nat, s: int, k: nat) returns (g: int)
    requires EnvOk(e) && Run(e, ys, acts) && i < |ys| && 0 <= s < e.nShards && Shaped(e, ys[i])
    requires Holder(e, k, s) == 0 && Holder(e, k + 1, s) != 0 && Holder(e, k + 1, s) in e.gids
             && ys[i].groups[Holder(e, k + 1, s)].current.num > k
    ensures g in e.gids && Current(e, ys[i], ys[i].groups[g].shards[s].kv, ys[i].groups[g].ops, s)
  {
    hide Run, Inv, Shaped, GroupsOk, Current, FrontierCurrent, EnvOk;
    Always(e, ys, acts, i);
    InvParts(e, ys[i]);
    FirstOwnerHas(e, ys[i], s, k);
    g := HeldBySome(e, ys[i], s, k + 1);
  }

  lemma HeldBySome(e: Env, y: System, s: int, k: nat) returns (g: int)
    requires EnvOk(e) && Shaped(e, y) && FrontierCurrent(e, y) && 0 <= s < e.nShards && Reached(e, y, s, k)
    ensures g in e.gids && Current(e, y, y.groups[g].shards[s].kv, y.groups[g].ops, s)
  {
    var top := MaxNum(y, e.gids) + 1;
    assert k <= top && !Reached(e, y, s, top);
    var j := SomeFrontier(e, y, s, k, top);
    hide MaxNum, Current;
    g := Holder(e, j, s);
  }

  lemma FirstOwnerHas(e: Env, y: System, s: int, k: nat)
    requires EnvOk(e) && Shaped(e, y) && GroupsOk(e, y) && 0 <= s < e.nShards
    requires Holder(e, k, s) == 0 && Holder(e, k + 1, s) in e.gids && y.groups[Holder(e, k + 1, s)].current.num > k
    ensures Reached(e, y, s, k + 1)
  {
    var g := Holder(e, k + 1, s);
    assert GroupOk(e, g, y.groups[g]);
    if y.groups[g].current.num == k + 1 {
      assert ShardOk(e, g, k + 1, s, y.groups[g].shards[s]);
    }
  }
}
