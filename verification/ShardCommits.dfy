/** Every step of the sharded store keeps the invariant: commands taking effect. */
module ShardCommits {
  import opened ShardGroup
  import opened ShardSystem
  import opened ShardInvariant
  import opened ShardSteps
  import opened ShardProof

  lemma Unchanged(y: System, g: int)
    requires g in y.groups
    ensures WithGroup(y, g, y.groups[g]) == y
  {
  }

  // ---- Inserting pulled shards

  lemma AskedWhole(e: Env, y: System, r: Reply)
    requires EnvOk(e) && Shaped(e, y) && SentOk(e, y) && Asked(y, r)
    ensures Whole(e, r)
  {
    hide Reached, Current, Holder;
    var t :| t in y.pulls && Answers(t, r);
    assert TaskOk(e, t);
    assert t.ids[0] in t.ids;
  }

  lemma OrderMoves(e: Env, r: Reply, order: seq<int>)
    requires Whole(e, r) && Lists(order, s => s in r.data.shards)
    ensures MovedShards(e, r.data.configNum, r.source, r.puller, order)
            && forall s :: s in order <==> s in r.data.shards
  {
    hide Holder;
    var s :| s in r.data.shards;
    assert s in order;
  }

  lemma ReplyCurrent(e: Env, y: System, r: Reply, s: int)
    requires EnvOk(e) && y.groups.Keys == e.gids && ReplyOk(e, y, r) && s in r.data.shards
             && !Reached(e, y, s, r.data.configNum)
    requires Moves(e, r.data.configNum, r.source, r.puller, s)
    ensures var mine := y.groups[r.puller].ops; Current(e, y, r.data.shards[s], MergeOps(mine, r.data.ops), s)
  {
    hide Reached, Holder, Restrict, MergeOps, IsDuplicate;
    MergeRecalls(y.groups[r.puller].ops, r.data.ops);
  }

  lemma PullingNotReached(e: Env, y: System, r: Reply, s: int)
    requires EnvOk(e) && y.groups.Keys == e.gids && ReplyOk(e, y, r) && Whole(e, r) && s in r.data.shards
    requires y.groups[r.puller].current.num == r.data.configNum && 0 <= s < |y.groups[r.puller].shards|
    requires y.groups[r.puller].shards[s].status == PULLING
    ensures !Reached(e, y, s, r.data.configNum)
  {
    assert Moves(e, r.data.configNum, r.source, r.puller, s);
  }

  /** The shards land with their current contents, and the step is an acquisition. */
  lemma InsertAcquires(e: Env, y: System, r: Reply, shards': seq<Shard>)
    requires EnvOk(e) && y.groups.Keys == e.gids && ReplyOk(e, y, r)
             && y.groups[r.puller].current.num == r.data.configNum
    requires Whole(e, r) && Inserted(y.groups[r.puller], r.data.shards, shards')
    ensures var g := y.groups[r.puller].(ops := MergeOps(y.groups[r.puller].ops, r.data.ops));
            var y1 := WithGroup(y, r.puller, g);
            y1.groups.Keys == e.gids && Acquires(e, y1, r.puller, r.source, r.data.shards,
                                                 WithGroup(y, r.puller, g.(shards := shards')))
  {
    var p, data := r.puller, r.data.shards;
    var g := y.groups[p].(ops := MergeOps(y.groups[p].ops, r.data.ops));
    var y1 := WithGroup(y, p, g);
    forall s <- data ensures Current(e, y1, data[s], g.ops, s) {
      PullingNotReached(e, y, r, s);
      assert Moves(e, r.data.configNum, r.source, r.puller, s);
      ReplyCurrent(e, y, r, s);
    }
    hide Reached, Holder, Restrict, MergeOps, IsDuplicate, Covers, Moves;
  }

  lemma InsertKeeps(e: Env, y: System, r: Reply, order: seq<int>)
    requires Inv(e, y) && Enabled(e, y, CommitInsert(r, order))
    ensures Inv(e, Apply(e, y, CommitInsert(r, order)))
  {
    var a := CommitInsert(r, order);
    ShapedKept(e, y, a);
    var p, g := r.puller, y.groups[r.puller];
    ListedWithin(order, r.data.shards, e.nShards);
    assert ReplyOk(e, y, r) && GroupOk(e, p, g);
    AskedWhole(e, y, r);
    OrderMoves(e, r, order);
    hide GroupsOk, SourceStopped, CleanedLate, FrontierCurrent, Untouched, SentOk, Shaped, EnvOk, ReplyOk, GroupOk,
         Holder, MergeOps, InsertLoop, Lists;
    if r.data.configNum != g.current.num {
      Unchanged(y, p);
    } else {
      var ops' := MergeOps(g.ops, r.data.ops);
      MergeRecalls(g.ops, r.data.ops);
      TableKeeps(e, y, p, ops');
      var y1 := WithGroup(y, p, g.(ops := ops'));
      InsertOutcome(e, p, g, r.source, r.data.shards, order);
      if g.shards[order[0]].status == PULLING {
        InsertAcquires(e, y, r, InsertLoop(g.shards, r.data.shards, order));
        AcquireKeeps(e, y1, p, r.source, r.data.shards, Apply(e, y, a));
      } else {
        assert Apply(e, y, a) == y1;
      }
    }
  }

  // ---- Taking the next configuration

  ghost predicate Advances(e: Env, y: System, g: int, y': System)
    requires EnvOk(e) && y.groups.Keys == e.gids
  {
    && g in e.gids && GroupOk(e, g, y.groups[g]) && AllServing(y.groups[g])
    && y' == WithGroup(y, g, ApplyConfiguration(y.groups[g], ConfigAt(e, y.groups[g].current.num + 1)))
  }

  /** The group keeps the shard, or is its first owner. */
  ghost predicate GetsAtOnce(e: Env, g: int, n: nat, s: int) {
    Holder(e, n + 1, s) == g && (Holder(e, n, s) == g || Holder(e, n, s) == 0)
  }

  lemma AdvanceShard(e: Env, y: System, g: int, y': System, s: int)
    requires EnvOk(e) && y.groups.Keys == e.gids && Advances(e, y, g, y') && 0 <= s < e.nShards
    ensures var n := y.groups[g].current.num;
            && |y'.groups[g].shards| == e.nShards && |y.groups[g].shards| == e.nShards
            && y'.groups[g].current.num == n + 1 && y'.groups[g].ops == y.groups[g].ops
            && y'.groups[g].shards[s].kv == y.groups[g].shards[s].kv && y.groups[g].shards[s].status == SERVING
            && y'.groups[g].shards[s].status ==
               (if Holder(e, n, s) != g && Holder(e, n + 1, s) == g && Holder(e, n, s) != 0 then PULLING
                else if Holder(e, n, s) == g && Holder(e, n + 1, s) != g then BEPULLING
                else SERVING)
            && (Holder(e, n, s) != g ==> y.groups[g].shards[s].kv == map[])
  {
    var n := y.groups[g].current.num;
    SameStatus(e, g, n, s);
    assert ShardOk(e, g, n, s, y.groups[g].shards[s]);
    hide Together;
  }

  lemma AdvanceReach(e: Env, y: System, g: int, y': System, s: int, k: nat)
    requires EnvOk(e) && y.groups.Keys == e.gids && Advances(e, y, g, y') && 0 <= s < e.nShards
    ensures var n := y.groups[g].current.num;
            Reached(e, y', s, k) <==> Reached(e, y, s, k) || (k == n + 1 && GetsAtOnce(e, g, n, s))
  {
    hide Holder, GroupOk, AllServing, ApplyConfiguration;
    AdvanceShard(e, y, g, y', s);
  }

  lemma AdvanceOrder(e: Env, y: System, g: int, y': System)
    requires EnvOk(e) && y.groups.Keys == e.gids && y'.groups.Keys == e.gids && Advances(e, y, g, y')
    requires SourceStopped(e, y) && CleanedLate(e, y)
    ensures SourceStopped(e, y') && CleanedLate(e, y')
  {
    hide *;
    forall s, k: nat | 0 <= s < e.nShards && Handover(e, s, k) && Reached(e, y', s, k + 1)
      ensures StoppedAt(e, y', s, k)
    {
      AdvanceStopped(e, y, g, y', s, k);
    }
    forall s, k: nat | 0 <= s < e.nShards && Handover(e, s, k) && CleanedAt(e, y', s, k)
      ensures Reached(e, y', s, k + 1)
    {
      AdvanceCleaned(e, y, g, y', s, k);
    }
    OrderIs(e, y');
  }

  lemma AdvanceStopped(e: Env, y: System, g: int, y': System, s: int, k: nat)
    requires EnvOk(e) && y.groups.Keys == e.gids && Advances(e, y, g, y') && SourceStopped(e, y)
    requires 0 <= s < e.nShards && Handover(e, s, k) && Reached(e, y', s, k + 1)
    ensures StoppedAt(e, y', s, k)
  {
    hide Holder, Reached, ApplyConfiguration, GroupOk, AllServing;
    AdvanceReach(e, y, g, y', s, k + 1);
    AdvanceShard(e, y, g, y', s);
  }

  lemma AdvanceCleaned(e: Env, y: System, g: int, y': System, s: int, k: nat)
    requires EnvOk(e) && y.groups.Keys == e.gids && Advances(e, y, g, y') && CleanedLate(e, y)
    requires 0 <= s < e.nShards && Handover(e, s, k) && CleanedAt(e, y', s, k)
    ensures Reached(e, y', s, k + 1)
  {
    hide Holder, Reached, ApplyConfiguration, GroupOk, AllServing;
    AdvanceReach(e, y, g, y', s, k + 1);
    AdvanceShard(e, y, g, y', s);
    assert Cleaned(y.groups[Holder(e, k, s)], s, k + 1);
  }

  lemma AdvanceFrontier(e: Env, y: System, g: int, y': System)
    requires EnvOk(e) && y.groups.Keys == e.gids && Advances(e, y, g, y') && FrontierCurrent(e, y) && Untouched(e, y)
    ensures FrontierCurrent(e, y') && Untouched(e, y')
  {
    forall s, k: nat | 0 <= s < e.nShards && Frontier(e, y', s, k)
      ensures var h := y'.groups[Holder(e, k, s)]; Current(e, y', h.shards[s].kv, h.ops, s)
    {
      AdvanceCurrent(e, y, g, y', s, k);
    }
    forall s, k: nat | 0 <= s < e.nShards && Holder(e, k, s) == 0 && Holder(e, k + 1, s) != 0
      && y'.groups[Holder(e, k + 1, s)].current.num <= k
      ensures Current(e, y', map[], map[], s)
    {
      AdvanceShard(e, y, g, y', s);
      hide Holder, ApplyConfiguration, GroupOk, FrontierCurrent, Restrict, Covers;
      assert y.groups[Holder(e, k + 1, s)].current.num <= k;
    }
  }

  lemma AdvanceCurrent(e: Env, y: System, g: int, y': System, s: int, k: nat)
    requires EnvOk(e) && y.groups.Keys == e.gids && Advances(e, y, g, y') && FrontierCurrent(e, y) && Untouched(e, y)
    requires 0 <= s < e.nShards && Frontier(e, y', s, k)
    ensures Holder(e, k, s) in e.gids && s < |y'.groups[Holder(e, k, s)].shards|
    ensures var h := y'.groups[Holder(e, k, s)]; Current(e, y', h.shards[s].kv, h.ops, s)
  {
    var n := y.groups[g].current.num;
    AdvanceReach(e, y, g, y', s, k);
    AdvanceReach(e, y, g, y', s, k + 1);
    AdvanceShard(e, y, g, y', s);
    assert Reached(e, y', s, k) ==> Holder(e, k, s) in e.gids && s < |y'.groups[Holder(e, k, s)].shards|;
    if Reached(e, y, s, k) {
      hide Holder, Reached, ApplyConfiguration, GroupOk, Untouched, Restrict, Covers;
      assert Frontier(e, y, s, k);
    } else if Holder(e, n, s) == g {
      assert Frontier(e, y, s, n);
      hide Holder, Reached, ApplyConfiguration, GroupOk, Untouched, Restrict, Covers;
    } else {
      hide Reached, ApplyConfiguration, GroupOk, FrontierCurrent, Restrict;
      assert Holder(e, n, s) == 0 && Holder(e, n + 1, s) == g;
    }
  }

  lemma AdvanceSent(e: Env, y: System, g: int, y': System)
    requires EnvOk(e) && Shaped(e, y) && Shaped(e, y') && Advances(e, y, g, y') && SentOk(e, y)
    ensures SentOk(e, y')
  {
    forall s, k: nat | 0 <= s < e.nShards && Reached(e, y, s, k) ensures Reached(e, y', s, k) {
      AdvanceReach(e, y, g, y', s, k);
    }
    hide Holder, Reached, GroupOk, TaskOk, Restrict, Covers, EnvOk;
    forall c <- y'.proposals ensures ProposalOk(e, y', c.0, c.1) { assert ProposalOk(e, y, c.0, c.1); }
    forall r <- y'.replies ensures ReplyOk(e, y', r) {
      assert ReplyOk(e, y, r);
      forall s <- r.data.shards | Moves(e, r.data.configNum, r.source, r.puller, s)
        && !Reached(e, y', s, r.data.configNum)
        ensures Current(e, y', r.data.shards[s], r.data.ops, s)
      {
        assert !Reached(e, y, s, r.data.configNum);
      }
    }
    forall t <- y'.deletes ensures DeleteOk(e, y', t) {
      assert DeleteOk(e, y, t);
      forall s <- t.ids ensures Reached(e, y', s, t.configNum) { assert 0 <= s < e.nShards by { InTask(e, t, s); } }
    }
  }

  lemma InTask(e: Env, t: Task, s: int)
    requires TaskOk(e, t) && s in t.ids
    ensures 0 <= s < e.nShards
  {
    assert Moves(e, t.configNum, t.source, t.puller, s);
  }

  lemma ConfigKeeps(e: Env, y: System, g: int, config: Config)
    requires Inv(e, y) && Enabled(e, y, CommitConfig(g, config))
    ensures Inv(e, Apply(e, y, CommitConfig(g, config)))
  {
    var a := CommitConfig(g, config);
    var y' := Apply(e, y, a);
    ShapedKept(e, y, a);
    assert ProposalOk(e, y, g, config) && GroupOk(e, g, y.groups[g]);
    assert g in e.gids && g != 0;
    hide GroupsOk, SourceStopped, CleanedLate, FrontierCurrent, Untouched, SentOk, Shaped, EnvOk, GroupOk, AllServing,
         Holder;
    if config.num != y.groups[g].current.num + 1 {
      Unchanged(y, g);
    } else {
      ConfigGroupOk(e, g, y.groups[g]);
      assert Advances(e, y, g, y');
      AdvanceGroups(e, y, g, y');
      AdvanceOrder(e, y, g, y');
      AdvanceFrontier(e, y, g, y');
      AdvanceSent(e, y, g, y');
    }
  }

  lemma AdvanceGroups(e: Env, y: System, g: int, y': System)
    requires EnvOk(e) && y.groups.Keys == e.gids && GroupsOk(e, y) && Advances(e, y, g, y')
             && GroupOk(e, g, y'.groups[g])
    ensures y'.groups.Keys == e.gids && GroupsOk(e, y')
  {
    hide GroupOk;
  }

  /**
   A configuration that takes effect finds every shard SERVING, although nothing checks this again
   when it is applied.
   */
  lemma ConfigFindsServing(e: Env, y: System, g: int, config: Config)
    requires Inv(e, y) && Enabled(e, y, CommitConfig(g, config)) && config.num == y.groups[g].current.num + 1
    ensures AllServing(y.groups[g]) && config == ConfigAt(e, config.num)
  {
    assert ProposalOk(e, y, g, config);
  }

  // ---- Deleting shards that were handed over

  /** `y'` differs from `y` in what the delete loop did to the shards of group `g` named by task `t`. */
  ghost predicate Deletes(e: Env, y: System, g: int, t: Task, y': System)
    requires EnvOk(e) && y.groups.Keys == e.gids
  {
    && g in e.gids && (g == t.puller || g == t.source) && DeleteOk(e, y, t) && t.configNum == y.groups[g].current.num
    && y'.groups.Keys == e.gids && (forall h <- e.gids :: h != g ==> y'.groups[h] == y.groups[h])
    && y'.groups[g] == y.groups[g].(shards := y'.groups[g].shards) && |y'.groups[g].shards| == |y.groups[g].shards|
    && (forall s :: 0 <= s < |y.groups[g].shards| ==>
          y'.groups[g].shards[s] == if s in t.ids then Deleted(y.groups[g].shards[s]) else y.groups[g].shards[s])
    && y'.store == y.store && y'.done == y.done && SameSent(y, y')
  }

  lemma DeleteReach(e: Env, y: System, g: int, t: Task, y': System)
    requires EnvOk(e) && y.groups.Keys == e.gids && Deletes(e, y, g, t, y')
    ensures forall s, k: nat :: Reached(e, y', s, k) <==> Reached(e, y, s, k)
  {
    hide Holder, DeleteOk;
  }

  lemma DeleteOrder(e: Env, y: System, g: int, t: Task, y': System)
    requires EnvOk(e) && y.groups.Keys == e.gids && Deletes(e, y, g, t, y') && SourceStopped(e, y) && CleanedLate(e, y)
    ensures SourceStopped(e, y') && CleanedLate(e, y')
  {
    hide Holder, Reached, AllReturn;
    DeleteReach(e, y, g, t, y');
    forall s, k: nat | 0 <= s < e.nShards && Handover(e, s, k) && CleanedAt(e, y', s, k)
      ensures Reached(e, y', s, k + 1)
    {
      if !Cleaned(y.groups[Holder(e, k, s)], s, k + 1) {
        assert s in t.ids && t.configNum == k + 1;
      }
    }
    OrderIs(e, y');
  }

  /** What is thrown away is not the frontier. */
  lemma DeletedNotFrontier(e: Env, y: System, g: int, t: Task, s: int, k: nat)
    requires EnvOk(e) && Tidy(e, y) && DeleteOk(e, y, t) && s in t.ids && 0 <= s < e.nShards
    requires g == t.source && g in y.groups && y.groups[g].current.num == t.configNum && Holder(e, k, s) == g
    ensures !Frontier(e, y, s, k)
  {
    hide *;
    if Reached(e, y, s, k) {
      TidyOwned(e, y, s, k);
      HolderStays(e, s, k, k + 1);
      HandedOver(e, y, g, t, s, k);
      ReachedBefore(e, y, s, t.configNum, k + 1);
      NotFrontier(e, y, s, k);
    } else {
      NotFrontier(e, y, s, k);
    }
  }

  lemma NotFrontier(e: Env, y: System, s: int, k: nat)
    requires !Reached(e, y, s, k) || Reached(e, y, s, k + 1)
    ensures !Frontier(e, y, s, k)
  {
  }

  lemma HandedOver(e: Env, y: System, g: int, t: Task, s: int, k: nat)
    requires DeleteOk(e, y, t) && s in t.ids && g == t.source && g in y.groups && y.groups[g].current.num == t.configNum
    requires Holder(e, k, s) == g && Reached(e, y, s, k)
    ensures k < t.configNum && Reached(e, y, s, t.configNum)
  {
    assert Moves(e, t.configNum, t.source, t.puller, s);
  }

  lemma DeleteFrontier(e: Env, y: System, g: int, t: Task, y': System)
    requires Tidy(e, y) && Deletes(e, y, g, t, y') && FrontierCurrent(e, y) && GroupOk(e, g, y.groups[g])
    ensures FrontierCurrent(e, y')
  {
    DeleteReach(e, y, g, t, y');
    forall s, k: nat | 0 <= s < e.nShards && Frontier(e, y', s, k)
      ensures var h := y'.groups[Holder(e, k, s)]; Current(e, y', h.shards[s].kv, h.ops, s)
    {
      assert Frontier(e, y, s, k);
      if Holder(e, k, s) == g && y.groups[g].shards[s].status == BEPULLING && s in t.ids {
        DeletedAtSource(e, y, g, t, s);
        DeletedNotFrontier(e, y, g, t, s, k);
      }
      hide Holder, Reached, Restrict, Covers, DeleteOk, Tidy;
    }
  }

  lemma DeletedAtSource(e: Env, y: System, g: int, t: Task, s: int)
    requires g in y.groups && GroupOk(e, g, y.groups[g]) && TaskOk(e, t) && s in t.ids
             && (g == t.puller || g == t.source)
    requires t.configNum == y.groups[g].current.num && 0 <= s < |y.groups[g].shards|
             && y.groups[g].shards[s].status == BEPULLING
    ensures g == t.source
  {
    assert ShardOk(e, g, t.configNum, s, y.groups[g].shards[s]);
    assert Moves(e, t.configNum, t.source, t.puller, s);
  }

  lemma DeleteSent(e: Env, y: System, g: int, t: Task, y': System)
    requires EnvOk(e) && Shaped(e, y) && Shaped(e, y') && Deletes(e, y, g, t, y') && SentOk(e, y)
    ensures SentOk(e, y')
  {
    DeleteReach(e, y, g, t, y');
    hide Holder, Reached, TaskOk, Moves, Restrict, Covers, EnvOk;
    forall c <- y'.proposals ensures ProposalOk(e, y', c.0, c.1) { assert ProposalOk(e, y, c.0, c.1); }
    forall r <- y'.replies ensures ReplyOk(e, y', r) { assert ReplyOk(e, y, r); }
    forall u <- y'.deletes ensures DeleteOk(e, y', u) { assert DeleteOk(e, y, u); }
  }

  lemma DeleteKeeps(e: Env, y: System, g: int, t: Task)
    requires Inv(e, y) && Enabled(e, y, CommitDelete(g, t))
    ensures Inv(e, Apply(e, y, CommitDelete(g, t)))
  {
    var y' := Apply(e, y, CommitDelete(g, t));
    hide *;
    ShapedKept(e, y, CommitDelete(g, t));
    InvParts(e, y);
    DeleteApplied(e, y, g, t);
    if y' != y {
      DeleteGroups(e, y, g, t, y');
      DeleteOrder(e, y, g, t, y');
      DeleteFrontier(e, y, g, t, y');
      DeleteUntouched(e, y, g, t, y');
      DeleteSent(e, y, g, t, y');
      InvIs(e, y');
    }
  }

  lemma InvParts(e: Env, y: System)
    requires Inv(e, y)
    ensures EnvOk(e) && Shaped(e, y) && y.groups.Keys == e.gids && GroupsOk(e, y) && Tidy(e, y)
    ensures SourceStopped(e, y) && CleanedLate(e, y) && FrontierCurrent(e, y) && Untouched(e, y) && SentOk(e, y)
  {
    hide GroupsOk, SourceStopped, CleanedLate, FrontierCurrent, Untouched, SentOk, EnvOk;
  }

  lemma InvIs(e: Env, y: System)
    requires EnvOk(e) && Shaped(e, y) && y.groups.Keys == e.gids && GroupsOk(e, y)
    requires SourceStopped(e, y) && CleanedLate(e, y) && FrontierCurrent(e, y) && Untouched(e, y) && SentOk(e, y)
    ensures Inv(e, y)
  {
    hide GroupsOk, SourceStopped, CleanedLate, FrontierCurrent, Untouched, SentOk, EnvOk;
  }

  lemma DeleteApplied(e: Env, y: System, g: int, t: Task)
    requires EnvOk(e) && Shaped(e, y) && GroupsOk(e, y) && SentOk(e, y) && Enabled(e, y, CommitDelete(g, t))
    ensures var y' := Apply(e, y, CommitDelete(g, t));
            y' == y || (Deletes(e, y, g, t, y') && GroupOk(e, g, y'.groups[g]) && GroupOk(e, g, y.groups[g]))
  {
    assert DeleteOk(e, y, t) && TaskShaped(e, t) && GroupOk(e, g, y.groups[g]);
    hide GroupsOk, SentOk, EnvOk, GroupOk, Holder, DeleteLoop, Moves, Reached;
    if t.configNum != y.groups[g].current.num {
      Unchanged(y, g);
    } else {
      DeleteOutcome(e, g, y.groups[g], t.source, t.puller, t.ids);
      DeleteGroupOk(e, g, y.groups[g], t.source, t.puller, t.ids);
    }
  }

  lemma DeleteGroups(e: Env, y: System, g: int, t: Task, y': System)
    requires EnvOk(e) && y.groups.Keys == e.gids && GroupsOk(e, y) && Deletes(e, y, g, t, y')
             && GroupOk(e, g, y'.groups[g])
    ensures y'.groups.Keys == e.gids && GroupsOk(e, y')
  {
    hide GroupOk;
  }

  lemma DeleteUntouched(e: Env, y: System, g: int, t: Task, y': System)
    requires EnvOk(e) && y.groups.Keys == e.gids && Deletes(e, y, g, t, y') && Untouched(e, y)
    ensures Untouched(e, y')
  {
    hide Holder, Restrict, Covers, DeleteOk;
  }
}
