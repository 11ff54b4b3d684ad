/** Every step of the sharded store keeps the invariant: client operations. */
module ShardOperations {
  import opened ShardGroup
  import opened ShardSystem
  import opened ShardInvariant
  import opened ShardSteps
  import opened ShardProof
  import opened ShardCommits

  lemma RestrictExecute(e: Env, store: map<string, string>, args: CommandArgs, s: int)
    requires e.nShards > 0
    ensures Restrict(e, Execute(store, args), s) ==
            if Key2Shard(args.key, e.nShards) == s then Execute(Restrict(e, store, s), args) else Restrict(e, store, s)
  {
  }

  /** An operation that is refused, repeated or only reads leaves everything as it was. */
  lemma NoEffect(e: Env, y: System, g: int, c: int, m: int)
    requires EnvOk(e) && Shaped(e, y) && g in e.gids && !TakesEffect(y.groups[g], e.request(c, m))
    ensures Apply(e, y, CommitOperation(g, c, m)) == y
  {
    var grp, args := y.groups[g], e.request(c, m);
    var s := Key2Shard(args.key, e.nShards);
    assert grp.shards[s].(kv := grp.shards[s].kv) == grp.shards[s];
    assert grp.shards[s := grp.shards[s]] == grp.shards;
    assert ApplyOperation(grp, args).0 == grp;
    Unchanged(y, g);
  }

  /** A write that group `g` carries out. */
  ghost predicate Writes(e: Env, y: System, g: int, cm: (int, int), y': System)
    requires EnvOk(e) && y.groups.Keys == e.gids
  {
    && g in e.gids && y.groups[g].Sized(e.nShards)
    && var grp, args := y.groups[g], e.request(cm.0, cm.1);
       var s := Key2Shard(args.key, e.nShards);
    && CanServer(grp, s) && !IsDuplicate(grp.ops, cm.0, cm.1)
    && y'.groups.Keys == e.gids && (forall h <- e.gids :: h != g ==> y'.groups[h] == y.groups[h])
    && y'.groups[g].current == grp.current && |y'.groups[g].shards| == |grp.shards|
    && (forall t :: 0 <= t < e.nShards && t != s ==> y'.groups[g].shards[t] == grp.shards[t])
    && y'.groups[g].shards[s] == grp.shards[s].(kv := Execute(grp.shards[s].kv, args))
    && Recalls(grp.ops, y'.groups[g].ops) && IsDuplicate(y'.groups[g].ops, cm.0, cm.1)
    && y'.store == Execute(y.store, args) && y'.done == y.done + {cm} && SameSent(y, y')
  }

  lemma EffectWrites(e: Env, y: System, g: int, c: int, m: int)
    requires EnvOk(e) && Shaped(e, y) && g in e.gids && TakesEffect(y.groups[g], e.request(c, m))
    ensures Writes(e, y, g, (c, m), Apply(e, y, CommitOperation(g, c, m)))
  {
    hide Holder;
  }

  lemma WriteReach(e: Env, y: System, g: int, cm: (int, int), y': System)
    requires EnvOk(e) && y.groups.Keys == e.gids && Writes(e, y, g, cm, y')
    ensures forall s, k: nat :: Reached(e, y', s, k) <==> Reached(e, y, s, k)
  {
    hide Holder, Execute, Recalls, IsDuplicate;
  }

  lemma WriteOrder(e: Env, y: System, g: int, cm: (int, int), y': System)
    requires EnvOk(e) && y.groups.Keys == e.gids && Writes(e, y, g, cm, y') && SourceStopped(e, y) && CleanedLate(e, y)
    ensures SourceStopped(e, y') && CleanedLate(e, y')
  {
    WriteReach(e, y, g, cm, y');
    hide Holder, Reached, Execute, Recalls, IsDuplicate;
    forall s, k: nat | 0 <= s < e.nShards && Handover(e, s, k) && CleanedAt(e, y', s, k)
      ensures Reached(e, y', s, k + 1)
    {
      assert Cleaned(y.groups[Holder(e, k, s)], s, k + 1);
    }
    OrderIs(e, y');
  }

  /** What is current for a shard stays so, if the write is on another shard. */
  lemma CurrentElsewhere(e: Env, y: System, g: int, cm: (int, int), y': System, kv: map<string, string>,
                         ops: Operations, ops': Operations, s: int)
    requires EnvOk(e) && y.groups.Keys == e.gids && Writes(e, y, g, cm, y') && !OnShard(e, cm, s)
    requires Current(e, y, kv, ops, s) && Recalls(ops, ops')
    ensures Current(e, y', kv, ops', s)
  {
    RestrictExecute(e, y.store, e.request(cm.0, cm.1), s);
    hide Restrict, IsDuplicate, Execute;
  }

  lemma CurrentHere(e: Env, y: System, g: int, cm: (int, int), y': System, s: int)
    requires EnvOk(e) && y.groups.Keys == e.gids && Writes(e, y, g, cm, y') && OnShard(e, cm, s)
    requires s < |y.groups[g].shards| && Current(e, y, y.groups[g].shards[s].kv, y.groups[g].ops, s)
    ensures s < |y'.groups[g].shards| && Current(e, y', y'.groups[g].shards[s].kv, y'.groups[g].ops, s)
  {
    RestrictExecute(e, y.store, e.request(cm.0, cm.1), s);
    hide Restrict, IsDuplicate, Execute;
  }

  lemma WriteFrontier(e: Env, y: System, g: int, cm: (int, int), y': System)
    requires EnvOk(e) && Shaped(e, y) && GroupsOk(e, y) && Tidy(e, y) && Writes(e, y, g, cm, y')
             && FrontierCurrent(e, y)
    ensures FrontierCurrent(e, y')
  {
    WriteReach(e, y, g, cm, y');
    var t := Key2Shard(e.request(cm.0, cm.1).key, e.nShards);
    ServerAtFrontier(e, y, g, t);
    var n := y.groups[g].current.num;
    forall s, k: nat | 0 <= s < e.nShards && Frontier(e, y', s, k)
      ensures var h := y'.groups[Holder(e, k, s)]; Current(e, y', h.shards[s].kv, h.ops, s)
    {
      hide Holder, Reached, Restrict, Covers, Execute, Recalls, IsDuplicate, Shaped, GroupsOk, Tidy;
      assert Frontier(e, y, s, k);
      if OnShard(e, cm, s) {
        OneFrontier(e, y, s, k, n);
        CurrentHere(e, y, g, cm, y', s);
      } else {
        RecallsSelf(y.groups[Holder(e, k, s)].ops);
        CurrentElsewhere(e, y, g, cm, y', y.groups[Holder(e, k, s)].shards[s].kv, y.groups[Holder(e, k, s)].ops,
                         y'.groups[Holder(e, k, s)].ops, s);
      }
    }
  }

  lemma RecallsSelf(ops: Operations)
    ensures Recalls(ops, ops)
  {
  }

  lemma WriteUntouched(e: Env, y: System, g: int, cm: (int, int), y': System)
    requires EnvOk(e) && Shaped(e, y) && GroupsOk(e, y) && Tidy(e, y) && Writes(e, y, g, cm, y') && Untouched(e, y)
    ensures Untouched(e, y')
  {
    var t := Key2Shard(e.request(cm.0, cm.1).key, e.nShards);
    ServerAtFrontier(e, y, g, t);
    forall s, k: nat | 0 <= s < e.nShards && Holder(e, k, s) == 0 && Holder(e, k + 1, s) != 0
      && y'.groups[Holder(e, k + 1, s)].current.num <= k
      ensures Current(e, y', map[], map[], s)
    {
      hide Holder, Restrict, Covers, Execute, Recalls, IsDuplicate, Shaped, GroupsOk, Tidy, Reached;
      assert y.groups[Holder(e, k + 1, s)].current.num <= k;
      if OnShard(e, cm, s) {
        FirstOwnerKnows(e, y, g, s, k);
      } else {
        RecallsSelf(map[]);
        CurrentElsewhere(e, y, g, cm, y', map[], map[], map[], s);
      }
    }
  }

  /** Before anyone serves a shard, its first owner has heard of it. */
  lemma FirstOwnerKnows(e: Env, y: System, g: int, s: int, k: nat)
    requires EnvOk(e) && Tidy(e, y) && g in e.gids && 0 <= s < e.nShards
    requires Holder(e, y.groups[g].current.num, s) == g && Reached(e, y, s, y.groups[g].current.num)
    requires Holder(e, k, s) == 0 && Holder(e, k + 1, s) != 0
    ensures y.groups[Holder(e, k + 1, s)].current.num > k
  {
    hide Tidy, Holder;
    var n := y.groups[g].current.num;
    assert Holder(e, n, s) != 0;
    if n <= k { HolderStays(e, s, n, k); }
    ReachedBefore(e, y, s, n, k + 1);
  }

  /** A write never touches a shard that a reply still speaks for. */
  lemma WriteAvoidsReplies(e: Env, y: System, g: int, cm: (int, int), y': System, r: Reply, s: int)
    requires EnvOk(e) && Shaped(e, y) && GroupsOk(e, y) && Tidy(e, y) && Writes(e, y, g, cm, y')
    requires ReplyOk(e, y, r) && s in r.data.shards && !Reached(e, y, s, r.data.configNum)
    requires Moves(e, r.data.configNum, r.source, r.puller, s)
    ensures !OnShard(e, cm, s)
  {
    SourceIsFrontier(e, y, r.data.configNum, r.source, r.puller, s);
    if OnShard(e, cm, s) {
      ServerAtFrontier(e, y, g, s);
      hide Holder, Reached, GroupsOk, Shaped, Tidy;
      OneFrontier(e, y, s, r.data.configNum - 1, y.groups[g].current.num);
    }
  }

  lemma WriteSent(e: Env, y: System, g: int, cm: (int, int), y': System)
    requires EnvOk(e) && Shaped(e, y) && Shaped(e, y') && GroupsOk(e, y) && Tidy(e, y) && Writes(e, y, g, cm, y')
             && SentOk(e, y)
    ensures SentOk(e, y')
  {
    WriteReach(e, y, g, cm, y');
    hide Holder, Reached, TaskOk, Moves, Restrict, Covers, EnvOk, GroupsOk, Tidy, Execute, Recalls, IsDuplicate;
    forall c <- y'.proposals ensures ProposalOk(e, y', c.0, c.1) {
      assert ProposalOk(e, y, c.0, c.1);
      WriteServing(e, y, g, cm, y', c.0);
    }
    forall r <- y'.replies ensures ReplyOk(e, y', r) {
      assert ReplyOk(e, y, r);
      forall s <- r.data.shards | Moves(e, r.data.configNum, r.source, r.puller, s)
        && !Reached(e, y', s, r.data.configNum)
        ensures Current(e, y', r.data.shards[s], r.data.ops, s)
      {
        WriteAvoidsReplies(e, y, g, cm, y', r, s);
        RecallsSelf(r.data.ops);
        CurrentElsewhere(e, y, g, cm, y', r.data.shards[s], r.data.ops, r.data.ops, s);
      }
    }
    forall t <- y'.deletes ensures DeleteOk(e, y', t) { assert DeleteOk(e, y, t); }
  }

  lemma WriteServing(e: Env, y: System, g: int, cm: (int, int), y': System, h: int)
    requires EnvOk(e) && y.groups.Keys == e.gids && Writes(e, y, g, cm, y') && h in e.gids
    ensures AllServing(y'.groups[h]) <==> AllServing(y.groups[h])
    ensures y'.groups[h].current == y.groups[h].current
  {
    if h == g {
      forall s | 0 <= s < e.nShards ensures y'.groups[g].shards[s].status == y.groups[g].shards[s].status {}
    }
  }

  lemma OperationKeeps(e: Env, y: System, g: int, c: int, m: int)
    requires Inv(e, y) && Enabled(e, y, CommitOperation(g, c, m))
    ensures Inv(e, Apply(e, y, CommitOperation(g, c, m)))
  {
    var y' := Apply(e, y, CommitOperation(g, c, m));
    ShapedKept(e, y, CommitOperation(g, c, m));
    InvParts(e, y);
    if !TakesEffect(y.groups[g], e.request(c, m)) {
      NoEffect(e, y, g, c, m);
    } else {
      EffectWrites(e, y, g, c, m);
      OperationGroups(e, y, g, c, m);
      hide *;
      WriteKeeps(e, y, g, (c, m), y');
    }
  }

  lemma OperationGroups(e: Env, y: System, g: int, c: int, m: int)
    requires EnvOk(e) && Shaped(e, y) && g in e.gids && GroupsOk(e, y)
    ensures var y' := Apply(e, y, CommitOperation(g, c, m)); y'.groups.Keys == e.gids && GroupsOk(e, y')
  {
    assert GroupOk(e, g, y.groups[g]);
    OperationGroupOk(e, g, y.groups[g], e.request(c, m));
    hide GroupOk, ApplyOperation, Holder;
  }

  lemma WriteKeeps(e: Env, y: System, g: int, cm: (int, int), y': System)
    requires Inv(e, y) && Shaped(e, y') && EnvOk(e) && y.groups.Keys == e.gids == y'.groups.Keys
             && Writes(e, y, g, cm, y') && GroupsOk(e, y')
    ensures Inv(e, y')
  {
    hide *;
    InvParts(e, y);
    WriteOrder(e, y, g, cm, y');
    WriteFrontier(e, y, g, cm, y');
    WriteUntouched(e, y, g, cm, y');
    WriteSent(e, y, g, cm, y');
    InvIs(e, y');
  }
}
