/** Every step of the sharded store keeps the invariant: steps inside one group. */
module ShardSteps {
  import opened Sets
  import opened ShardGroup
  import opened ShardSystem
  import opened ShardInvariant

  // ---- A group takes the next configuration

  lemma ConfigGroupOk(e: Env, gid: int, g: Group)
    requires EnvOk(e) && gid != 0 && GroupOk(e, gid, g) && AllServing(g)
    ensures GroupOk(e, gid, ApplyConfiguration(g, ConfigAt(e, g.current.num + 1)))
  {
    var n, g' := g.current.num, ApplyConfiguration(g, ConfigAt(e, g.current.num + 1));
    hide Together;
    forall s | 0 <= s < e.nShards ensures ShardOk(e, gid, n + 1, s, g'.shards[s]) {
      assert ShardOk(e, gid, n, s, g.shards[s]);
      SameStatus(e, gid, n, s);
    }
    ConfigTogether(e, gid, g);
  }

  lemma ConfigTogether(e: Env, gid: int, g: Group)
    requires EnvOk(e) && gid != 0 && g.gid == gid && g.Sized(e.nShards) && g.current == ConfigAt(e, g.current.num)
             && AllServing(g)
    ensures Together(e, ApplyConfiguration(g, ConfigAt(e, g.current.num + 1)))
  {
    var n, g' := g.current.num, ApplyConfiguration(g, ConfigAt(e, g.current.num + 1));
    forall s | 0 <= s < e.nShards ensures g'.shards[s].status ==
                                          NextStatus(gid, Holder(e, n, s), Holder(e, n + 1, s), SERVING) {
      SameStatus(e, gid, n, s);
    }
    hide Holder, ApplyConfiguration;
  }

  // ---- Shards that move between the same two groups

  ghost predicate MovedShards(e: Env, n: nat, source: int, puller: int, ids: seq<int>) {
    ids != [] && Distinct(ids) && forall s :: s in ids <==> Moves(e, n, source, puller, s)
  }

  lemma MovedWithin(e: Env, n: nat, source: int, puller: int, ids: seq<int>)
    requires MovedShards(e, n, source, puller, ids)
    ensures Within(ids, e.nShards)
  {
    forall i | 0 <= i < |ids| ensures 0 <= ids[i] < e.nShards {
      assert ids[i] in ids;
    }
  }

  /** In every group they share one status, so the loops over them never stop half-way. */
  lemma MovedTogether(e: Env, gid: int, g: Group, source: int, puller: int, ids: seq<int>)
    requires GroupOk(e, gid, g) && MovedShards(e, g.current.num, source, puller, ids)
    ensures Within(ids, |g.shards|) && Share(g.shards, ids, g.shards[ids[0]].status)
  {
    MovedWithin(e, g.current.num, source, puller, ids);
    forall i | 0 <= i < |ids| ensures g.shards[ids[i]].status == g.shards[ids[0]].status {
      assert ids[i] in ids && ids[0] in ids;
      assert SameMove(e, g.current.num, ids[i], ids[0]);
    }
  }

  // ---- Inserting

  /** All pulled shards are there. */
  ghost predicate Inserted(g: Group, data: map<int, map<string, string>>, shards': seq<Shard>) {
    && |shards'| == |g.shards|
    && (forall s :: 0 <= s < |g.shards| ==> shards'[s] == if s in data then Shard(data[s], GC) else g.shards[s])
    && (forall s <- data :: 0 <= s < |g.shards| && g.shards[s].status == PULLING)
  }

  /** The insert loop takes all shards or none, in whatever order it meets them. */
  lemma InsertOutcome(e: Env, gid: int, g: Group, source: int, data: map<int, map<string, string>>, order: seq<int>)
    requires GroupOk(e, gid, g) && Within(order, |g.shards|) && Given(order, data)
    requires MovedShards(e, g.current.num, source, gid, order) && (forall s :: s in order <==> s in data)
    ensures var shards' := InsertLoop(g.shards, data, order);
            if g.shards[order[0]].status == PULLING then Inserted(g, data, shards') else shards' == g.shards
  {
    MovedTogether(e, gid, g, source, gid, order);
    if g.shards[order[0]].status == PULLING {
      InsertAll(g.shards, data, order);
      forall s | 0 <= s < |g.shards| && s in order ensures g.shards[s].kv == map[] && g.shards[s].status == PULLING {
        var i :| 0 <= i < |order| && order[i] == s;
        assert ShardOk(e, gid, g.current.num, s, g.shards[s]);
      }
      assert forall s <- data :: map[] + data[s] == data[s];
      assert forall s <- data :: s in order;
    } else {
      InsertNone(g.shards, data, order, g.shards[order[0]].status);
    }
  }

  lemma InsertGroupOk(e: Env, gid: int, g: Group, source: int, data: map<int, map<string, string>>, shards': seq<Shard>)
    requires GroupOk(e, gid, g) && Inserted(g, data, shards')
             && forall s :: s in data <==> Moves(e, g.current.num, source, gid, s)
    ensures GroupOk(e, gid, g.(shards := shards'))
  {
    var g', n := g.(shards := shards'), g.current.num;
    forall s | 0 <= s < e.nShards ensures ShardOk(e, gid, n, s, shards'[s]) {
      assert ShardOk(e, gid, n, s, g.shards[s]);
    }
    forall s, t | 0 <= s < e.nShards && 0 <= t < e.nShards && SameMove(e, n, s, t)
      ensures shards'[s].status == shards'[t].status
    {
      assert Moves(e, n, source, gid, s) <==> Moves(e, n, source, gid, t);
    }
  }

  // ---- Deleting

  /** What the delete loop leaves of one shard. */
  function Deleted(shard: Shard): Shard {
    match shard.status
    case GC => shard.(status := SERVING)
    case BEPULLING => NewShard()
    case _ => shard
  }

  lemma DeleteOutcome(e: Env, gid: int, g: Group, source: int, puller: int, ids: seq<int>)
    requires GroupOk(e, gid, g) && MovedShards(e, g.current.num, source, puller, ids) && Within(ids, |g.shards|)
    ensures forall s :: 0 <= s < |g.shards| ==>
                        DeleteLoop(g.shards, ids)[s] == if s in ids then Deleted(g.shards[s]) else g.shards[s]
  {
    MovedTogether(e, gid, g, source, puller, ids);
    var status := g.shards[ids[0]].status;
    if status == GC || status == BEPULLING {
      DeleteAll(g.shards, ids, status);
    } else {
      DeleteNone(g.shards, ids, status);
    }
    forall s | 0 <= s < |g.shards| && s in ids ensures g.shards[s].status == status {
      var i :| 0 <= i < |ids| && ids[i] == s;
    }
  }

  lemma DeleteGroupOk(e: Env, gid: int, g: Group, source: int, puller: int, ids: seq<int>)
    requires GroupOk(e, gid, g) && MovedShards(e, g.current.num, source, puller, ids) && Within(ids, |g.shards|)
    ensures GroupOk(e, gid, g.(shards := DeleteLoop(g.shards, ids)))
  {
    DeleteOutcome(e, gid, g, source, puller, ids);
    var shards', n := DeleteLoop(g.shards, ids), g.current.num;
    forall s | 0 <= s < e.nShards ensures ShardOk(e, gid, n, s, shards'[s]) {
      assert ShardOk(e, gid, n, s, g.shards[s]);
    }
    forall s, t | 0 <= s < e.nShards && 0 <= t < e.nShards && SameMove(e, n, s, t)
      ensures shards'[s].status == shards'[t].status
    {
      assert s in ids <==> t in ids by {
        assert Moves(e, n, source, puller, s) <==> Moves(e, n, source, puller, t);
      }
      assert g.shards[s].status == g.shards[t].status;
    }
  }

  // ---- Operations

  lemma OperationGroupOk(e: Env, gid: int, g: Group, args: CommandArgs)
    requires EnvOk(e) && gid != 0 && GroupOk(e, gid, g)
    ensures GroupOk(e, gid, ApplyOperation(g, args).0)
  {
    var g', n := ApplyOperation(g, args).0, g.current.num;
    assert |g'.shards| == |g.shards| && g'.current == g.current && g'.last == g.last;
    forall s | 0 <= s < e.nShards ensures ShardOk(e, gid, n, s, g'.shards[s])
                                          && g'.shards[s].status == g.shards[s].status {
      assert ShardOk(e, gid, n, s, g.shards[s]);
      assert g.current.shards[s] == gid ==> Holder(e, n, s) == gid;
    }
  }
}
