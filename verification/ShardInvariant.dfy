/** What holds in every reachable state of the sharded store. */
module ShardInvariant {
  import opened Sets
  import opened ShardGroup
  import opened ShardSystem

  /** Only moves from one group to another show in a shard's status, so going by holders gives the same. */
  lemma SameStatus(e: Env, gid: int, k: nat, s: int)
    requires EnvOk(e) && gid != 0
    ensures NextStatus(gid, Assigned(e, k, s), Assigned(e, k + 1, s), SERVING) ==
              NextStatus(gid, Holder(e, k, s), Holder(e, k + 1, s), SERVING)
    ensures Holder(e, k, s) != 0 ==> Holder(e, k + 1, s) != 0
  {
    assert Returns(e, k, s);
  }

  // ---- One group

  /** Configuration `n` gives the shard to the group, from another group. */
  ghost predicate Incoming(e: Env, gid: int, n: nat, s: int) {
    n > 0 && Holder(e, n - 1, s) != 0 && Holder(e, n - 1, s) != gid && Holder(e, n, s) == gid
  }

  ghost predicate Outgoing(e: Env, gid: int, n: nat, s: int) {
    n > 0 && Holder(e, n - 1, s) == gid && Holder(e, n, s) != gid
  }

  /**
   A shard is being pulled only by its new owner and waits to be pulled only at its old one; who
   does not have it holds nothing.
   */
  ghost predicate ShardOk(e: Env, gid: int, n: nat, s: int, shard: Shard) {
    && (shard.status == PULLING || shard.status == GC ==> Incoming(e, gid, n, s))
    && (shard.status == BEPULLING ==> Outgoing(e, gid, n, s))
    && ((Holder(e, n, s) != gid && shard.status == SERVING) || shard.status == PULLING ==> shard.kv == map[])
  }

  /** Both shards have the same old and the same new owner. */
  ghost predicate SameMove(e: Env, n: nat, s: int, t: int) {
    n > 0 && Holder(e, n - 1, s) == Holder(e, n - 1, t) && Holder(e, n, s) == Holder(e, n, t)
  }

  ghost predicate Together(e: Env, g: Group) {
    forall s, t :: 0 <= s < |g.shards| && 0 <= t < |g.shards| && SameMove(e, g.current.num, s, t) ==>
      g.shards[s].status == g.shards[t].status
  }

  ghost predicate GroupOk(e: Env, gid: int, g: Group) {
    && g.gid == gid && g.Sized(e.nShards)
    && g.current == ConfigAt(e, g.current.num)
    && g.last == ConfigAt(e, if g.current.num == 0 then 0 else g.current.num - 1)
    && (forall s :: 0 <= s < e.nShards ==> ShardOk(e, gid, g.current.num, s, g.shards[s]))
    && Together(e, g)
  }

  // ---- All groups

  /** The owner at configuration `k` has got the shard in that configuration. */
  ghost predicate Reached(e: Env, y: System, s: int, k: nat) {
    && Holder(e, k, s) in y.groups && 0 <= s < |y.groups[Holder(e, k, s)].shards|
    && var g := y.groups[Holder(e, k, s)];
       g.current.num > k || (g.current.num == k && g.shards[s].status != PULLING)
  }

  /** Configuration `k + 1` moves the shard from one group to another. */
  ghost predicate Handover(e: Env, s: int, k: nat) {
    Holder(e, k, s) != 0 && Holder(e, k + 1, s) != Holder(e, k, s)
  }

  /** No shard is handed over before its old owner has stopped serving it. */
  ghost predicate SourceStopped(e: Env, y: System)
    requires y.groups.Keys == e.gids && EnvOk(e)
  {
    forall s, k: nat :: 0 <= s < e.nShards && Handover(e, s, k) && Reached(e, y, s, k + 1) ==>
                        y.groups[Holder(e, k, s)].current.num > k
  }

  /** The old owner has thrown its copy away. */
  ghost predicate Cleaned(g: Group, s: int, n: nat) {
    0 <= s < |g.shards| && (g.current.num > n || (g.current.num == n && g.shards[s].status != BEPULLING))
  }

  /** No copy is thrown away before the new owner has the shard. */
  ghost predicate CleanedLate(e: Env, y: System)
    requires y.groups.Keys == e.gids && EnvOk(e)
  {
    forall s, k: nat :: 0 <= s < e.nShards && Handover(e, s, k) && Cleaned(y.groups[Holder(e, k, s)], s, k + 1) ==>
                        Reached(e, y, s, k + 1)
  }

  /** The part of a map that belongs to a shard. */
  ghost function Restrict(e: Env, store: map<string, string>, s: int): map<string, string>
    requires e.nShards > 0
  {
    map key | key in store && Key2Shard(key, e.nShards) == s :: store[key]
  }

  ghost predicate OnShard(e: Env, cm: (int, int), s: int)
    requires e.nShards > 0
  {
    Key2Shard(e.request(cm.0, cm.1).key, e.nShards) == s
  }

  /** The table would recognise every write done on the shard. */
  ghost predicate Covers(e: Env, ops: Operations, done: set<(int, int)>, s: int)
    requires e.nShards > 0
  {
    forall cm <- done :: OnShard(e, cm, s) ==> IsDuplicate(ops, cm.0, cm.1)
  }

  ghost predicate Current(e: Env, y: System, kv: map<string, string>, ops: Operations, s: int)
    requires e.nShards > 0
  {
    kv == Restrict(e, y.store, s) && Covers(e, ops, y.done, s)
  }

  /** How far the shard has got: the owner at configuration `k` has it, that of `k + 1` not yet. */
  ghost predicate Frontier(e: Env, y: System, s: int, k: nat) {
    Reached(e, y, s, k) && !Reached(e, y, s, k + 1)
  }

  /** The copy at the frontier is what the operations so far add up to. */
  ghost predicate FrontierCurrent(e: Env, y: System)
    requires EnvOk(e)
  {
    forall s, k: nat :: 0 <= s < e.nShards && Frontier(e, y, s, k) ==>
      var g := y.groups[Holder(e, k, s)]; Current(e, y, g.shards[s].kv, g.ops, s)
  }

  /** Nothing has been done on a shard whose first owner has not heard of it. */
  ghost predicate Untouched(e: Env, y: System)
    requires y.groups.Keys == e.gids && EnvOk(e)
  {
    forall s, k: nat :: 0 <= s < e.nShards && Holder(e, k, s) == 0 && Holder(e, k + 1, s) != 0
                        && y.groups[Holder(e, k + 1, s)].current.num <= k ==>
      Current(e, y, map[], map[], s)
  }

  ghost predicate StoppedAt(e: Env, y: System, s: int, k: nat) {
    Holder(e, k, s) in y.groups && y.groups[Holder(e, k, s)].current.num > k
  }

  ghost predicate CleanedAt(e: Env, y: System, s: int, k: nat) {
    Holder(e, k, s) in y.groups && Cleaned(y.groups[Holder(e, k, s)], s, k + 1)
  }

  lemma OrderIs(e: Env, y: System)
    requires EnvOk(e) && y.groups.Keys == e.gids
    requires forall s, k: nat :: 0 <= s < e.nShards && Handover(e, s, k) && Reached(e, y, s, k + 1) ==>
                                 StoppedAt(e, y, s, k)
    requires forall s, k: nat :: 0 <= s < e.nShards && Handover(e, s, k) && CleanedAt(e, y, s, k) ==>
                                 Reached(e, y, s, k + 1)
    ensures SourceStopped(e, y) && CleanedLate(e, y)
  {
    hide Holder, Reached;
  }

  // ---- What has been sent

  /** Proposals are for the next configuration, and until it comes every shard stays SERVING. */
  ghost predicate ProposalOk(e: Env, y: System, g: int, config: Config)
    requires g in y.groups
  {
    && config == ConfigAt(e, config.num) && config.num > 0
    && y.groups[g].current.num >= config.num - 1
    && (y.groups[g].current.num == config.num - 1 ==> AllServing(y.groups[g]))
  }

  /** Shard `s` moves from `source` to `puller` with configuration `n`. */
  ghost predicate Moves(e: Env, n: nat, source: int, puller: int, s: int) {
    0 <= s < e.nShards && n > 0 && source != 0 && source != puller && Holder(e, n - 1, s) == source
      && Holder(e, n, s) == puller
  }

  /** A task is about all shards that move between its two groups. */
  ghost predicate TaskOk(e: Env, t: Task) {
    t.ids != [] && Distinct(t.ids) && forall s :: s in t.ids <==> Moves(e, t.configNum, t.source, t.puller, s)
  }

  /** As long as the puller has not inserted the shards, the reply holds their current contents. */
  ghost predicate ReplyOk(e: Env, y: System, r: Reply)
    requires y.groups.Keys == e.gids && EnvOk(e)
  {
    && r.source in y.groups && r.puller in y.groups
    && y.groups[r.source].current.num >= r.data.configNum
    && (forall s <- r.data.shards :: Moves(e, r.data.configNum, r.source, r.puller, s)
                                     && !Reached(e, y, s, r.data.configNum) ==>
          Current(e, y, r.data.shards[s], r.data.ops, s))
  }

  /** The reply is about all shards that move between its two groups, as one that was asked for is. */
  ghost predicate Whole(e: Env, r: Reply) {
    && (forall s :: s in r.data.shards <==> Moves(e, r.data.configNum, r.source, r.puller, s))
    && exists s :: s in r.data.shards
  }

  ghost predicate DeleteOk(e: Env, y: System, t: Task) {
    TaskOk(e, t) && forall s <- t.ids :: Reached(e, y, s, t.configNum)
  }

  ghost predicate SentOk(e: Env, y: System)
    requires EnvOk(e) && Shaped(e, y)
  {
    && (forall c <- y.proposals :: ProposalOk(e, y, c.0, c.1))
    && (forall t <- y.pulls :: TaskOk(e, t))
    && (forall r <- y.replies :: ReplyOk(e, y, r))
    && (forall t <- y.deletes :: DeleteOk(e, y, t))
  }

  ghost predicate GroupsOk(e: Env, y: System)
    requires y.groups.Keys == e.gids
  {
    forall g <- e.gids :: GroupOk(e, g, y.groups[g])
  }

  ghost predicate Inv(e: Env, y: System) {
    && EnvOk(e) && Shaped(e, y)
    && GroupsOk(e, y)
    && SourceStopped(e, y) && CleanedLate(e, y)
    && FrontierCurrent(e, y) && Untouched(e, y)
    && SentOk(e, y)
  }

  // ---- Consequences

  ghost predicate Tidy(e: Env, y: System) {
    && EnvOk(e) && y.groups.Keys == e.gids && (forall g <- e.gids :: |y.groups[g].shards| == e.nShards)
    && SourceStopped(e, y)
  }

  lemma ReachedDown(e: Env, y: System, s: int, k: nat)
    requires Tidy(e, y) && 0 <= s < e.nShards && Reached(e, y, s, k + 1) && Holder(e, k, s) != 0
    ensures Reached(e, y, s, k)
  {
    hide Holder;
    assert Holder(e, k, s) in e.gids;
    assert Handover(e, s, k) <==> Holder(e, k + 1, s) != Holder(e, k, s);
  }

  /** The owners of a shard get it one after the other. */
  lemma {:induction false} ReachedBefore(e: Env, y: System, s: int, k: nat, j: nat)
    requires EnvOk(e) && Tidy(e, y) && 0 <= s < e.nShards && j <= k && Reached(e, y, s, k) && Holder(e, j, s) != 0
    ensures Reached(e, y, s, j)
    decreases k - j
  {
    hide *;
    if j < k {
      HolderStays(e, s, j, k - 1);
      ReachedDown(e, y, s, k - 1);
      ReachedBefore(e, y, s, k - 1, j);
    }
  }

  lemma {:induction false} HolderStays(e: Env, s: int, j: nat, k: nat)
    requires EnvOk(e) && j <= k && Holder(e, j, s) != 0
    ensures Holder(e, k, s) != 0
    decreases k - j
  {
    if j < k { HolderStays(e, s, j + 1, k); }
  }

  lemma TidyOwned(e: Env, y: System, s: int, k: nat)
    requires Tidy(e, y) && Reached(e, y, s, k)
    ensures Holder(e, k, s) != 0
  {
  }

  lemma OneFrontier(e: Env, y: System, s: int, j: nat, k: nat)
    requires EnvOk(e) && Tidy(e, y) && 0 <= s < e.nShards && Frontier(e, y, s, j) && Frontier(e, y, s, k)
    ensures j == k
  {
    hide *;
    FrontierIs(e, y, s, j);
    FrontierIs(e, y, s, k);
    if j < k {
      ReachedBefore(e, y, s, k, j + 1);
    } else if k < j {
      ReachedBefore(e, y, s, j, k + 1);
    }
  }

  lemma FrontierIs(e: Env, y: System, s: int, k: nat)
    requires Tidy(e, y) && Frontier(e, y, s, k)
    ensures Reached(e, y, s, k) && !Reached(e, y, s, k + 1) && Holder(e, k + 1, s) != 0
  {
    TidyOwned(e, y, s, k);
    hide Reached, AllReturn;
    HolderStays(e, s, k, k + 1);
  }

  /** A group that serves a shard is its frontier. */
  lemma ServerAtFrontier(e: Env, y: System, g: int, s: int)
    requires EnvOk(e) && Shaped(e, y) && GroupsOk(e, y) && SourceStopped(e, y)
    requires g in e.gids && 0 <= s < e.nShards && CanServer(y.groups[g], s)
    ensures Holder(e, y.groups[g].current.num, s) == g && Frontier(e, y, s, y.groups[g].current.num)
  {
    hide GroupsOk, SourceStopped, Holder, AllReturn;
    ServerHolds(e, y, g, s);
    NotHandedOver(e, y, g, s);
  }

  lemma ServerHolds(e: Env, y: System, g: int, s: int)
    requires EnvOk(e) && Shaped(e, y) && GroupsOk(e, y) && g in e.gids && 0 <= s < e.nShards
             && CanServer(y.groups[g], s)
    ensures Holder(e, y.groups[g].current.num, s) == g && Reached(e, y, s, y.groups[g].current.num)
  {
    assert GroupOk(e, g, y.groups[g]);
    assert Assigned(e, y.groups[g].current.num, s) == g;
    hide GroupsOk, AllReturn, Together, ShardOk;
  }

  lemma NotHandedOver(e: Env, y: System, g: int, s: int)
    requires EnvOk(e) && y.groups.Keys == e.gids && SourceStopped(e, y) && g in e.gids && 0 <= s < e.nShards
    requires Holder(e, y.groups[g].current.num, s) == g
    ensures !Reached(e, y, s, y.groups[g].current.num + 1)
  {
    hide Holder, AllReturn;
    var n := y.groups[g].current.num;
    assert Handover(e, s, n) <==> Holder(e, n + 1, s) != g;
  }

  /** At any time at most one group serves a shard, however far apart the groups' configurations are. */
  lemma OneServer(e: Env, y: System, g: int, h: int, s: int)
    requires Inv(e, y) && g in e.gids && h in e.gids && 0 <= s < e.nShards
    requires CanServer(y.groups[g], s) && CanServer(y.groups[h], s)
    ensures g == h
  {
    hide GroupsOk, SourceStopped, CleanedLate, FrontierCurrent, Untouched, SentOk, Reached, EnvOk;
    ServerAtFrontier(e, y, g, s);
    ServerAtFrontier(e, y, h, s);
    OneFrontier(e, y, s, y.groups[g].current.num, y.groups[h].current.num);
  }
}
