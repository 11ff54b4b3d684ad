/** Every step of the sharded store keeps the invariant: the groups together. */
module ShardProof {
  import opened ShardGroup
  import opened ShardSystem
  import opened ShardInvariant
  import opened ShardSteps

  // ---- Steps that only send something

  ghost predicate SameState(y: System, y': System) {
    y'.groups == y.groups && y'.store == y.store && y'.done == y.done
  }

  lemma SentKept(e: Env, y: System, y': System)
    requires Inv(e, y) && Shaped(e, y') && SameState(y, y')
    requires forall c <- y'.proposals :: c in y.proposals || ProposalOk(e, y, c.0, c.1)
    requires forall t <- y'.pulls :: t in y.pulls || TaskOk(e, t)
    requires forall r <- y'.replies :: r in y.replies || ReplyOk(e, y, r)
    requires forall t <- y'.deletes :: t in y.deletes || DeleteOk(e, y, t)
    ensures Inv(e, y')
  {
    SameReach(e, y, y');
    assert SourceStopped(e, y') && CleanedLate(e, y') by { hide SentOk, FrontierCurrent, Untouched, GroupsOk, Reached; }
    assert FrontierCurrent(e, y') && Untouched(e, y') by { hide SentOk, GroupsOk, Reached, SourceStopped, CleanedLate; }
    hide Reached, GroupsOk, SourceStopped, CleanedLate, FrontierCurrent, Untouched, EnvOk, Holder, TaskOk, Moves,
         Restrict, Covers;
    forall r <- y'.replies ensures ReplyOk(e, y', r) { assert ReplyOk(e, y, r); }
    forall t <- y'.deletes ensures DeleteOk(e, y', t) { assert DeleteOk(e, y, t); }
    forall c <- y'.proposals ensures ProposalOk(e, y', c.0, c.1) { assert ProposalOk(e, y, c.0, c.1); }
  }

  lemma SameReach(e: Env, y: System, y': System)
    requires y'.groups == y.groups
    ensures forall s, k: nat :: Reached(e, y', s, k) <==> Reached(e, y, s, k)
  {
  }

  lemma ProposeKeeps(e: Env, y: System, g: int)
    requires Inv(e, y) && Enabled(e, y, ProposeConfig(g))
    ensures Inv(e, Apply(e, y, ProposeConfig(g)))
  {
    ShapedKept(e, y, ProposeConfig(g));
    hide GroupsOk, SourceStopped, CleanedLate, FrontierCurrent, Untouched, SentOk, Holder, Shaped;
    SentKept(e, y, Apply(e, y, ProposeConfig(g)));
  }

  /** A task collects every shard that moves between its groups. */
  lemma CollectsAll(e: Env, y: System, t: Task, status: Status)
    requires EnvOk(e) && Shaped(e, y) && GroupsOk(e, y) && Collects(e, y, t, status)
             && (status == PULLING || status == GC)
    ensures TaskOk(e, t)
  {
    var g, n := y.groups[t.puller], t.configNum;
    assert GroupOk(e, t.puller, g);
    CollectedMove(e, g, t, status);
    hide Shaped, EnvOk, GroupsOk, Holder, Assigned;
    forall s | Moves(e, n, t.source, t.puller, s) ensures s in t.ids {
      assert t.ids[0] in t.ids;
      assert SameMove(e, n, s, t.ids[0]);
      assert InStatus(g, status, t.source, t.ids[0]);
      assert InStatus(g, status, t.source, s) by { LastMover(e, t.puller, g, t.source, s); }
    }
  }

  lemma LastIs(e: Env, gid: int, g: Group, s: int)
    requires GroupOk(e, gid, g) && 0 <= s < e.nShards && g.current.num > 0
    ensures g.last.shards[s] == Assigned(e, g.current.num - 1, s)
            && g.current.shards[s] == Assigned(e, g.current.num, s)
  {
  }

  /** A shard that moves was last assigned to the group it moves from. */
  lemma LastMover(e: Env, gid: int, g: Group, source: int, s: int)
    requires EnvOk(e) && GroupOk(e, gid, g) && Moves(e, g.current.num, source, gid, s)
    ensures g.last.shards[s] == source
  {
    LastIs(e, gid, g, s);
    assert Returns(e, g.current.num - 1, s);
  }

  lemma CollectedMove(e: Env, g: Group, t: Task, status: Status)
    requires GroupOk(e, t.puller, g) && Lists(t.ids, s => InStatus(g, status, t.source, s))
             && t.configNum == g.current.num
    requires status == PULLING || status == GC
    ensures forall s <- t.ids :: Moves(e, t.configNum, t.source, t.puller, s)
  {
    forall s <- t.ids ensures Moves(e, t.configNum, t.source, t.puller, s) {
      assert InStatus(g, status, t.source, s);
      assert ShardOk(e, t.puller, g.current.num, s, g.shards[s]);
      LastIs(e, t.puller, g, s);
      assert Assigned(e, g.current.num - 1, s) == Holder(e, g.current.num - 1, s);
    }
  }

  lemma AskPullKeeps(e: Env, y: System, t: Task)
    requires Inv(e, y) && Enabled(e, y, AskPull(t))
    ensures Inv(e, Apply(e, y, AskPull(t)))
  {
    ShapedKept(e, y, AskPull(t));
    CollectsAll(e, y, t, PULLING);
    hide GroupsOk, SourceStopped, CleanedLate, FrontierCurrent, Untouched, SentOk, Holder, Shaped, TaskOk;
    SentKept(e, y, Apply(e, y, AskPull(t)));
  }

  lemma AskDeleteKeeps(e: Env, y: System, t: Task)
    requires Inv(e, y) && Enabled(e, y, AskDelete(t))
    ensures Inv(e, Apply(e, y, AskDelete(t)))
  {
    ShapedKept(e, y, AskDelete(t));
    CollectsAll(e, y, t, GC);
    forall s <- t.ids ensures Reached(e, y, s, t.configNum) {
      assert InStatus(y.groups[t.puller], GC, t.source, s);
      assert Moves(e, t.configNum, t.source, t.puller, s);
    }
    hide GroupsOk, SourceStopped, CleanedLate, FrontierCurrent, Untouched, SentOk, Holder, Shaped, TaskOk, Reached;
    SentKept(e, y, Apply(e, y, AskDelete(t)));
  }

  lemma LoseKeeps(e: Env, y: System, ts: set<Task>)
    requires Inv(e, y) && Enabled(e, y, LoseDeletes(ts))
    ensures Inv(e, Apply(e, y, LoseDeletes(ts)))
  {
    ShapedKept(e, y, LoseDeletes(ts));
    hide GroupsOk, SourceStopped, CleanedLate, FrontierCurrent, Untouched, SentOk, Holder, Shaped, TaskOk, Reached;
    SentKept(e, y, Apply(e, y, LoseDeletes(ts)));
  }

  /**
   A group that has reached the configuration asked for, but whose shard has not been taken over,
   still has its current contents.
   */
  lemma SourceIsFrontier(e: Env, y: System, n: nat, source: int, puller: int, s: int)
    requires EnvOk(e) && Shaped(e, y) && Moves(e, n, source, puller, s) && source in e.gids
    requires y.groups[source].current.num >= n && !Reached(e, y, s, n)
    ensures Frontier(e, y, s, n - 1)
  {
    hide Holder;
  }

  lemma AnswerPullKeeps(e: Env, y: System, t: Task)
    requires Inv(e, y) && Enabled(e, y, AnswerPull(t))
    ensures Inv(e, Apply(e, y, AnswerPull(t)))
  {
    ShapedKept(e, y, AnswerPull(t));
    AnswerOk(e, y, t);
    hide GroupsOk, SourceStopped, CleanedLate, FrontierCurrent, Untouched, SentOk, Holder, Shaped, TaskOk, ReplyOk;
    SentKept(e, y, Apply(e, y, AnswerPull(t)));
  }

  lemma AnswerOk(e: Env, y: System, t: Task)
    requires EnvOk(e) && Shaped(e, y) && FrontierCurrent(e, y) && TaskShaped(e, t)
    requires y.groups[t.source].current.num >= t.configNum
    ensures ReplyOk(e, y, Reply(t.puller, t.source, Answer(y.groups[t.source], t.configNum, t.ids)))
  {
    hide Holder, Reached, Restrict, Covers;
    var g := y.groups[t.source];
    var r := Reply(t.puller, t.source, Answer(g, t.configNum, t.ids));
    forall s <- r.data.shards | Moves(e, t.configNum, t.source, t.puller, s) && !Reached(e, y, s, r.data.configNum)
      ensures Current(e, y, r.data.shards[s], r.data.ops, s)
    {
      SourceIsFrontier(e, y, t.configNum, t.source, t.puller, s);
      assert Frontier(e, y, s, t.configNum - 1);
    }
  }

  // ---- A group's table of operations grows

  ghost predicate Recalls(ops: Operations, ops': Operations) {
    forall c, m :: IsDuplicate(ops, c, m) ==> IsDuplicate(ops', c, m)
  }

  lemma MergeRecalls(mine: Operations, theirs: Operations)
    ensures Recalls(mine, MergeOps(mine, theirs)) && Recalls(theirs, MergeOps(mine, theirs))
  {
  }

  ghost predicate SameSent(y: System, y': System) {
    y'.proposals == y.proposals && y'.pulls == y.pulls && y'.replies == y.replies && y'.deletes == y.deletes
  }

  /** Group `g` of `y'` differs from that of `y` in its table only. */
  lemma TableKeeps(e: Env, y: System, g: int, ops': Operations)
    requires Inv(e, y) && g in e.gids && Recalls(y.groups[g].ops, ops')
    ensures Inv(e, WithGroup(y, g, y.groups[g].(ops := ops')))
  {
    var y' := WithGroup(y, g, y.groups[g].(ops := ops'));
    hide Holder, Reached, GroupsOk, SourceStopped, CleanedLate, FrontierCurrent, Untouched, SentOk, EnvOk;
    TableGroups(e, y, g, ops');
    TableOrder(e, y, g, ops');
    TableFrontier(e, y, g, ops');
    TableSent(e, y, g, ops');
  }

  lemma TableOrder(e: Env, y: System, g: int, ops': Operations)
    requires EnvOk(e) && y.groups.Keys == e.gids && g in e.gids && SourceStopped(e, y) && CleanedLate(e, y)
             && Untouched(e, y)
    ensures var y' := WithGroup(y, g, y.groups[g].(ops := ops'));
              SourceStopped(e, y') && CleanedLate(e, y') && Untouched(e, y')
  {
    TableReach(e, y, g, ops');
    hide Reached, Holder, Restrict, Covers;
  }

  lemma TableSent(e: Env, y: System, g: int, ops': Operations)
    requires EnvOk(e) && Shaped(e, y) && g in e.gids && SentOk(e, y)
    requires Shaped(e, WithGroup(y, g, y.groups[g].(ops := ops')))
    ensures SentOk(e, WithGroup(y, g, y.groups[g].(ops := ops')))
  {
    var y' := WithGroup(y, g, y.groups[g].(ops := ops'));
    TableReach(e, y, g, ops');
    hide Reached, Holder, TaskOk, Moves, Restrict, Covers, EnvOk;
    forall c <- y'.proposals ensures ProposalOk(e, y', c.0, c.1) { assert ProposalOk(e, y, c.0, c.1); }
    forall r <- y'.replies ensures ReplyOk(e, y', r) { assert ReplyOk(e, y, r); }
    forall t <- y'.deletes ensures DeleteOk(e, y', t) { assert DeleteOk(e, y, t); }
  }

  lemma TableReach(e: Env, y: System, g: int, ops': Operations)
    requires g in y.groups
    ensures forall s, k: nat :: Reached(e, WithGroup(y, g, y.groups[g].(ops := ops')), s, k) <==> Reached(e, y, s, k)
  {
  }

  lemma TableGroups(e: Env, y: System, g: int, ops': Operations)
    requires y.groups.Keys == e.gids && g in e.gids && GroupsOk(e, y)
    ensures GroupsOk(e, WithGroup(y, g, y.groups[g].(ops := ops')))
  {
    hide Holder;
    var y' := WithGroup(y, g, y.groups[g].(ops := ops'));
    forall h <- e.gids ensures GroupOk(e, h, y'.groups[h]) {
      assert GroupOk(e, h, y.groups[h]);
    }
  }

  lemma TableFrontier(e: Env, y: System, g: int, ops': Operations)
    requires EnvOk(e) && y.groups.Keys == e.gids && g in e.gids && Recalls(y.groups[g].ops, ops')
             && FrontierCurrent(e, y)
    ensures FrontierCurrent(e, WithGroup(y, g, y.groups[g].(ops := ops')))
  {
    hide Holder, Restrict, IsDuplicate;
    var y' := WithGroup(y, g, y.groups[g].(ops := ops'));
    forall s, k: nat | 0 <= s < e.nShards && Frontier(e, y', s, k)
      ensures var h := y'.groups[Holder(e, k, s)]; Current(e, y', h.shards[s].kv, h.ops, s)
    {
      TableReach(e, y, g, ops');
      assert Frontier(e, y, s, k);
    }
  }

  // ---- A group inserts the shards it pulled

  /** The shards in `data`, all being pulled by `p`, are there now. */
  ghost predicate Acquires(e: Env, y: System, p: int, source: int, data: map<int, map<string, string>>, y': System)
    requires EnvOk(e) && y.groups.Keys == e.gids
  {
    && p in e.gids && source in e.gids && y.groups[source].current.num >= y.groups[p].current.num
    && y'.groups.Keys == e.gids
    && (forall g <- e.gids :: g != p ==> y'.groups[g] == y.groups[g])
    && Inserted(y.groups[p], data, y'.groups[p].shards)
    && y'.groups[p] == y.groups[p].(shards := y'.groups[p].shards)
    && (forall s :: s in data <==> Moves(e, y.groups[p].current.num, source, p, s))
    && (exists s :: s in data)
    && (forall s <- data :: Current(e, y, data[s], y.groups[p].ops, s))
    && y'.store == y.store && y'.done == y.done && SameSent(y, y')
  }

  lemma AcquireReach(e: Env, y: System, p: int, source: int, data: map<int, map<string, string>>, y': System)
    requires EnvOk(e) && y.groups.Keys == e.gids && Acquires(e, y, p, source, data, y')
    ensures forall s, k: nat :: Reached(e, y', s, k) <==>
                                Reached(e, y, s, k) || (s in data && k == y.groups[p].current.num)
    ensures forall s :: s in data ==> !Reached(e, y, s, y.groups[p].current.num)
  {
    hide Holder, Current;
    forall s, k: nat ensures Reached(e, y', s, k) <==>
                             Reached(e, y, s, k) || (s in data && k == y.groups[p].current.num) {
      if s in data { assert Moves(e, y.groups[p].current.num, source, p, s); }
    }
    forall s | s in data ensures !Reached(e, y, s, y.groups[p].current.num) {
      assert Moves(e, y.groups[p].current.num, source, p, s);
    }
  }

  lemma AcquireOrder(e: Env, y: System, p: int, source: int, data: map<int, map<string, string>>, y': System)
    requires EnvOk(e) && y.groups.Keys == e.gids && Acquires(e, y, p, source, data, y')
    requires SourceStopped(e, y) && CleanedLate(e, y)
    ensures SourceStopped(e, y') && CleanedLate(e, y')
  {
    hide *;
    AcquireKeys(e, y, p, source, data, y');
    forall s, k: nat | 0 <= s < e.nShards && Handover(e, s, k) && Reached(e, y', s, k + 1)
      ensures StoppedAt(e, y', s, k)
    {
      AcquireStopped(e, y, p, source, data, y', s, k);
    }
    forall s, k: nat | 0 <= s < e.nShards && Handover(e, s, k) && CleanedAt(e, y', s, k)
      ensures Reached(e, y', s, k + 1)
    {
      AcquireCleaned(e, y, p, source, data, y', s, k);
    }
    OrderIs(e, y');
  }

  lemma AcquireKeys(e: Env, y: System, p: int, source: int, data: map<int, map<string, string>>, y': System)
    requires EnvOk(e) && y.groups.Keys == e.gids && Acquires(e, y, p, source, data, y')
    ensures y'.groups.Keys == e.gids
  {
  }

  lemma AcquireStopped(e: Env, y: System, p: int, source: int, data: map<int, map<string, string>>, y': System, s: int,
                       k: nat)
    requires EnvOk(e) && y.groups.Keys == e.gids && Acquires(e, y, p, source, data, y') && SourceStopped(e, y)
    requires 0 <= s < e.nShards && Handover(e, s, k) && Reached(e, y', s, k + 1)
    ensures StoppedAt(e, y', s, k)
  {
    hide Holder, Reached, Current, AllReturn;
    AcquireReach(e, y, p, source, data, y');
    if !Reached(e, y, s, k + 1) { assert Moves(e, k + 1, source, p, s); }
  }

  lemma AcquireCleaned(e: Env, y: System, p: int, source: int, data: map<int, map<string, string>>, y': System, s: int,
                       k: nat)
    requires EnvOk(e) && y.groups.Keys == e.gids && Acquires(e, y, p, source, data, y') && CleanedLate(e, y)
    requires 0 <= s < e.nShards && Handover(e, s, k) && CleanedAt(e, y', s, k)
    ensures Reached(e, y', s, k + 1)
  {
    hide Holder, Reached, Current, AllReturn;
    AcquireReach(e, y, p, source, data, y');
    if s in data { assert Moves(e, y.groups[p].current.num, source, p, s); }
    if !Cleaned(y.groups[Holder(e, k, s)], s, k + 1) {
      assert Holder(e, k, s) == p;
    }
  }

  lemma AcquireFrontier(e: Env, y: System, p: int, source: int, data: map<int, map<string, string>>, y': System)
    requires Tidy(e, y) && Acquires(e, y, p, source, data, y') && FrontierCurrent(e, y)
    ensures FrontierCurrent(e, y')
  {
    AcquireReach(e, y, p, source, data, y');
    var n := y.groups[p].current.num;
    forall s, k: nat | 0 <= s < e.nShards && Frontier(e, y', s, k)
      ensures var h := y'.groups[Holder(e, k, s)]; Current(e, y', h.shards[s].kv, h.ops, s)
    {
      if s in data {
        assert Moves(e, n, source, p, s);
        AcquiredFrontier(e, y, p, source, data, y', s, k);
      } else {
        hide Holder, Reached, Restrict, Covers;
        assert Frontier(e, y, s, k);
      }
    }
  }

  /** The frontier of an inserted shard is where it was inserted. */
  lemma AcquiredFrontier(e: Env, y: System, p: int, source: int, data: map<int, map<string, string>>, y': System,
                         s: int, k: nat)
    requires EnvOk(e) && y.groups.Keys == e.gids && Tidy(e, y) && Acquires(e, y, p, source, data, y')
    requires s in data && 0 <= s < e.nShards && Frontier(e, y', s, k)
    ensures k == y.groups[p].current.num && Holder(e, k, s) == p
  {
    hide Tidy, Reached, EnvOk;
    var n := y.groups[p].current.num;
    AcquireReach(e, y, p, source, data, y');
    SourceReached(e, y, p, source, data, y', s);
    PinFrontier(e, y, s, n, k);
  }

  lemma SourceReached(e: Env, y: System, p: int, source: int, data: map<int, map<string, string>>, y': System, s: int)
    requires Tidy(e, y) && Acquires(e, y, p, source, data, y') && s in data
    ensures var n := y.groups[p].current.num; n > 0 && Reached(e, y, s, n - 1) && Holder(e, n, s) == p != 0
  {
    hide Holder;
    assert Moves(e, y.groups[p].current.num, source, p, s);
  }

  /** Once the owner at `n - 1` has the shard, only `n` is left to be the frontier after the owner at `n` got it. */
  lemma PinFrontier(e: Env, y: System, s: int, n: nat, k: nat)
    requires EnvOk(e) && Tidy(e, y) && 0 <= s < e.nShards && n > 0 && Reached(e, y, s, n - 1) && !Reached(e, y, s, n)
             && Holder(e, n, s) != 0
    requires (k == n || Reached(e, y, s, k)) && k + 1 != n && !Reached(e, y, s, k + 1)
    ensures k == n
  {
    hide *;
    if k > n {
      ReachedBefore(e, y, s, k, n);
    } else if k < n - 1 {
      TidyOwned(e, y, s, k);
      HolderStays(e, s, k, k + 1);
      ReachedBefore(e, y, s, n - 1, k + 1);
    }
  }

  lemma AcquireSent(e: Env, y: System, p: int, source: int, data: map<int, map<string, string>>, y': System)
    requires EnvOk(e) && Shaped(e, y) && Shaped(e, y') && SentOk(e, y) && Acquires(e, y, p, source, data, y')
    ensures SentOk(e, y')
  {
    AcquireReach(e, y, p, source, data, y');
    hide Holder, Reached, TaskOk, Moves, Restrict, Covers;
    forall c <- y'.proposals ensures ProposalOk(e, y', c.0, c.1) {
      assert ProposalOk(e, y, c.0, c.1);
      var s :| s in data;
      assert !AllServing(y.groups[p]);
    }
    forall r <- y'.replies ensures ReplyOk(e, y', r) { assert ReplyOk(e, y, r); }
    forall t <- y'.deletes ensures DeleteOk(e, y', t) { assert DeleteOk(e, y, t); }
  }

  lemma AcquireKeeps(e: Env, y: System, p: int, source: int, data: map<int, map<string, string>>, y': System)
    requires Inv(e, y) && Shaped(e, y') && Acquires(e, y, p, source, data, y')
    ensures Inv(e, y')
  {
    InsertGroupOk(e, p, y.groups[p], source, data, y'.groups[p].shards);
    assert Tidy(e, y) by { hide GroupsOk, SentOk, Holder, Reached, FrontierCurrent; }
    assert GroupsOk(e, y') by { hide GroupOk, SourceStopped, CleanedLate, FrontierCurrent, Untouched, SentOk, EnvOk; }
    assert Untouched(e, y') by { hide GroupsOk, SourceStopped, CleanedLate, FrontierCurrent, SentOk, EnvOk, Holder,
                                 Restrict, Covers; }
    hide GroupsOk, SourceStopped, CleanedLate, FrontierCurrent, Untouched, SentOk, Acquires, EnvOk, Shaped;
    AcquireOrder(e, y, p, source, data, y');
    AcquireFrontier(e, y, p, source, data, y');
    AcquireSent(e, y, p, source, data, y');
  }
}
