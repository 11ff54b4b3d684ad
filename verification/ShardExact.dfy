/**
 Exactly when the sharded store is safe: shards that nobody has go back to the
 group that had them last. A configuration sequence that breaks this has a run
 in which a group answers wrongly.
 */
module ShardExact {
  import opened ShardGroup
  import opened ShardSystem
  import opened ShardInvariant
  import opened ShardSafety
  import opened ShardProgress

  // ---- Safety of a configuration sequence

  ghost predicate AnswersRight(e: Env, y: System)
    requires WellFormed(e) && Shaped(e, y)
  {
    forall g, args: CommandArgs :: g in e.gids && CanServer(y.groups[g], Key2Shard(args.key, e.nShards)) ==>
      ApplyOperation(y.groups[g], args).1 == ReplyTo(y.store, args)
  }

  ghost predicate OneServes(e: Env, y: System)
    requires WellFormed(e) && Shaped(e, y)
  {
    forall g <- e.gids, h <- e.gids, s ::
      0 <= s < e.nShards && CanServer(y.groups[g], s) && CanServer(y.groups[h], s) ==> g == h
  }

  ghost predicate StateSafe(e: Env, y: System)
    requires WellFormed(e)
  {
    Shaped(e, y) && AnswersRight(e, y) && OneServes(e, y)
  }

  /** In every state of every run every answer is that of one map, and one group at most serves a shard. */
  ghost predicate Safe(e: Env)
    requires WellFormed(e)
  {
    forall ys, acts :: Run(e, ys, acts) ==> forall i :: 0 <= i < |ys| ==> StateSafe(e, ys[i])
  }

  ghost predicate IsWrite(e: Env, c: int, m: int, s: int)
    requires e.nShards > 0
  {
    e.request(c, m).op != Get && Key2Shard(e.request(c, m).key, e.nShards) == s
  }

  /** Clients may write to every shard. */
  ghost predicate Writable(e: Env)
    requires e.nShards > 0
  {
    forall s :: 0 <= s < e.nShards ==> HasWrite(e, s)
  }

  ghost predicate HasWrite(e: Env, s: int)
    requires e.nShards > 0
  {
    exists c, m :: IsWrite(e, c, m, s)
  }

  lemma ReturningIsSafe(e: Env)
    requires EnvOk(e)
    ensures Safe(e)
  {
    hide Run, StateSafe, AllReturn;
    forall ys: seq<System>, acts: seq<Action> | Run(e, ys, acts)
      ensures forall i :: 0 <= i < |ys| ==> StateSafe(e, ys[i])
    {
      forall i | 0 <= i < |ys| ensures StateSafe(e, ys[i]) { EachStateSafe(e, ys, acts, i); }
    }
  }

  lemma EachStateSafe(e: Env, ys: seq<System>, acts: seq<Action>, i: nat)
    requires EnvOk(e) && Run(e, ys, acts) && i < |ys|
    ensures StateSafe(e, ys[i])
  {
    hide Run, AllReturn, ApplyOperation;
    AlwaysTables(e, ys, acts, i);
    var y := ys[i];
    forall g, args: CommandArgs | g in e.gids && CanServer(y.groups[g], Key2Shard(args.key, e.nShards))
      ensures ApplyOperation(y.groups[g], args).1 == ReplyTo(y.store, args)
    {
      AnswersFromStore(e, ys, acts, i, g, args);
    }
    forall g <- e.gids, h <- e.gids, s | 0 <= s < e.nShards && CanServer(y.groups[g], s) && CanServer(y.groups[h], s)
      ensures g == h
    {
      AtMostOneServer(e, ys, acts, i, g, h, s);
    }
  }

  // ---- The configurations up to the first that breaks it

  /** The same configurations, but none after `top`. */
  ghost function Cut(e: Env, top: nat): Env {
    e.(owner := (k: nat) => e.owner(if k <= top then k else top))
  }

  lemma {:induction false} CutHolder(e: Env, top: nat, k: nat, s: int)
    ensures Holder(Cut(e, top), k, s) == Holder(e, if k <= top then k else top, s)
  {
    if k > 0 { CutHolder(e, top, k - 1, s); }
  }

  lemma CutOk(e: Env, top: nat)
    requires WellFormed(e) && forall k: nat, s :: k < top ==> Returns(e, k, s)
    ensures EnvOk(Cut(e, top))
  {
    var d := Cut(e, top);
    forall k: nat, s ensures Holder(d, k, s) == Holder(e, if k <= top then k else top, s) { CutHolder(e, top, k, s); }
    hide Holder;
    assert WellFormed(d);
    forall k: nat, s ensures Returns(d, k, s) {
      if k < top { assert Returns(e, k, s); }
    }
  }

  lemma CutStep(e: Env, top: nat, y: System, a: Action, y': System)
    requires WellFormed(e) && Next(Cut(e, top), y, a, y') && (a.ProposeConfig? ==> Lags(y, a.gid, top))
    ensures Next(e, y, a, y')
  {
    hide WellFormed;
    var d := Cut(e, top);
    assert Shaped(e, y);
    assert Enabled(e, y, a);
  }

  /** A run that never asks for a later configuration does not notice the cut. */
  lemma CutRun(e: Env, top: nat, ys: seq<System>, acts: seq<Action>)
    requires WellFormed(e) && Run(Cut(e, top), ys, acts) && Capped(ys, acts, top)
    ensures Run(e, ys, acts)
  {
    assert IsInit(e, ys[0]);
    hide WellFormed, Next, IsInit, Cut;
    forall i | 0 <= i < |acts| ensures Next(e, ys[i], acts[i], ys[i + 1]) {
      CutStep(e, top, ys[i], acts[i], ys[i + 1]);
    }
  }

  lemma CutReach(e: Env, top: nat, y: System)
    requires WellFormed(e) && Reachable(Cut(e, top), top, y)
    ensures Reachable(e, top + 1, y)
  {
    var ys, acts :| Leads(Cut(e, top), top, ys, acts, y);
    CutRun(e, top, ys, acts);
    assert Leads(e, top + 1, ys, acts, y);
  }

  // ---- Writing, and losing what was written

  lemma InitSettled(e: Env, top: nat) returns (y: System)
    requires EnvOk(e)
    ensures Reachable(e, top, y) && Settled(e, y, 0) && y.done == {}
  {
    var groups := map g | g in e.gids :: Group(g, ConfigAt(e, 0), ConfigAt(e, 0), seq(e.nShards, _ => NewShard()),
                                               map[]);
    y := System(groups, {}, {}, {}, {}, map[], {});
    ReachInit(e, top, y);
  }

  lemma NoTables(e: Env, top: nat, y: System, g: int)
    requires WellFormed(e) && Reachable(e, top, y) && g in e.gids && g in y.groups && y.done == {}
    ensures y.groups[g].ops == map[]
  {
    var ys, acts :| Leads(e, top, ys, acts, y);
    AlwaysTables(e, ys, acts, |ys| - 1);
    var ops := y.groups[g].ops;
    assert TableOk(ops, y.done);
    forall c ensures c !in ops {}
  }

  /** A settled owner takes a first write. */
  lemma WriteAt(e: Env, top: nat, y: System, n: nat, s: int, c: int, m: int) returns (y': System)
    requires EnvOk(e) && Reachable(e, top, y) && Settled(e, y, n) && y.done == {} && 0 <= s < e.nShards
             && Assigned(e, n, s) != 0
    requires IsWrite(e, c, m, s)
    ensures Reachable(e, top, y') && Settled(e, y', n) && e.request(c, m).key in y'.store
  {
    hide Reachable, AllReturn, Inv;
    var g, a := Assigned(e, n, s), CommitOperation(Assigned(e, n, s), c, m);
    assert Holder(e, n, s) == g;
    ReachInv(e, top, y);
    assert GroupOk(e, g, y.groups[g]) by { InvGroup(e, y, g); }
    NoTables(e, top, y, g);
    assert CanServer(y.groups[g], s);
    ReachStep(e, top, y, a);
    y' := Apply(e, y, a);
    hide Holder;
    assert TakesEffect(y.groups[g], e.request(c, m));
    forall h <- e.gids ensures AllServing(y'.groups[h]) && y'.groups[h].current.num == n {}
  }

  lemma InvGroup(e: Env, y: System, g: int)
    requires Inv(e, y) && g in e.gids
    ensures g in y.groups && GroupOk(e, g, y.groups[g])
  {
  }

  /** A shard somebody held was assigned to that group at some configuration. */
  lemma {:induction false} AssignedBefore(e: Env, k: nat, s: int) returns (j: nat)
    requires Holder(e, k, s) != 0
    ensures j <= k && Assigned(e, j, s) == Holder(e, k, s)
  {
    if Assigned(e, k, s) != 0 || k == 0 {
      j := k;
    } else {
      j := AssignedBefore(e, k - 1, s);
    }
  }

  /** Just before the break: everything is settled, the store has something in the shard, and the heir has nothing. */
  lemma BeforeBreak(e: Env, k: nat, s: int, h: int) returns (y: System, key: string)
    requires EnvOk(e) && Writable(e) && 0 <= s < e.nShards && Holder(e, k, s) != 0 && h in e.gids
             && h != Holder(e, k, s)
    ensures Reachable(e, k, y) && Settled(e, y, k) && Shaped(e, y)
    ensures key in y.store && Key2Shard(key, e.nShards) == s && y.groups[h].shards[s].kv == map[]
  {
    hide Reachable, Settled, AllReturn, Inv;
    var j := AssignedBefore(e, k, s);
    assert HasWrite(e, s);
    var c, m :| IsWrite(e, c, m, s);
    key := e.request(c, m).key;
    var y0 := InitSettled(e, k);
    var y1 := SettleAt(e, k, y0, 0, j);
    var y2 := WriteAt(e, k, y1, j, s, c, m);
    y := SettleAt(e, k, y2, j, k);
    ReachInv(e, k, y);
    InvGroup(e, y, h);
    HeirEmpty(e, y, k, h, s);
  }

  lemma HeirEmpty(e: Env, y: System, k: nat, h: int, s: int)
    requires Settled(e, y, k) && h in e.gids && GroupOk(e, h, y.groups[h]) && 0 <= s < e.nShards && Holder(e, k, s) != h
    ensures y.groups[h].shards[s].kv == map[]
  {
    assert ShardOk(e, h, k, s, y.groups[h].shards[s]);
  }

  /** The heir takes the next configuration, serves the shard, and does not find what was written. */
  lemma AfterBreak(e: Env, y: System, k: nat, s: int, h: int, key: string)
    requires WellFormed(e) && Reachable(e, k + 1, y) && Settled(e, y, k) && Shaped(e, y) && h in e.gids
             && 0 <= s < e.nShards
    requires GroupAt(e, h, y.groups[h], k) && Assigned(e, k, s) == 0 && Assigned(e, k + 1, s) == h
    requires key in y.store && Key2Shard(key, e.nShards) == s && y.groups[h].shards[s].kv == map[]
    ensures !Safe(e)
  {
    hide Reachable, Holder;
    var config := ConfigAt(e, k + 1);
    var y1 := Apply(e, y, ProposeConfig(h));
    ReachStep(e, k + 1, y, ProposeConfig(h));
    ShapedKept(e, y, ProposeConfig(h));
    var y2 := Apply(e, y1, CommitConfig(h, config));
    ReachStep(e, k + 1, y1, CommitConfig(h, config));
    ShapedKept(e, y1, CommitConfig(h, config));
    var grp := y2.groups[h];
    assert y.groups[h].shards[s].status == SERVING && y.groups[h].Sized(e.nShards);
    HeirServes(y.groups[h], config, s);
    var args := CommandArgs(key, "", Get, 0, 0);
    assert ApplyOperation(grp, args).1 == CommandReply(ErrNoKey, "") && ReplyTo(y2.store, args).err == OK;
    WrongAnswer(e, k + 1, y2, h, args);
  }

  /** What the group knows of its own configuration. */
  ghost predicate GroupAt(e: Env, gid: int, g: Group, k: nat) {
    g.gid == gid && g.current == ConfigAt(e, k)
  }

  lemma WrongAnswer(e: Env, top: nat, y: System, g: int, args: CommandArgs)
    requires WellFormed(e) && Reachable(e, top, y) && Shaped(e, y) && g in e.gids
    requires CanServer(y.groups[g], Key2Shard(args.key, e.nShards))
             && ApplyOperation(y.groups[g], args).1 != ReplyTo(y.store, args)
    ensures !Safe(e)
  {
    hide WellFormed, Shaped, ApplyOperation, CanServer, ReplyTo, Next, IsInit, OneServes;
    var ys, acts :| Leads(e, top, ys, acts, y);
    assert !AnswersRight(e, y);
    assert !StateSafe(e, ys[|ys| - 1]);
  }

  lemma BreakIsUnsafe(e: Env, k: nat, s: int)
    requires WellFormed(e) && Writable(e) && !Returns(e, k, s) && forall j: nat, t :: j < k ==> Returns(e, j, t)
    ensures !Safe(e)
  {
    hide Reachable, Settled, Safe, Shaped;
    var d, h := Cut(e, k), Assigned(e, k + 1, s);
    CutOk(e, k);
    CutHolder(e, k, k, s);
    assert h in e.gids by { assert Holder(e, k + 1, s) == h; }
    assert Writable(d) by { WritableCut(e, k); }
    hide Writable, WellFormed, AllReturn, Holder, Returns;
    var y, key := BeforeBreak(d, k, s, h);
    CutReach(e, k, y);
    ReachInv(d, k, y);
    InvGroup(d, y, h);
    SettledCut(e, k, y, h);
    AfterBreak(e, y, k, s, h, key);
  }

  lemma WritableCut(e: Env, top: nat)
    requires e.nShards > 0 && Writable(e)
    ensures Writable(Cut(e, top))
  {
    var d := Cut(e, top);
    forall s | 0 <= s < d.nShards ensures HasWrite(d, s) {
      assert HasWrite(e, s);
      var c, m :| IsWrite(e, c, m, s);
      assert IsWrite(d, c, m, s);
    }
  }

  lemma SettledCut(e: Env, top: nat, y: System, h: int)
    requires Settled(Cut(e, top), y, top) && Shaped(Cut(e, top), y) && h in e.gids
             && GroupOk(Cut(e, top), h, y.groups[h])
    ensures Settled(e, y, top) && Shaped(e, y) && GroupAt(e, h, y.groups[h], top)
  {
  }

  lemma {:induction false} FirstBreak(e: Env, k: nat, s: int) returns (k0: nat, s0: int)
    requires !Returns(e, k, s)
    ensures !Returns(e, k0, s0) && forall j: nat, t :: j < k0 ==> Returns(e, j, t)
    decreases k
  {
    hide Returns;
    if j: nat, t :| j < k && !Returns(e, j, t) {
      k0, s0 := FirstBreak(e, j, t);
    } else {
      k0, s0 := k, s;
    }
  }

  /**
   The store is safe exactly when every shard that nobody has goes back to the group that had it
   last, or on to nobody.
   */
  lemma SafeExactly(e: Env)
    requires WellFormed(e) && Writable(e)
    ensures Safe(e) <==> AllReturn(e)
  {
    if AllReturn(e) {
      ReturningIsSafe(e);
    } else {
      var k: nat, s :| !Returns(e, k, s);
      var k0, s0 := FirstBreak(e, k, s);
      BreakIsUnsafe(e, k0, s0);
    }
  }
}
