/**
 How the groups can go on. From every state in which no shard is stranded there
 are steps that bring all groups to any configuration they have not passed, with
 everything settled there; and from a state in which one is there are none.
 */
module ShardProgress {
  import opened Sets
  import opened ShardGroup
  import opened ShardSystem
  import opened ShardInvariant
  import opened ShardSteps
  import opened ShardProof
  import opened ShardSafety
  import opened ShardStranded

  /** No group proposes a configuration beyond `top`. */
  ghost predicate Capped(ys: seq<System>, acts: seq<Action>, top: nat) {
    forall i :: 0 <= i < |acts| && i < |ys| && acts[i].ProposeConfig? ==> Lags(ys[i], acts[i].gid, top)
  }

  ghost predicate Lags(y: System, g: int, top: nat) {
    g in y.groups && y.groups[g].current.num < top
  }

  ghost predicate Leads(e: Env, top: nat, ys: seq<System>, acts: seq<Action>, y: System) {
    Run(e, ys, acts) && Capped(ys, acts, top) && ys[|ys| - 1] == y
  }

  ghost predicate Reachable(e: Env, top: nat, y: System) {
    exists ys, acts :: Leads(e, top, ys, acts, y)
  }

  lemma ReachInit(e: Env, top: nat, y: System)
    requires IsInit(e, y)
    ensures Reachable(e, top, y)
  {
    assert Leads(e, top, [y], [], y);
  }

  lemma ReachInv(e: Env, top: nat, y: System)
    requires EnvOk(e) && Reachable(e, top, y)
    ensures Inv(e, y) && Shaped(e, y)
  {
    var ys, acts :| Leads(e, top, ys, acts, y);
    Always(e, ys, acts, |ys| - 1);
  }

  lemma ReachStep(e: Env, top: nat, y: System, a: Action)
    requires WellFormed(e) && Reachable(e, top, y) && Shaped(e, y) && Enabled(e, y, a)
    requires a.ProposeConfig? ==> Lags(y, a.gid, top)
    ensures Reachable(e, top, Apply(e, y, a))
  {
    hide WellFormed, Shaped, Enabled, Apply, IsInit;
    var ys, acts :| Leads(e, top, ys, acts, y);
    var y' := Apply(e, y, a);
    var ys', acts' := ys + [y'], acts + [a];
    assert Next(e, y, a, y');
    forall i | 0 <= i < |acts'| ensures Next(e, ys'[i], acts'[i], ys'[i + 1]) {}
    assert Leads(e, top, ys', acts', y');
  }

  // ---- From one state to another

  /** Steps from any state; only those of a run that begins at the beginning are known to keep the invariant. */
  ghost predicate Path(e: Env, top: nat, ys: seq<System>, acts: seq<Action>) {
    && |ys| == |acts| + 1 && Capped(ys, acts, top)
    && forall i :: 0 <= i < |acts| ==> Next(e, ys[i], acts[i], ys[i + 1])
  }

  ghost predicate Joins(e: Env, top: nat, ys: seq<System>, acts: seq<Action>, y: System, y': System) {
    Path(e, top, ys, acts) && ys[0] == y && ys[|ys| - 1] == y'
  }

  ghost predicate Lossless(acts: seq<Action>) {
    forall i :: 0 <= i < |acts| ==> !acts[i].LoseDeletes?
  }

  /** Reached without the loss of a request. */
  ghost predicate Reaches(e: Env, top: nat, y: System, y': System) {
    exists ys, acts :: Joins(e, top, ys, acts, y, y') && Lossless(acts)
  }

  lemma ReachesItself(e: Env, top: nat, y: System)
    ensures Reaches(e, top, y, y)
  {
    assert Joins(e, top, [y], [], y, y);
  }

  /** One step more. */
  lemma GoOn(e: Env, top: nat, y0: System, y: System, a: Action)
    requires WellFormed(e) && Reachable(e, top, y) && Reaches(e, top, y0, y) && Shaped(e, y) && Enabled(e, y, a)
    requires (a.ProposeConfig? ==> Lags(y, a.gid, top)) && !a.LoseDeletes?
    ensures Reachable(e, top, Apply(e, y, a)) && Reaches(e, top, y0, Apply(e, y, a))
  {
    hide WellFormed, Shaped, Enabled, Apply, Reachable;
    ReachStep(e, top, y, a);
    var ys, acts :| Joins(e, top, ys, acts, y0, y) && Lossless(acts);
    var y' := Apply(e, y, a);
    var ys', acts' := ys + [y'], acts + [a];
    assert Next(e, y, a, y');
    forall i | 0 <= i < |acts'| ensures Next(e, ys'[i], acts'[i], ys'[i + 1]) {}
    assert Joins(e, top, ys', acts', y0, y');
  }

  lemma PathJoins(e: Env, top: nat, ys: seq<System>, acts: seq<Action>, ys': seq<System>, acts': seq<Action>,
                  y: System, y1: System, y2: System)
    requires Joins(e, top, ys, acts, y, y1) && Joins(e, top, ys', acts', y1, y2)
    ensures |ys'| > 0 && Joins(e, top, ys + ys'[1..], acts + acts', y, y2)
  {
    hide Next;
    var zs, bs := ys + ys'[1..], acts + acts';
    forall i | 0 <= i < |bs| ensures Next(e, zs[i], bs[i], zs[i + 1])
                                     && (bs[i].ProposeConfig? ==> Lags(zs[i], bs[i].gid, top)) {
      if i >= |acts| {
        var k := i - |acts|;
        assert zs[i] == ys'[k] && zs[i + 1] == ys'[k + 1] && bs[i] == acts'[k];
      }
    }
  }

  lemma Chain(e: Env, top: nat, y: System, y1: System, y2: System)
    requires Reaches(e, top, y, y1) && Reaches(e, top, y1, y2)
    ensures Reaches(e, top, y, y2)
  {
    hide Joins;
    var ys, acts :| Joins(e, top, ys, acts, y, y1) && Lossless(acts);
    var ys', acts' :| Joins(e, top, ys', acts', y1, y2) && Lossless(acts');
    PathJoins(e, top, ys, acts, ys', acts', y, y1, y2);
    assert Lossless(acts + acts');
  }

  /** On such a way no shard gets stranded. */
  lemma {:induction false} StillNoneStranded(e: Env, top: nat, ys: seq<System>, acts: seq<Action>, i: nat)
    requires Path(e, top, ys, acts) && Inv(e, ys[0]) && NoneStranded(e, ys[0]) && i < |ys|
    requires Lossless(acts)
    ensures Inv(e, ys[i]) && NoneStranded(e, ys[i])
  {
    hide Inv, Next, Stranded;
    if i > 0 {
      StillNoneStranded(e, top, ys, acts, i - 1);
      assert Next(e, ys[i - 1], acts[i - 1], ys[i - 1 + 1]);
      StepKeeps(e, ys[i - 1], acts[i - 1], ys[i]);
      forall q, s ensures !Stranded(e, ys[i], q, s) {
        if Stranded(e, ys[i], q, s) { OnlyLossStrands(e, ys[i - 1], acts[i - 1], ys[i], q, s); }
      }
    }
  }

  lemma ReachesUnstranded(e: Env, top: nat, y: System, y': System)
    requires Inv(e, y) && NoneStranded(e, y) && Reaches(e, top, y, y')
    ensures NoneStranded(e, y')
  {
    hide Inv, NoneStranded, Path;
    var ys, acts :| Joins(e, top, ys, acts, y, y') && Lossless(acts);
    PathSize(e, top, ys, acts);
    StillNoneStranded(e, top, ys, acts, |ys| - 1);
  }

  lemma PathSize(e: Env, top: nat, ys: seq<System>, acts: seq<Action>)
    requires Path(e, top, ys, acts)
    ensures |ys| == |acts| + 1
  {
  }

  /** On no way at all is a stranded shard released, and its group stays where it is. */
  lemma {:induction false} StrandedForGood(e: Env, top: nat, ys: seq<System>, acts: seq<Action>, i: nat, q: int, s: int)
    requires Path(e, top, ys, acts) && Inv(e, ys[0]) && Stranded(e, ys[0], q, s) && i < |ys|
    ensures Inv(e, ys[i]) && Stranded(e, ys[i], q, s) && ys[i].groups[q].current.num == ys[0].groups[q].current.num
  {
    hide Inv, Next, Past, Pending, Holder;
    if i > 0 {
      StrandedForGood(e, top, ys, acts, i - 1, q, s);
      assert Next(e, ys[i - 1], acts[i - 1], ys[i - 1 + 1]);
      StepKeeps(e, ys[i - 1], acts[i - 1], ys[i]);
      StrandedStays(e, ys[i - 1], acts[i - 1], ys[i], q, s);
    }
  }

  // ---- What changes from state to state

  ghost predicate SameWrites(y: System, y': System) {
    y'.store == y.store && y'.done == y.done
  }

  ghost predicate SameNums(e: Env, y: System, y': System)
    requires y.groups.Keys == e.gids == y'.groups.Keys
  {
    forall g <- e.gids :: y'.groups[g].current.num == y.groups[g].current.num
  }

  /** Every group serves at configuration `n`. */
  ghost predicate Settled(e: Env, y: System, n: nat) {
    y.groups.Keys == e.gids && forall g <- e.gids :: y.groups[g].current.num == n && AllServing(y.groups[g])
  }

  lemma SettledUnstranded(e: Env, y: System, n: nat)
    requires Settled(e, y, n)
    ensures NoneStranded(e, y)
  {
  }

  // ---- A group takes the next configuration

  lemma ConfigureOne(e: Env, top: nat, y: System, n: nat, g: int) returns (y': System)
    requires EnvOk(e) && Reachable(e, top, y) && n < top && g in e.gids && g in y.groups
    requires y.groups[g].current.num == n && AllServing(y.groups[g])
    ensures Reachable(e, top, y') && Reaches(e, top, y, y') && SameWrites(y, y') && y'.groups.Keys == y.groups.Keys
    ensures y'.groups[g].current.num == n + 1 && forall h <- y.groups :: h != g ==> y'.groups[h] == y.groups[h]
  {
    hide Reachable, Reaches, Inv, AllReturn;
    ReachInv(e, top, y);
    ReachesItself(e, top, y);
    var config := ConfigAt(e, n + 1);
    var y1 := Apply(e, y, ProposeConfig(g));
    GoOn(e, top, y, y, ProposeConfig(g));
    ReachInv(e, top, y1);
    y' := Apply(e, y1, CommitConfig(g, config));
    GoOn(e, top, y, y1, CommitConfig(g, config));
  }

  // ---- Shards move

  /** The two groups of a move: the new one is at configuration `n`, the old one has got to it. */
  ghost predicate Between(e: Env, y: System, n: nat, q: int, p: int, s: int) {
    && p in e.gids && q in e.gids && y.groups.Keys == e.gids && Moves(e, n, q, p, s)
    && y.groups[p].current.num == n && y.groups[q].current.num >= n
  }

  /** All shards that satisfy a test, in ascending order. */
  ghost function Listed(n: nat, which: int -> bool): (r: seq<int>)
    ensures Distinct(r) && forall s :: s in r <==> 0 <= s < n && which(s)
  {
    if n == 0 then [] else Listed(n - 1, which) + if which(n - 1) then [n - 1] else []
  }

  /** What `p` asks of `q` about its shards in a status, and that it names all that move between the two. */
  lemma TaskFor(e: Env, y: System, n: nat, q: int, p: int, status: Status, s0: int) returns (t: Task)
    requires Inv(e, y) && Between(e, y, n, q, p, s0) && (status == PULLING || status == GC)
    requires StatusAt(y, p, s0) == status
    ensures t.puller == p && t.source == q && t.configNum == n && Collects(e, y, t, status) && TaskOk(e, t)
            && s0 in t.ids
  {
    var g := y.groups[p];
    assert GroupOk(e, p, g);
    t := Task(p, q, n, Listed(e.nShards, s => InStatus(g, status, q, s)));
    LastMover(e, p, g, q, s0);
    hide Holder, AllReturn, GroupOk;
    assert s0 in t.ids;
    assert Lists(t.ids, s => InStatus(g, status, q, s));
    CollectsAll(e, y, t, status);
  }

  /** After the pull, all shards that move from `q` to `p` are at `p`; nothing else changes. */
  ghost predicate Pulled(e: Env, y: System, n: nat, q: int, p: int, y': System)
    requires Shaped(e, y) && Shaped(e, y')
  {
    forall g <- e.gids, s :: 0 <= s < e.nShards ==>
      StatusAt(y', g, s) == if g == p && Moves(e, n, q, p, s) then GC else StatusAt(y, g, s)
  }

  lemma Pull(e: Env, top: nat, y: System, n: nat, q: int, p: int, s0: int) returns (y': System)
    requires EnvOk(e) && Reachable(e, top, y) && Shaped(e, y) && Between(e, y, n, q, p, s0)
    requires StatusAt(y, p, s0) == PULLING
    ensures Reachable(e, top, y') && Reaches(e, top, y, y') && Shaped(e, y') && SameNums(e, y, y') && SameWrites(y, y')
    ensures Pulled(e, y, n, q, p, y')
  {
    hide Reachable, Reaches, Inv, Holder, WellFormed, AllReturn, Moves, TaskOk;
    var y2, t, r := PullSent(e, top, y, n, q, p, s0);
    ReachInv(e, top, y2);
    assert Lists(t.ids, s => s in r.data.shards);
    y' := Apply(e, y2, CommitInsert(r, t.ids));
    GoOn(e, top, y, y2, CommitInsert(r, t.ids));
    ReachInv(e, top, y');
    PulledStatus(e, y2, t, r, s0);
  }

  lemma PullSent(e: Env, top: nat, y: System, n: nat, q: int, p: int, s0: int) returns (y': System, t: Task, r: Reply)
    requires EnvOk(e) && Reachable(e, top, y) && Shaped(e, y) && Between(e, y, n, q, p, s0)
    requires StatusAt(y, p, s0) == PULLING
    ensures Reachable(e, top, y') && Reaches(e, top, y, y') && y'.groups == y.groups && SameWrites(y, y')
    ensures t in y'.pulls && r in y'.replies && Answers(t, r) && TaskOk(e, t) && s0 in t.ids && Within(t.ids, e.nShards)
            && Distinct(t.ids)
    ensures t.puller == p && t.source == q && t.configNum == n
  {
    hide Reachable, Reaches, Inv, Holder, AllReturn, Moves, Collects;
    ReachInv(e, top, y);
    ReachesItself(e, top, y);
    t := TaskFor(e, y, n, q, p, PULLING, s0);
    var y1 := Apply(e, y, AskPull(t));
    GoOn(e, top, y, y, AskPull(t));
    ReachInv(e, top, y1);
    r := Reply(p, q, Answer(y1.groups[q], n, t.ids));
    y' := Apply(e, y1, AnswerPull(t));
    GoOn(e, top, y, y1, AnswerPull(t));
  }

  lemma PulledStatus(e: Env, y: System, t: Task, r: Reply, s0: int)
    requires Inv(e, y) && TaskOk(e, t) && Answers(t, r) && Within(t.ids, e.nShards) && Given(t.ids, r.data.shards)
    requires t.puller in e.gids && t.configNum == y.groups[t.puller].current.num && s0 in t.ids
             && StatusAt(y, t.puller, s0) == PULLING
    ensures var g := y.groups[t.puller];
            forall s :: 0 <= s < e.nShards ==>
              ApplyInsert(g, r.data, t.ids).shards[s].status == if Moves(e, t.configNum, t.source, t.puller, s)
                then GC else g.shards[s].status
  {
    var g := y.groups[t.puller];
    assert GroupOk(e, t.puller, g);
    hide Inv, GroupOk, Moves, InsertLoop;
    MovedTogether(e, t.puller, g, t.source, t.puller, t.ids);
    SameAsFirst(g, t.ids, s0);
    InsertOutcome(e, t.puller, g, t.source, r.data.shards, t.ids);
  }

  lemma SameAsFirst(g: Group, ids: seq<int>, s: int)
    requires Within(ids, |g.shards|) && s in ids && Share(g.shards, ids, g.shards[ids[0]].status)
    ensures g.shards[s].status == g.shards[ids[0]].status
  {
  }

  /**
   After the release, all shards that moved from `q` to `p` are served at `p` and, unless it has
   gone on, gone at `q`.
   */
  ghost predicate Released(e: Env, y: System, n: nat, q: int, p: int, y': System)
    requires Shaped(e, y) && Shaped(e, y')
  {
    forall g <- e.gids, s :: 0 <= s < e.nShards ==>
      StatusAt(y', g, s) == if (g == p || g == q) && y.groups[g].current.num == n && Moves(e, n, q, p, s)
                            then SERVING else StatusAt(y, g, s)
  }

  lemma Release(e: Env, top: nat, y: System, n: nat, q: int, p: int, s0: int) returns (y': System)
    requires EnvOk(e) && Reachable(e, top, y) && Shaped(e, y) && Between(e, y, n, q, p, s0)
    requires StatusAt(y, p, s0) == GC
    ensures Reachable(e, top, y') && Reaches(e, top, y, y') && Shaped(e, y') && SameNums(e, y, y') && SameWrites(y, y')
    ensures Released(e, y, n, q, p, y')
  {
    hide Reachable, Reaches, Inv, Holder, AllReturn, Moves, Collects;
    ReachInv(e, top, y);
    ReachesItself(e, top, y);
    var t := TaskFor(e, y, n, q, p, GC, s0);
    var y1 := Apply(e, y, AskDelete(t));
    GoOn(e, top, y, y, AskDelete(t));
    ReachInv(e, top, y1);
    var y2 := Apply(e, y1, CommitDelete(q, t));
    GoOn(e, top, y, y1, CommitDelete(q, t));
    ReachInv(e, top, y2);
    y' := Apply(e, y2, CommitDelete(p, t));
    GoOn(e, top, y, y2, CommitDelete(p, t));
    ReachInv(e, top, y');
    if y.groups[q].current.num == n { ReleasedAt(e, y1, t, q, s0); }
    assert p != q by { MoversDiffer(e, n, q, p, s0); }
    ReleasedAt(e, y2, t, p, s0);
  }

  /** A request under way releases its shards at the old group. */
  lemma ReleaseWaiting(e: Env, top: nat, y: System, q: int, s0: int) returns (y': System, p: int)
    requires EnvOk(e) && Reachable(e, top, y) && Shaped(e, y) && q in e.gids && 0 <= s0 < e.nShards
    requires StatusAt(y, q, s0) == BEPULLING && Pending(y, q, y.groups[q].current.num, s0)
    ensures Reachable(e, top, y') && Reaches(e, top, y, y') && Shaped(e, y') && SameNums(e, y, y') && SameWrites(y, y')
    ensures var n := y.groups[q].current.num; Moves(e, n, q, p, s0) && LetOff(e, y, n, q, p, y')
  {
    hide Reachable, Reaches, Inv, Holder, AllReturn, Moves, Collects;
    ReachInv(e, top, y);
    ReachesItself(e, top, y);
    var n := y.groups[q].current.num;
    var t :| t in y.deletes && t.source == q && t.configNum == n && s0 in t.ids;
    p := t.puller;
    TaskMoves(e, y, t, s0);
    assert TaskOk(e, t) by { DeleteTask(e, y, t); }
    y' := Apply(e, y, CommitDelete(q, t));
    GoOn(e, top, y, y, CommitDelete(q, t));
    ReachInv(e, top, y');
    assert p != q by { MoversDiffer(e, n, q, p, s0); }
    ReleasedAt(e, y, t, q, s0);
  }

  lemma DeleteTask(e: Env, y: System, t: Task)
    requires Inv(e, y) && t in y.deletes
    ensures TaskOk(e, t)
  {
    assert DeleteOk(e, y, t);
  }

  ghost predicate LetOff(e: Env, y: System, n: nat, q: int, p: int, y': System)
    requires Shaped(e, y) && Shaped(e, y')
  {
    forall g <- e.gids, s :: 0 <= s < e.nShards ==>
      StatusAt(y', g, s) == if g == q && Moves(e, n, q, p, s) then SERVING else StatusAt(y, g, s)
  }

  lemma MoversDiffer(e: Env, n: nat, q: int, p: int, s: int)
    requires Moves(e, n, q, p, s)
    ensures p != q && 0 <= s < e.nShards
  {
  }

  lemma ReleasedAt(e: Env, y: System, t: Task, g: int, s0: int)
    requires Inv(e, y) && TaskOk(e, t) && Within(t.ids, e.nShards) && (g == t.puller || g == t.source) && g in e.gids
    requires t.configNum == y.groups[g].current.num && s0 in t.ids && (g == t.puller ==> StatusAt(y, g, s0) == GC)
    ensures forall s :: 0 <= s < e.nShards ==>
              ApplyDelete(y.groups[g], t.configNum, t.ids).shards[s].status ==
                if Moves(e, t.configNum, t.source, t.puller, s) then SERVING else y.groups[g].shards[s].status
  {
    var grp := y.groups[g];
    assert GroupOk(e, g, grp);
    hide Inv, GroupOk, Moves, DeleteLoop;
    forall s | s in t.ids ensures 0 <= s < e.nShards && Deleted(grp.shards[s]).status == SERVING {
      if g == t.source {
        WaitsAtSource(e, grp, t, s);
      } else {
        MovedTogether(e, g, grp, t.source, t.puller, t.ids);
        SameAsFirst(grp, t.ids, s);
        SameAsFirst(grp, t.ids, s0);
      }
    }
    DeleteOutcome(e, g, grp, t.source, t.puller, t.ids);
  }

  lemma WaitsAtSource(e: Env, grp: Group, t: Task, s: int)
    requires GroupOk(e, t.source, grp) && TaskOk(e, t) && t.configNum == grp.current.num && s in t.ids
    ensures 0 <= s < e.nShards && (grp.shards[s].status == SERVING || grp.shards[s].status == BEPULLING)
  {
    assert Moves(e, t.configNum, t.source, t.puller, s);
    assert ShardOk(e, t.source, t.configNum, s, grp.shards[s]);
  }

  // ---- Until all is settled

  ghost function Unsettled(e: Env, y: System): set<(int, int)>
    requires Shaped(e, y)
  {
    set g, s | g in e.gids && s in Below(e.nShards) && StatusAt(y, g, s) != SERVING :: (g, s)
  }

  /** Configurations the groups still have to take. */
  ghost function Behind(e: Env, y: System, m: nat): set<(int, int)>
    requires y.groups.Keys == e.gids
  {
    set g, k | g in e.gids && k in Below(m) && y.groups[g].current.num <= k :: (g, k)
  }

  lemma SameBehind(e: Env, y: System, y': System, m: nat)
    requires y.groups.Keys == e.gids == y'.groups.Keys && SameNums(e, y, y')
    ensures Behind(e, y', m) == Behind(e, y, m)
  {
  }

  lemma LessBehind(e: Env, y: System, y': System, m: nat, g: int)
    requires y.groups.Keys == e.gids == y'.groups.Keys && g in e.gids && y.groups[g].current.num < m
    requires y'.groups[g].current.num == y.groups[g].current.num + 1
    requires forall h <- e.gids :: h != g ==> y'.groups[h] == y.groups[h]
    ensures |Behind(e, y', m)| < |Behind(e, y, m)|
  {
    var at := (g, y.groups[g].current.num);
    assert at.1 in Below(m);
    assert at in Behind(e, y, m);
    assert Behind(e, y', m) <= Behind(e, y, m) - {at};
    SubsetSize(Behind(e, y', m), Behind(e, y, m) - {at});
  }

  lemma Fewer(e: Env, y: System, y': System, g: int, s: int)
    requires Shaped(e, y) && Shaped(e, y') && g in e.gids && 0 <= s < e.nShards
    requires StatusAt(y, g, s) != SERVING && StatusAt(y', g, s) == SERVING
    requires forall h <- e.gids, t :: 0 <= t < e.nShards && StatusAt(y, h, t) == SERVING ==>
                                      StatusAt(y', h, t) == SERVING
    ensures |Unsettled(e, y')| < |Unsettled(e, y)|
  {
    assert s in Below(e.nShards);
    assert (g, s) in Unsettled(e, y);
    assert Unsettled(e, y') <= Unsettled(e, y) - {(g, s)};
    SubsetSize(Unsettled(e, y'), Unsettled(e, y) - {(g, s)});
  }

  /** The new group finishes all moves from an old one. */
  lemma FinishMoves(e: Env, top: nat, y: System, n: nat, q: int, p: int, s: int) returns (y': System)
    requires EnvOk(e) && Reachable(e, top, y) && Shaped(e, y) && Between(e, y, n, q, p, s)
    requires StatusAt(y, p, s) == PULLING || StatusAt(y, p, s) == GC
    ensures Reachable(e, top, y') && Reaches(e, top, y, y') && Shaped(e, y') && SameNums(e, y, y') && SameWrites(y, y')
    ensures |Unsettled(e, y')| < |Unsettled(e, y)|
    ensures y.groups[q].current.num == n ==> StatusAt(y', q, s) == SERVING
  {
    hide Reachable, Reaches, EnvOk, Holder, Moves, Unsettled;
    MoversDiffer(e, n, q, p, s);
    var y1 := y;
    ReachesItself(e, top, y);
    if StatusAt(y, p, s) == PULLING { y1 := Pull(e, top, y, n, q, p, s); }
    y' := Release(e, top, y1, n, q, p, s);
    Chain(e, top, y, y1, y');
    Fewer(e, y, y', p, s);
  }

  /** What a group at the lowest configuration is waiting for can be done. */
  lemma SettleOne(e: Env, top: nat, y: System, n: nat, g: int, s: int) returns (y': System)
    requires EnvOk(e) && Reachable(e, top, y) && Shaped(e, y) && NoneStranded(e, y) && g in e.gids && 0 <= s < e.nShards
    requires y.groups[g].current.num == n && StatusAt(y, g, s) != SERVING
             && forall h <- e.gids :: y.groups[h].current.num >= n
    ensures Reachable(e, top, y') && Reaches(e, top, y, y') && Shaped(e, y') && SameNums(e, y, y') && SameWrites(y, y')
    ensures |Unsettled(e, y')| < |Unsettled(e, y)|
  {
    hide Reachable, Reaches, EnvOk, Holder, Moves, Unsettled, Inv;
    ReachInv(e, top, y);
    if StatusAt(y, g, s) == BEPULLING {
      WaitingIs(e, y, g, s);
      var p := Holder(e, n, s);
      assert !Stranded(e, y, g, s);
      if Pending(y, g, n, s) {
        var p';
        y', p' := ReleaseWaiting(e, top, y, g, s);
        Fewer(e, y, y', g, s);
      } else {
        y' := FinishMoves(e, top, y, n, g, p, s);
      }
    } else {
      ArrivingIs(e, y, g, s);
      y' := FinishMoves(e, top, y, n, Holder(e, n - 1, s), g, s);
    }
  }

  lemma ArrivingIs(e: Env, y: System, g: int, s: int)
    requires Inv(e, y) && g in e.gids && 0 <= s < e.nShards && (StatusAt(y, g, s) == PULLING || StatusAt(y, g, s) == GC)
    ensures var n := y.groups[g].current.num; n > 0 && Moves(e, n, Holder(e, n - 1, s), g, s)
                                              && Holder(e, n - 1, s) in e.gids
  {
    hide SourceStopped, CleanedLate, FrontierCurrent, Untouched, SentOk, AllReturn;
    assert GroupOk(e, g, y.groups[g]);
    assert ShardOk(e, g, y.groups[g].current.num, s, y.groups[g].shards[s]);
  }

  lemma {:induction false} Lowest(e: Env, y: System, gs: set<int>) returns (g: int)
    requires y.groups.Keys == e.gids && |gs| > 0 && gs <= e.gids
    ensures g in gs && forall h <- gs :: y.groups[g].current.num <= y.groups[h].current.num
  {
    g := SomeElement(gs);
    if |gs - {g}| > 0 {
      var h := Lowest(e, y, gs - {g});
      forall k <- gs ensures k == g || y.groups[h].current.num <= y.groups[k].current.num {
        assert k == g || k in gs - {g};
      }
      if y.groups[h].current.num < y.groups[g].current.num { g := h; }
    } else {
      assert gs == {g};
    }
  }

  ghost predicate NoneBeyond(e: Env, y: System, m: nat) {
    y.groups.Keys == e.gids && forall g <- e.gids :: y.groups[g].current.num <= m
  }

  /** Unless everything is settled, somebody can go on. */
  lemma SettleMore(e: Env, top: nat, y: System, m: nat) returns (y': System)
    requires EnvOk(e) && Reachable(e, top, y) && Shaped(e, y) && NoneStranded(e, y) && NoneBeyond(e, y, m) && m <= top
    requires !Settled(e, y, m)
    ensures Reachable(e, top, y') && Reaches(e, top, y, y') && Shaped(e, y') && NoneBeyond(e, y', m)
            && SameWrites(y, y')
    ensures || |Behind(e, y', m)| < |Behind(e, y, m)|
            || (Behind(e, y', m) == Behind(e, y, m) && |Unsettled(e, y')| < |Unsettled(e, y)|)
  {
    hide Reachable, Reaches, EnvOk, Inv, Behind, Unsettled, NoneStranded;
    assert |e.gids| > 0;
    var g := Lowest(e, y, e.gids);
    var n := y.groups[g].current.num;
    if h, s :| h in e.gids && 0 <= s < e.nShards && y.groups[h].current.num == n && StatusAt(y, h, s) != SERVING {
      y' := SettleOne(e, top, y, n, h, s);
      SameBehind(e, y, y', m);
    } else {
      assert forall s :: 0 <= s < e.nShards ==> StatusAt(y, g, s) == SERVING;
      LowestBelow(e, y, m, n, g);
      y' := ConfigureOne(e, top, y, n, g);
      ReachInv(e, top, y');
      LessBehind(e, y, y', m, g);
    }
  }

  lemma LowestBelow(e: Env, y: System, m: nat, n: nat, g: int)
    requires Shaped(e, y) && NoneBeyond(e, y, m) && !Settled(e, y, m) && g in e.gids && y.groups[g].current.num == n
    requires forall h <- e.gids :: y.groups[h].current.num >= n
    requires forall h, s :: h in e.gids && 0 <= s < e.nShards && y.groups[h].current.num == n ==>
                            StatusAt(y, h, s) == SERVING
    ensures n < m && AllServing(y.groups[g])
  {
    forall h <- e.gids | y.groups[h].current.num == n ensures AllServing(y.groups[h]) {
      forall s | 0 <= s < e.nShards ensures y.groups[h].shards[s].status == SERVING {
        assert StatusAt(y, h, s) == SERVING;
      }
    }
  }

  /** The groups can reach every configuration they have not passed and have everything settled there. */
  lemma {:induction false} SettleFrom(e: Env, top: nat, y: System, m: nat) returns (y': System)
    requires EnvOk(e) && Reachable(e, top, y) && Shaped(e, y) && NoneStranded(e, y) && NoneBeyond(e, y, m) && m <= top
    ensures Reachable(e, top, y') && Reaches(e, top, y, y') && Settled(e, y', m) && SameWrites(y, y')
    decreases |Behind(e, y, m)|, |Unsettled(e, y)|
  {
    hide Reachable, Reaches, EnvOk, Settled, Behind, Unsettled, NoneStranded, Inv, Shaped;
    if Settled(e, y, m) {
      y' := y;
      ReachesItself(e, top, y);
    } else {
      var y1 := SettleMore(e, top, y, m);
      ReachInv(e, top, y);
      ReachesUnstranded(e, top, y, y1);
      y' := SettleFrom(e, top, y1, m);
      Chain(e, top, y, y1, y');
    }
  }

  lemma SettleAt(e: Env, top: nat, y: System, n: nat, m: nat) returns (y': System)
    requires EnvOk(e) && Reachable(e, top, y) && Settled(e, y, n) && n <= m <= top
    ensures Reachable(e, top, y') && Settled(e, y', m) && SameWrites(y, y')
  {
    hide Reachable, Reaches, EnvOk, Inv;
    ReachInv(e, top, y);
    SettledUnstranded(e, y, n);
    y' := SettleFrom(e, top, y, m);
  }

  // ---- When they can, and when a shard can be released

  /** Some steps, the loss of requests included, settle everything at configuration `m`. */
  ghost predicate CanSettle(e: Env, top: nat, y: System, m: nat) {
    exists ys, acts, y' :: Joins(e, top, ys, acts, y, y') && Settled(e, y', m)
  }

  /** From any state in reach, exactly when no shard is stranded. */
  lemma SettlesExactly(e: Env, top: nat, y: System, m: nat)
    requires EnvOk(e) && Reachable(e, top, y) && NoneBeyond(e, y, m) && m <= top
    ensures CanSettle(e, top, y, m) <==> NoneStranded(e, y)
  {
    hide Reachable, EnvOk, Settled, NoneStranded, Inv, Joins;
    ReachInv(e, top, y);
    if NoneStranded(e, y) {
      var y' := SettleFrom(e, top, y, m);
      var ys, acts :| Joins(e, top, ys, acts, y, y') && Lossless(acts);
    } else {
      forall ys, acts, y' | Joins(e, top, ys, acts, y, y') ensures !Settled(e, y', m) {
        SomeStranded(e, top, y, ys, acts, y', m);
      }
    }
  }

  lemma SomeStranded(e: Env, top: nat, y: System, ys: seq<System>, acts: seq<Action>, y': System, m: nat)
    requires Joins(e, top, ys, acts, y, y') && Inv(e, y) && !NoneStranded(e, y)
    ensures !Settled(e, y', m)
  {
    hide Inv, Path;
    var q, s :| Stranded(e, y, q, s);
    PathSize(e, top, ys, acts);
    StrandedForGood(e, top, ys, acts, |ys| - 1, q, s);
    if Settled(e, y', m) { SettledUnstranded(e, y', m); }
  }

  /** Some steps release a shard at the group it has left. */
  ghost predicate CanRelease(e: Env, top: nat, y: System, q: int, s: int)
    requires q in y.groups && 0 <= s < |y.groups[q].shards|
  {
    exists ys, acts, y' :: Joins(e, top, ys, acts, y, y') && LeftBehind(y', q, s)
  }

  ghost predicate LeftBehind(y: System, q: int, s: int) {
    q in y.groups && 0 <= s < |y.groups[q].shards| && StatusAt(y, q, s) != BEPULLING
  }

  /**
   Once the new group has got to the configuration, a shard waiting at the old one can be released
   exactly as long as it is not stranded: the new group still has it in hand, or a request is under way.
   */
  lemma ReleasedExactly(e: Env, top: nat, y: System, q: int, s: int)
    requires EnvOk(e) && Reachable(e, top, y) && q in e.gids && 0 <= s < e.nShards && q in y.groups
             && s < |y.groups[q].shards|
    requires StatusAt(y, q, s) == BEPULLING
    requires var n := y.groups[q].current.num; var p := Holder(e, n, s); p in y.groups && y.groups[p].current.num >= n
    ensures CanRelease(e, top, y, q, s) <==> !Stranded(e, y, q, s)
  {
    hide Reachable, EnvOk, Inv, Path, Holder, Reaches;
    ReachInv(e, top, y);
    if Stranded(e, y, q, s) {
      forall ys, acts, y' | Joins(e, top, ys, acts, y, y') ensures !LeftBehind(y', q, s) {
        PathSize(e, top, ys, acts);
        StrandedForGood(e, top, ys, acts, |ys| - 1, q, s);
      }
    } else {
      var y' := ReleaseHere(e, top, y, q, s);
      ReachesPath(e, top, y, y', q, s);
    }
  }

  lemma ReleaseHere(e: Env, top: nat, y: System, q: int, s: int) returns (y': System)
    requires EnvOk(e) && Reachable(e, top, y) && Shaped(e, y) && Inv(e, y) && q in e.gids && 0 <= s < e.nShards
    requires StatusAt(y, q, s) == BEPULLING && !Stranded(e, y, q, s)
    requires var n := y.groups[q].current.num; var p := Holder(e, n, s); p in y.groups && y.groups[p].current.num >= n
    ensures Reaches(e, top, y, y') && LeftBehind(y', q, s)
  {
    hide Reachable, EnvOk, Inv, Holder, Reaches, Moves, Unsettled;
    var n := y.groups[q].current.num;
    WaitingIs(e, y, q, s);
    if Pending(y, q, n, s) {
      var p';
      y', p' := ReleaseWaiting(e, top, y, q, s);
    } else {
      y' := FinishMoves(e, top, y, n, q, Holder(e, n, s), s);
    }
  }

  lemma ReachesPath(e: Env, top: nat, y: System, y': System, q: int, s: int)
    requires q in y.groups && 0 <= s < |y.groups[q].shards| && Reaches(e, top, y, y') && LeftBehind(y', q, s)
    ensures CanRelease(e, top, y, q, s)
  {
    hide Path, LeftBehind;
    var ys, acts :| Joins(e, top, ys, acts, y, y') && Lossless(acts);
  }

  /**
   Stranding does happen: as long as the new group has not released a shard, an early OK to its
   request, after which that request is gone, leaves the shard stranded.
   */
  lemma EarlyOkStrands(e: Env, top: nat, y: System, q: int, s: int) returns (ys: seq<System>, acts: seq<Action>)
    requires EnvOk(e) && Reachable(e, top, y) && Shaped(e, y) && q in e.gids && 0 <= s < e.nShards
    requires StatusAt(y, q, s) == BEPULLING
    requires var n := y.groups[q].current.num; var p := Holder(e, n, s);
             p in e.gids && y.groups[p].current.num == n && StatusAt(y, p, s) == GC
    ensures Path(e, top, ys, acts) && ys[0] == y && Stranded(e, ys[|ys| - 1], q, s)
  {
    hide Reachable, Inv, Holder, AllReturn, Moves, Collects;
    ReachInv(e, top, y);
    WaitingIs(e, y, q, s);
    var n := y.groups[q].current.num;
    var p := Holder(e, n, s);
    var t := TaskFor(e, y, n, q, p, GC, s);
    var y1 := Apply(e, y, AskDelete(t));
    ReachStep(e, top, y, AskDelete(t));
    ReachInv(e, top, y1);
    var y2 := Apply(e, y1, CommitDelete(p, t));
    ReachStep(e, top, y1, CommitDelete(p, t));
    ReachInv(e, top, y2);
    var y3 := Apply(e, y2, LoseDeletes(y2.deletes));
    assert p != q by { MoversDiffer(e, n, q, p, s); }
    ReleasedAt(e, y1, t, p, s);
    ys, acts := [y, y1, y2, y3], [AskDelete(t), CommitDelete(p, t), LoseDeletes(y2.deletes)];
  }
}
