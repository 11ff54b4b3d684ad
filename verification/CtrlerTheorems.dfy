/** What every Join and Leave, and every run of them, guarantees. */
module CtrlerTheorems {
  import opened Sets
  import opened CtrlerBalance
  import opened CtrlerSpec

  // ---- Join

  /**
   While Join moves shards: what is with an old group (or with none) has not
   moved, old groups are level among themselves, so are new ones, and no new
   group is above an old one.
   */
  ghost predicate Joining(g2s: Lists, a0: seq<int>, a: seq<int>, old_: set<int>, new_: set<int>) {
    && Complete(g2s, a) && |a0| == |a| && old_ !! new_ && 0 !in old_ + new_ && old_ + new_ != {}
    && old_ + new_ <= g2s.Keys <= old_ + new_ + {0}
    && (forall s :: 0 <= s < |a| && a[s] !in new_ ==> a[s] == a0[s])
    && (old_ != {} ==> LoadOf(g2s, 0) == 0)
    && Levels(g2s, old_, new_)
  }

  ghost predicate Levels(g2s: Lists, old_: set<int>, new_: set<int>) {
    && (forall g <- old_, h <- new_ :: LoadOf(g2s, g) >= LoadOf(g2s, h))
    && (forall g <- old_, h <- old_ :: LoadOf(g2s, g) <= LoadOf(g2s, h) + 1)
    && (forall g <- new_, h <- new_ :: LoadOf(g2s, g) <= LoadOf(g2s, h) + 1)
  }

  /** So every move is from an old group, or from no group, to a new one. */
  lemma MoveOldToNew(g2s: Lists, a0: seq<int>, a: seq<int>, old_: set<int>, new_: set<int>)
    requires Joining(g2s, a0, a, old_, new_) && !Done(g2s, |a|)
    ensures MinGid(g2s, |a|) in new_ && (MaxGid(g2s) in old_ || MaxGid(g2s) == 0)
    ensures LoadOf(g2s, MaxGid(g2s)) > 0 && MaxGid(g2s) != MinGid(g2s, |a|)
  {
    var source, target := MaxGid(g2s), MinGid(g2s, |a|);
    MovePossible(g2s, a);
    forall g <- g2s ensures LoadOf(g2s, g) <= |a| { LoadIs(g2s, a, g); }
    var g := SomeElement(old_ + new_);
    assert Candidate(g2s, |a|, g);
    assert target in old_ + new_;
    if source == 0 {
      assert old_ == {};
    }
  }

  lemma LevelStep(g2s: Lists, g2s': Lists, old_: set<int>, new_: set<int>, source: int, target: int)
    requires Levels(g2s, old_, new_) && old_ !! new_ && target in new_ && source !in new_
    requires forall k <- old_ + new_ :: LoadOf(g2s', k) == LoadOf(g2s, k) +
                                        (if k == target then 1 else 0) - (if k == source then 1 else 0)
    requires forall h <- new_ :: LoadOf(g2s, target) <= LoadOf(g2s, h)
    requires source !in old_ ==> old_ == {}
    requires source in old_ ==> LoadOf(g2s, source) >= LoadOf(g2s, target) + 2
                                && forall g <- old_ :: LoadOf(g2s, g) <= LoadOf(g2s, source)
    ensures Levels(g2s', old_, new_)
  {
    hide LoadOf;
  }

  lemma MovedLoads(g2s: Lists, source: int, target: int)
    requires source in g2s && target in g2s && source != target && LoadOf(g2s, source) > 0
    ensures var g2s' := MoveOne(g2s, source, target);
            && g2s'.Keys == g2s.Keys
            && forall k <- g2s :: LoadOf(g2s', k) == LoadOf(g2s, k) +
                                  (if k == target then 1 else 0) - (if k == source then 1 else 0)
  {
  }

  lemma ExtremeLoads(g2s: Lists, a: seq<int>, old_: set<int>, new_: set<int>)
    requires Matches(g2s, a) && 0 !in old_ + new_ && old_ + new_ <= g2s.Keys && MinGid(g2s, |a|) in new_
    ensures forall h <- new_ :: LoadOf(g2s, MinGid(g2s, |a|)) <= LoadOf(g2s, h)
    ensures MaxGid(g2s) != 0 ==> forall g <- old_ :: LoadOf(g2s, g) <= LoadOf(g2s, MaxGid(g2s))
  {
    forall g <- g2s ensures LoadOf(g2s, g) <= |a| { LoadIs(g2s, a, g); }
    forall h <- new_ ensures LoadOf(g2s, MinGid(g2s, |a|)) <= LoadOf(g2s, h) { assert Candidate(g2s, |a|, h); }
  }

  lemma JoinStep(g2s: Lists, a0: seq<int>, a: seq<int>, old_: set<int>, new_: set<int>)
    requires Joining(g2s, a0, a, old_, new_) && !Done(g2s, |a|) && LoadOf(g2s, MaxGid(g2s)) > 0
    ensures var source, target := MaxGid(g2s), MinGid(g2s, |a|);
            var x := At(g2s, source)[0];
            0 <= x < |a| && Joining(MoveOne(g2s, source, target), a0, a[x := target], old_, new_)
  {
    hide Levels, Matches, MoveOne;
    var source, target := MaxGid(g2s), MinGid(g2s, |a|);
    MoveOldToNew(g2s, a0, a, old_, new_);
    MoveOneOk(g2s, a, source, target);
    MovedLoads(g2s, source, target);
    ExtremeLoads(g2s, a, old_, new_);
    hide Complete, LoadOf;
    LevelStep(g2s, MoveOne(g2s, source, target), old_, new_, source, target);
  }

  lemma {:induction false} JoinEnds(g2s: Lists, a0: seq<int>, a: seq<int>, old_: set<int>, new_: set<int>)
    returns (b: seq<int>)
    requires Joining(g2s, a0, a, old_, new_) && Sane(g2s, |a|)
    ensures |b| == |a| && Joining(Rebalance(g2s, |a|), a0, b, old_, new_) && Done(Rebalance(g2s, |a|), |a|)
    decreases LoadOf(g2s, 0), LoadOf(g2s, MaxGid(g2s)), |AtLoad(g2s, LoadOf(g2s, MaxGid(g2s)))|
  {
    if Done(g2s, |a|) {
      b := a;
    } else {
      MoveSane(g2s, |a|);
      JoinStep(g2s, a0, a, old_, new_);
      hide Joining;
      b := JoinEnds(MoveOne(g2s, MaxGid(g2s), MinGid(g2s, |a|)), a0, a[At(g2s, MaxGid(g2s))[0] := MinGid(g2s, |a|)],
                    old_, new_);
    }
  }

  /** The assignment the lists stand for; shards in no list go to 0. */
  ghost predicate Spells(g2s: Lists, b: seq<int>) {
    && (forall s :: 0 <= s < |b| && b[s] in g2s ==> s in g2s[b[s]])
    && (forall s :: 0 <= s < |b| && b[s] !in g2s ==> b[s] == 0)
    && (forall g <- g2s, s :: s in g2s[g] ==> 0 <= s < |b| && b[s] == g)
  }

  lemma SpellsUnique(g2s: Lists, b: seq<int>, c: seq<int>)
    requires Spells(g2s, b) && Spells(g2s, c) && |b| == |c|
    ensures b == c
  {
    forall s | 0 <= s < |b| ensures b[s] == c[s] {}
  }

  lemma CompleteSpells(g2s: Lists, b: seq<int>)
    requires Complete(g2s, b)
    ensures Spells(g2s, b)
  {
    forall s | 0 <= s < |b| ensures b[s] in g2s && s in g2s[b[s]] { assert ListOk(g2s[b[s]], b, b[s]); }
    forall g <- g2s, s | s in g2s[g] ensures 0 <= s < |b| && b[s] == g { assert ListOk(g2s[g], b, g); }
  }

  // ---- Configurations

  /** No group has gid 0, every shard belongs to a live group (or to 0 when there is none), and loads are within one. */
  ghost predicate ConfigOk(c: Config) {
    && |c.shards| > 0 && 0 !in c.groups
    && (c.groups.Keys == {} ==> forall s :: 0 <= s < |c.shards| ==> c.shards[s] == 0)
    && (c.groups.Keys != {} ==> Over(c.shards, c.groups.Keys))
    && Balanced(c.shards, c.groups.Keys)
  }

  ghost predicate IsJoin(c: Config, num: nat, groups: map<int, seq<string>>, c': Config) {
    var g2s := Grouped(c.(groups := groups + c.groups));
    && c'.num == num && c'.groups == groups + c.groups && |c'.shards| == |c.shards|
    && Sane(g2s, |c.shards|)
    && Spells(Rebalance(g2s, |c.shards|), c'.shards)
  }

  lemma GroupedComplete(c: Config)
    requires |c.shards| > 0
    ensures Complete(Grouped(c), c.shards) && Sane(Grouped(c), |c.shards|)
  {
    forall s | 0 <= s < |c.shards| ensures c.shards[s] in Grouped(c) {
      assert s in Below(|c.shards|);
    }
  }

  ghost function Owners(a: seq<int>): set<int> {
    set s | s in Below(|a|) :: a[s]
  }

  lemma OwnersAre(c: Config)
    requires ConfigOk(c)
    ensures Owners(c.shards) <= if c.groups.Keys == {} then {0} else c.groups.Keys
  {
  }

  lemma GroupedFacts(c: Config)
    requires |c.shards| > 0
    ensures var g2s := Grouped(c); Complete(g2s, c.shards) && g2s.Keys == c.groups.Keys + Owners(c.shards)
    ensures var g2s := Grouped(c); forall g <- g2s :: LoadOf(g2s, g) == Load(c.shards, g)
  {
    var g2s := Grouped(c);
    GroupedComplete(c);
    forall g <- g2s ensures LoadOf(g2s, g) == Load(c.shards, g) { LoadIs(g2s, c.shards, g); }
  }

  lemma JoinStarts(c: Config, groups: map<int, seq<string>>)
    requires ConfigOk(c) && 0 !in groups && (groups + c.groups).Keys != {}
    ensures Joining(Grouped(c.(groups := groups + c.groups)), c.shards, c.shards, c.groups.Keys,
                    groups.Keys - c.groups.Keys)
  {
    hide Complete, Levels, LoadOf, Balanced, Grouped, Owners, Over;
    var d := c.(groups := groups + c.groups);
    GroupedFacts(d);
    OwnersAre(c);
    assert d.groups.Keys == c.groups.Keys + groups.Keys;
    StartLevels(c, groups.Keys, Grouped(d));
  }

  lemma StartLevels(c: Config, joining: set<int>, g2s: Lists)
    requires ConfigOk(c) && 0 !in joining && (forall g <- g2s :: LoadOf(g2s, g) == Load(c.shards, g))
    requires c.groups.Keys + joining <= g2s.Keys
    ensures Levels(g2s, c.groups.Keys, joining - c.groups.Keys) && (c.groups.Keys != {} ==> LoadOf(g2s, 0) == 0)
  {
    var old_, new_ := c.groups.Keys, joining - c.groups.Keys;
    forall h <- new_ ensures LoadOf(g2s, h) == 0 { assert ShardsOf(c.shards, h) == {}; }
    if old_ != {} { assert ShardsOf(c.shards, 0) == {}; }
    hide Load;
  }

  /**
   Join keeps configurations good, moves shards only to groups that are new, and moves as few as
   any balanced assignment.
   */
  lemma JoinKeeps(c: Config, num: nat, groups: map<int, seq<string>>, c': Config)
    requires ConfigOk(c) && 0 !in groups && (groups + c.groups).Keys != {} && IsJoin(c, num, groups, c')
    ensures ConfigOk(c')
    ensures forall s :: 0 <= s < |c.shards| && c'.shards[s] != c.shards[s] ==>
              c'.shards[s] in groups && c'.shards[s] !in c.groups && (c.groups.Keys != {} ==> c.shards[s] in c.groups)
    ensures FewestMoves(c.shards, c'.shards, c'.groups.Keys)
  {
    hide Joining, Levels, Complete, Done, FewestMoves, Spells, Grouped, Balanced, Rebalance, Sane;
    var g2s, old_, new_ := Grouped(c.(groups := groups + c.groups)), c.groups.Keys, groups.Keys - c.groups.Keys;
    JoinStarts(c, groups);
    var b := JoinEnds(g2s, c.shards, c.shards, old_, new_);
    var r := Rebalance(g2s, |c.shards|);
    JoinedComplete(r, c.shards, b, old_, new_);
    CompleteSpells(r, b);
    SpellsUnique(r, b, c'.shards);
    EvenWhenDone(r, b);
    JoinedOk(r, c.shards, b, old_, new_);
    assert c'.groups.Keys == old_ + new_;
  }

  lemma JoinedComplete(r: Lists, a0: seq<int>, b: seq<int>, old_: set<int>, new_: set<int>)
    requires Joining(r, a0, b, old_, new_)
    ensures Complete(r, b) && |a0| == |b| && forall s :: 0 <= s < |b| && b[s] !in new_ ==> b[s] == a0[s]
  {
  }

  lemma NoneAtZero(b: seq<int>)
    requires Load(b, 0) == 0
    ensures forall s :: 0 <= s < |b| ==> b[s] != 0
  {
    forall s | 0 <= s < |b| ensures b[s] != 0 {
      assert s in ShardsOf(b, 0) <==> b[s] == 0;
    }
  }

  lemma JoinedOk(r: Lists, a0: seq<int>, b: seq<int>, old_: set<int>, new_: set<int>)
    requires Joining(r, a0, b, old_, new_) && Load(b, 0) == 0 && Balanced(b, r.Keys - {0})
    requires forall s :: 0 <= s < |a0| ==> a0[s] !in new_
    ensures Over(b, old_ + new_) && Balanced(b, old_ + new_) && FewestMoves(a0, b, old_ + new_)
  {
    NoneAtZero(b);
    assert old_ + new_ == r.Keys - {0};
    forall g <- r ensures LoadOf(r, g) == Load(b, g) { LoadIs(r, b, g); }
    MovesAreFewest(a0, b, old_, new_);
  }

  lemma OnlySentinel(g2s: Lists, n: nat)
    requires g2s.Keys <= {0, -1}
    ensures MinGid(g2s, n) == -1
    ensures forall source :: LoadOf(g2s, source) > 0 ==> MoveOne(g2s, source, -1).Keys <= {0, -1}
  {
  }

  /** With no groups at all, Join hands every shard to the sentinel gid -1. */
  lemma {:induction false} JoinWithoutGroups(g2s: Lists, a: seq<int>) returns (b: seq<int>)
    requires Complete(g2s, a) && Sane(g2s, |a|) && g2s.Keys <= {0, -1}
    ensures |b| == |a| && Complete(Rebalance(g2s, |a|), b) && forall s :: 0 <= s < |b| ==> b[s] == -1
    decreases LoadOf(g2s, 0), LoadOf(g2s, MaxGid(g2s)), |AtLoad(g2s, LoadOf(g2s, MaxGid(g2s)))|
  {
    hide Complete, Sane, MoveOne, IsMax, IsMin, Done, Balanced, Load;
    if Done(g2s, |a|) {
      b := a;
      EvenWhenDone(g2s, a);
      AllAtSentinel(g2s, b);
    } else {
      MoveSane(g2s, |a|);
      MovePossible(g2s, a);
      OnlySentinel(g2s, |a|);
      MoveOneOk(g2s, a, MaxGid(g2s), -1);
      b := JoinWithoutGroups(MoveOne(g2s, MaxGid(g2s), -1), a[At(g2s, MaxGid(g2s))[0] := -1]);
    }
  }

  lemma AllAtSentinel(g2s: Lists, b: seq<int>)
    requires Complete(g2s, b) && g2s.Keys <= {0, -1} && Load(b, 0) == 0
    ensures forall s :: 0 <= s < |b| ==> b[s] == -1
  {
    NoneAtZero(b);
  }

  /** So a Join keeps a good configuration good exactly when it leaves some group and names no group 0. */
  lemma JoinExactly(c: Config, num: nat, groups: map<int, seq<string>>, c': Config)
    requires ConfigOk(c) && IsJoin(c, num, groups, c')
    ensures ConfigOk(c') <==> (groups + c.groups).Keys != {} && 0 !in groups
  {
    if 0 in groups {
      assert 0 in c'.groups;
    } else if (groups + c.groups).Keys != {} {
      JoinKeeps(c, num, groups, c');
    } else {
      var d := c.(groups := groups + c.groups);
      GroupedFacts(d);
      OwnersAre(c);
      assert c.groups.Keys <= (groups + c.groups).Keys;
      hide Complete, Grouped, Spells, Owners, Sane, Balanced;
      var b := JoinWithoutGroups(Grouped(d), c.shards);
      CompleteSpells(Rebalance(Grouped(d), |c.shards|), b);
      SpellsUnique(Rebalance(Grouped(d), |c.shards|), b, c'.shards);
      assert c'.shards[0] == -1;
    }
  }

  // ---- Leave

  /** What is left of the lists, and the shards nobody has any more, after dropping the groups `gids` one by one. */
  function DropGroups(g2s: Lists, gids: seq<int>): (Lists, seq<int>) {
    if gids == [] then (g2s, [])
    else
      var g := gids[0];
      if g in g2s then
        var (rest, orphans) := DropGroups(g2s - {g}, gids[1..]);
        (rest, g2s[g] + orphans)
      else DropGroups(g2s, gids[1..])
  }

  /** Each orphan goes to a group with fewest shards. */
  ghost function Adopt(g2s: Lists, orphans: seq<int>, n: nat): Lists
    decreases |orphans|
  {
    if orphans == [] then g2s
    else
      var target := MinGid(g2s, n);
      Adopt(g2s[target := At(g2s, target) + [orphans[0]]], orphans[1..], n)
  }

  /** The orphans are the shards of the groups that are gone, each once. */
  ghost predicate OrphansOk(g2s: Lists, a: seq<int>, orphans: seq<int>, gone: set<int>) {
    && Matches(g2s, a) && Distinct(orphans) && gone !! g2s.Keys
    && forall s :: s in orphans <==> 0 <= s < |a| && a[s] in gone
  }

  lemma {:induction false} DropOk(g2s: Lists, a: seq<int>, gids: seq<int>)
    requires Matches(g2s, a)
    ensures var (rest, orphans) := DropGroups(g2s, gids);
            && rest.Keys == g2s.Keys - Elems(gids)
            && OrphansOk(rest, a, orphans, g2s.Keys * Elems(gids))
    decreases |gids|
  {
    if gids != [] {
      var g, tail := gids[0], gids[1..];
      assert Elems(gids) == {g} + Elems(tail);
      if g in g2s {
        assert ListOk(g2s[g], a, g);
        DropOk(g2s - {g}, a, tail);
        var (rest, orphans) := DropGroups(g2s - {g}, tail);
        JoinLists(g2s[g], orphans);
      } else {
        DropOk(g2s, a, tail);
      }
    }
  }

  // ---- In which order they come

  ghost predicate Ascending(l: seq<int>) {
    forall i, j :: 0 <= i < j < |l| ==> l[i] < l[j]
  }

  /** Group `g` is named before `h` is, if `h` is named at all. */
  ghost predicate Sooner(gids: seq<int>, g: int, h: int) {
    exists p :: 0 <= p < |gids| && gids[p] == g && h !in gids[..p + 1]
  }

  lemma {:induction false} ListingAscends(a: seq<int>, g: int, n: nat)
    requires n <= |a|
    ensures Ascending(Listing(a, g, n)) && forall s <- Listing(a, g, n) :: s < n
  {
    if n > 0 {
      ListingAscends(a, g, n - 1);
      var l := Listing(a, g, n - 1);
      forall i | 0 <= i < |l| ensures l[i] < n - 1 { assert l[i] in l; }
    }
  }

  lemma SoonerAfter(gids: seq<int>, g: int, h: int)
    requires gids != [] && h != gids[0] && Sooner(gids[1..], g, h)
    ensures Sooner(gids, g, h)
  {
    var p :| 0 <= p < |gids[1..]| && gids[1..][p] == g && h !in gids[1..][..p + 1];
    assert gids[..p + 2] == [gids[0]] + gids[1..][..p + 1];
    assert gids[p + 1] == g;
  }

  /** Of two orphans the first has a group that is named sooner, or the same group and a smaller number. */
  ghost predicate OrphanOrder(a: seq<int>, gids: seq<int>, s: int, t: int) {
    0 <= s < |a| && 0 <= t < |a| && (Sooner(gids, a[s], a[t]) || (a[s] == a[t] && s < t))
  }

  lemma {:induction false} DropOrder(g2s: Lists, a: seq<int>, gids: seq<int>, i: int, j: int)
    requires Matches(g2s, a) && forall g <- g2s :: Ascending(g2s[g])
    requires 0 <= i < j < |DropGroups(g2s, gids).1|
    ensures var orphans := DropGroups(g2s, gids).1; OrphanOrder(a, gids, orphans[i], orphans[j])
    decreases |gids|
  {
    hide Sooner;
    DropOk(g2s, a, gids);
    var g, tail, orphans := gids[0], gids[1..], DropGroups(g2s, gids).1;
    var s, t := orphans[i], orphans[j];
    assert s in orphans && t in orphans;
    if g !in g2s {
      DropOrder(g2s, a, tail, i, j);
      if Sooner(tail, a[s], a[t]) { SoonerAfter(gids, a[s], a[t]); }
    } else {
      var first, later := g2s[g], DropGroups(g2s - {g}, tail).1;
      assert ListOk(first, a, g);
      DropOk(g2s - {g}, a, tail);
      if i >= |first| {
        DropOrder(g2s - {g}, a, tail, i - |first|, j - |first|);
        assert t == later[j - |first|] && t in later;
        if Sooner(tail, a[s], a[t]) { SoonerAfter(gids, a[s], a[t]); }
      } else {
        assert s == first[i] && s in first;
        if j < |first| {
          assert t == first[j] && t in first;
        } else {
          assert t == later[j - |first|] && t in later;
          NamedFirst(gids, a[t]);
        }
      }
    }
  }

  lemma NamedFirst(gids: seq<int>, h: int)
    requires gids != [] && h != gids[0]
    ensures Sooner(gids, gids[0], h)
  {
    assert gids[..1] == [gids[0]];
    assert h !in gids[..0 + 1];
  }

  /** Leave hands out the orphans in the order their groups are named, and each group's from the lowest up. */
  lemma OrphansInOrder(c: Config, gids: seq<int>, i: int, j: int)
    requires 0 <= i < j < |DropGroups(Grouped(c), gids).1|
    ensures var orphans := DropGroups(Grouped(c), gids).1; OrphanOrder(c.shards, gids, orphans[i], orphans[j])
  {
    var g2s := Grouped(c);
    forall g <- g2s ensures Ascending(g2s[g]) { ListingAscends(c.shards, g, |c.shards|); }
    DropOrder(g2s, c.shards, gids, i, j);
  }

  // ---- Which shards Join takes

  /** What an old group still has is the end of what it had. */
  ghost predicate Trimmed(g2s0: Lists, g2s: Lists, old_: set<int>) {
    forall g <- old_ :: g in g2s && g in g2s0 && EndOf(g2s0[g], g2s[g])
  }

  ghost predicate EndOf(l: seq<int>, r: seq<int>) {
    |r| <= |l| && r == l[|l| - |r|..]
  }

  lemma TrimStep(g2s0: Lists, g2s: Lists, old_: set<int>, source: int, target: int)
    requires Trimmed(g2s0, g2s, old_) && target !in old_ && source != target && LoadOf(g2s, source) > 0
    ensures Trimmed(g2s0, MoveOne(g2s, source, target), old_)
  {
    var g2s' := MoveOne(g2s, source, target);
    forall g <- old_ ensures g in g2s' && g in g2s0 && EndOf(g2s0[g], g2s'[g]) {
      assert g2s'[g] == if g == source then g2s[g][1..] else g2s[g];
    }
  }

  lemma {:induction false} JoinTrims(g2s0: Lists, g2s: Lists, a0: seq<int>, a: seq<int>, old_: set<int>, new_: set<int>)
    requires Joining(g2s, a0, a, old_, new_) && Sane(g2s, |a|) && Trimmed(g2s0, g2s, old_)
    ensures Trimmed(g2s0, Rebalance(g2s, |a|), old_)
    decreases LoadOf(g2s, 0), LoadOf(g2s, MaxGid(g2s)), |AtLoad(g2s, LoadOf(g2s, MaxGid(g2s)))|
  {
    if !Done(g2s, |a|) {
      var source, target := MaxGid(g2s), MinGid(g2s, |a|);
      MoveSane(g2s, |a|);
      MoveOldToNew(g2s, a0, a, old_, new_);
      JoinStep(g2s, a0, a, old_, new_);
      assert old_ !! new_;
      hide Joining, Trimmed, MoveOne;
      TrimStep(g2s0, g2s, old_, source, target);
      JoinTrims(g2s0, MoveOne(g2s, source, target), a0, a[At(g2s, source)[0] := target], old_, new_);
    }
  }

  /** The shards Join takes from a group are its lowest ones. */
  lemma JoinTakesLowest(c: Config, num: nat, groups: map<int, seq<string>>, c': Config, s: int, t: int)
    requires ConfigOk(c) && 0 !in groups && (groups + c.groups).Keys != {} && IsJoin(c, num, groups, c')
    requires 0 <= s < |c.shards| && 0 <= t < |c.shards| && c.shards[s] == c.shards[t] && c.shards[s] in c.groups
    requires c'.shards[s] != c.shards[s] && c'.shards[t] == c.shards[t]
    ensures s < t
  {
    var d := c.(groups := groups + c.groups);
    var g2s, old_, g := Grouped(d), c.groups.Keys, c.shards[s];
    JoinStarts(c, groups);
    forall k <- old_ ensures k in g2s && EndOf(g2s[k], g2s[k]) { assert k in d.groups; }
    JoinTrims(g2s, g2s, c.shards, c.shards, old_, groups.Keys - old_);
    var r := Rebalance(g2s, |c.shards|);
    ListingAscends(c.shards, g, |c.shards|);
    ListingOk(c.shards, g, |c.shards|);
    hide Joining, Rebalance, Sane, ConfigOk;
    assert EndOf(g2s[g], r[g]) && t in r[g] && s !in r[g];
    FrontLower(g2s[g], r[g], s, t);
  }

  lemma EndHas(l: seq<int>, r: seq<int>, i: int)
    requires EndOf(l, r) && |l| - |r| <= i < |l|
    ensures l[i] in r
  {
    assert l[i] == r[i - (|l| - |r|)];
  }

  lemma FrontLower(l: seq<int>, r: seq<int>, s: int, t: int)
    requires Ascending(l) && EndOf(l, r) && s in l && s !in r && t in r
    ensures s < t
  {
    var i :| 0 <= i < |l| && l[i] == s;
    var j :| 0 <= j < |r| && r[j] == t;
    var k := |l| - |r|;
    assert l[k + j] == t;
    if i >= k {
      EndHas(l, r, i);
      assert false;
    }
  }

  lemma JoinLists(a: seq<int>, b: seq<int>)
    requires Distinct(a) && Distinct(b) && forall s :: s in a ==> s !in b
    ensures Distinct(a + b) && forall s :: s in a + b <==> s in a || s in b
  {
    forall i, j | 0 <= i < j < |a + b| ensures (a + b)[i] != (a + b)[j] {
      if i < |a| <= j { assert a[i] in a && b[j - |a|] in b; }
    }
  }

  /** Orphans land on groups with fewest shards, so what was level stays level, and nobody else moves. */
  lemma {:induction false} AdoptOk(g2s: Lists, a: seq<int>, orphans: seq<int>, gone: set<int>, live: set<int>)
    returns (b: seq<int>)
    requires OrphansOk(g2s, a, orphans, gone) && g2s.Keys == live && live - {0} != {} && Over(a, gone + live)
    ensures |b| == |a| && Matches(Adopt(g2s, orphans, |a|), b) && Adopt(g2s, orphans, |a|).Keys == live
    ensures Over(b, live) && forall s :: 0 <= s < |a| && a[s] in live ==> b[s] == a[s]
    ensures Balanced(a, live) && 0 !in live ==> Balanced(b, live)
    decreases |orphans|
  {
    if orphans == [] {
      b := a;
      assert forall s :: 0 <= s < |a| ==> s !in orphans;
    } else {
      var target, x := MinGid(g2s, |a|), orphans[0];
      assert x in orphans;
      AdoptOne(g2s, a, orphans, gone, live);
      b := AdoptOk(g2s[target := At(g2s, target) + [x]], a[x := target], orphans[1..], gone, live);
    }
  }

  lemma AdoptOne(g2s: Lists, a: seq<int>, orphans: seq<int>, gone: set<int>, live: set<int>)
    requires OrphansOk(g2s, a, orphans, gone) && g2s.Keys == live && live - {0} != {} && Over(a, gone + live)
             && orphans != []
    ensures var target, x := MinGid(g2s, |a|), orphans[0];
            && target in live && 0 <= x < |a| && a[x] in gone
            && OrphansOk(g2s[target := At(g2s, target) + [x]], a[x := target], orphans[1..], gone)
            && Over(a[x := target], gone + live)
            && (Balanced(a, live) && 0 !in live ==> Balanced(a[x := target], live))
  {
    hide Load, Matches, Balanced, Distinct, IsMin, ListOk;
    var target, x := MinGid(g2s, |a|), orphans[0];
    assert x in orphans;
    AdoptTarget(g2s, a, live);
    AdoptedLists(g2s, a, orphans, gone, target);
    if Balanced(a, live) && 0 !in live {
      AdoptedBalance(a, x, target, live);
    }
  }

  lemma AdoptTarget(g2s: Lists, a: seq<int>, live: set<int>)
    requires Matches(g2s, a) && g2s.Keys == live && live - {0} != {}
    ensures MinGid(g2s, |a|) in live && (0 !in live ==> forall h <- live :: Load(a, MinGid(g2s, |a|)) <= Load(a, h))
  {
    forall g <- g2s ensures LoadOf(g2s, g) == Load(a, g) <= |a| { LoadIs(g2s, a, g); }
    var g := SomeElement(live - {0});
    assert Candidate(g2s, |a|, g);
    if 0 !in live { assert forall h <- live :: Candidate(g2s, |a|, h); }
  }

  lemma AdoptedBalance(a: seq<int>, x: int, target: int, live: set<int>)
    requires 0 <= x < |a| && a[x] !in live && target in live && Balanced(a, live)
             && forall h <- live :: Load(a, target) <= Load(a, h)
    ensures Balanced(a[x := target], live)
  {
    forall g <- live ensures Load(a[x := target], g) == Load(a, g) + if g == target
                             then 1 else 0 { LoadMoved(a, x, target, g); }
    hide Load;
  }

  lemma AdoptedLists(g2s: Lists, a: seq<int>, orphans: seq<int>, gone: set<int>, target: int)
    requires OrphansOk(g2s, a, orphans, gone) && orphans != [] && target !in gone
             && (target !in g2s ==> Over(a, gone + g2s.Keys))
    ensures var x := orphans[0];
            0 <= x < |a| && OrphansOk(g2s[target := At(g2s, target) + [x]], a[x := target], orphans[1..], gone)
  {
    var x, rest := orphans[0], orphans[1..];
    assert x in orphans;
    var g2s', a' := g2s[target := At(g2s, target) + [x]], a[x := target];
    forall g <- g2s' ensures ListOk(g2s'[g], a', g) {
      if g in g2s { assert ListOk(g2s[g], a, g); }
      if g == target { AppendedOk(At(g2s, target), a, target, x); }
    }
    forall s ensures s in rest <==> s in orphans && s != x {
      if s in orphans && s != x {
        var j :| 0 <= j < |orphans| && orphans[j] == s;
        assert rest[j - 1] == s;
      }
    }
  }

  ghost predicate IsLeave(c: Config, num: nat, gids: seq<int>, c': Config) {
    var (rest, orphans) := DropGroups(Grouped(c), gids);
    && c'.num == num && c'.groups == c.groups - Elems(gids) && |c'.shards| == |c.shards|
    && (if c'.groups.Keys == {} then forall s :: 0 <= s < |c'.shards| ==> c'.shards[s] == 0
        else Spells(Adopt(rest, orphans, |c.shards|), c'.shards))
  }

  /** Leave keeps configurations good and moves only shards of the groups that leave, which is as few as can be. */
  lemma LeaveKeeps(c: Config, num: nat, gids: seq<int>, c': Config)
    requires ConfigOk(c) && IsLeave(c, num, gids, c')
    ensures ConfigOk(c')
    ensures c'.groups.Keys != {} ==>
              && (forall s :: 0 <= s < |c.shards| && c.shards[s] in c'.groups ==> c'.shards[s] == c.shards[s])
              && FewestMoves(c.shards, c'.shards, c'.groups.Keys)
  {
    hide Balanced, Grouped, Owners, Complete, Matches, DropGroups, Spells, FewestMoves, OrphansOk;
    assert c'.groups.Keys == c.groups.Keys - Elems(gids);
    if c'.groups.Keys == {} {
      AllZero(c'.shards);
    } else {
      var g2s, a, live := Grouped(c), c.shards, c'.groups.Keys;
      GroupedFacts(c);
      OwnersAre(c);
      CompleteMatches(g2s, a);
      DropOk(g2s, a, gids);
      var (rest, orphans) := DropGroups(g2s, gids);
      var gone := g2s.Keys * Elems(gids);
      assert gone + live == c.groups.Keys && live - {0} == live;
      BalancedPart(a, c.groups.Keys, live);
      var b := AdoptOk(rest, a, orphans, gone, live);
      var r := Adopt(rest, orphans, |a|);
      MatchesSpells(r, b);
      SpellsUnique(r, b, c'.shards);
      OnlyOrphansMove(a, b, live);
    }
  }

  lemma AllZero(a: seq<int>)
    ensures Balanced(a, {})
  {
  }

  lemma CompleteMatches(g2s: Lists, a: seq<int>)
    requires Complete(g2s, a)
    ensures Matches(g2s, a)
  {
  }

  lemma MatchesSpells(r: Lists, b: seq<int>)
    requires Matches(r, b) && Over(b, r.Keys) && |b| > 0
    ensures Spells(r, b)
  {
    CompleteSpells(r, b);
  }

  lemma BalancedPart(a: seq<int>, gs: set<int>, part: set<int>)
    requires Balanced(a, gs) && part <= gs
    ensures Balanced(a, part)
  {
  }

  lemma OnlyOrphansMove(a: seq<int>, b: seq<int>, live: set<int>)
    requires |a| == |b| && Over(b, live) && forall s :: 0 <= s < |a| && a[s] in live ==> b[s] == a[s]
    ensures FewestMoves(a, b, live)
  {
    forall c: seq<int> | |c| == |a| && Over(c, live) && Balanced(c, live) ensures |Kept(a, c)| <= |Kept(a, b)| {
      assert Kept(a, c) <= Kept(a, b);
      SubsetSize(Kept(a, c), Kept(a, b));
    }
  }

  // ---- Leave, whatever the configuration

  /** Every orphan ends in some list, and not in that of group 0; nothing else moves. */
  lemma AdoptedComplete(c: Config, gids: seq<int>) returns (b: seq<int>)
    requires |c.shards| > 0
    ensures var (rest, orphans) := DropGroups(Grouped(c), gids);
            |b| == |c.shards| && Complete(Adopt(rest, orphans, |b|), b) && Spells(Adopt(rest, orphans, |b|), b)
    ensures forall s :: 0 <= s < |b| ==> if c.shards[s] in gids then b[s] != 0 else b[s] == c.shards[s]
  {
    hide Matches, DropGroups, Spells, OrphansOk, Grouped, ListOk;
    var g2s := Grouped(c);
    GroupedFacts(c);
    OwnersIn(c, g2s);
    DropOk(g2s, c.shards, gids);
    var (rest, orphans) := DropGroups(g2s, gids);
    var gone := g2s.Keys * Elems(gids);
    assert gone + rest.Keys == g2s.Keys;
    var nowhere := Unused(rest.Keys + {-1});
    var a := Renamed(rest, c.shards, orphans, gone, nowhere);
    b := AdoptAll(rest, a, orphans, nowhere);
    CompleteSpells(Adopt(rest, orphans, |b|), b);
  }

  lemma {:induction false} Unused(gs: set<int>) returns (x: int)
    ensures x !in gs && forall g <- gs :: g < x
  {
    if |gs| == 0 {
      x := 0;
    } else {
      var g := SomeElement(gs);
      x := Unused(gs - {g});
      forall h <- gs ensures h == g || h < x { assert h == g || h in gs - {g}; }
      if x <= g { x := g + 1; }
    }
  }

  /** The orphans under one gid that no list has. */
  lemma Renamed(g2s: Lists, a: seq<int>, orphans: seq<int>, gone: set<int>, nowhere: int) returns (b: seq<int>)
    requires OrphansOk(g2s, a, orphans, gone) && Over(a, gone + g2s.Keys) && nowhere !in g2s
    ensures |b| == |a| && OrphansOk(g2s, b, orphans, {nowhere}) && Over(b, {nowhere} + g2s.Keys)
    ensures forall s :: 0 <= s < |a| ==> b[s] == if a[s] in gone then nowhere else a[s]
  {
    b := seq(|a|, s requires 0 <= s < |a| => if a[s] in gone then nowhere else a[s]);
    forall g <- g2s ensures ListOk(g2s[g], b, g) { assert ListOk(g2s[g], a, g); }
  }

  lemma {:induction false} AdoptAll(g2s: Lists, a: seq<int>, orphans: seq<int>, nowhere: int) returns (b: seq<int>)
    requires OrphansOk(g2s, a, orphans, {nowhere}) && Over(a, {nowhere} + g2s.Keys) && nowhere != -1 && |a| > 0
    ensures |b| == |a| && Complete(Adopt(g2s, orphans, |a|), b)
    ensures forall s :: 0 <= s < |a| ==> if a[s] == nowhere then b[s] != 0 else b[s] == a[s]
    decreases |orphans|
  {
    if orphans == [] {
      b := a;
      forall s | 0 <= s < |a| ensures a[s] in g2s { assert s !in orphans; }
    } else {
      hide IsMin, ListOk;
      var target, x := MinGid(g2s, |a|), orphans[0];
      MinIsListed(g2s, |a|);
      AdoptedLists(g2s, a, orphans, {nowhere}, target);
      b := AdoptAll(g2s[target := At(g2s, target) + [x]], a[x := target], orphans[1..], nowhere);
    }
  }

  lemma MinIsListed(g2s: Lists, n: nat)
    ensures (MinGid(g2s, n) in g2s || MinGid(g2s, n) == -1) && MinGid(g2s, n) != 0
  {
  }

  lemma OwnersIn(c: Config, g2s: Lists)
    requires Complete(g2s, c.shards)
    ensures Over(c.shards, g2s.Keys) && Matches(g2s, c.shards)
  {
  }

  /**
   A Leave that keeps some group moves exactly the shards of the gids it names, and to none of them
   does it give 0.
   */
  lemma LeaveMoves(c: Config, num: nat, gids: seq<int>, c': Config, s: nat)
    requires IsLeave(c, num, gids, c') && s < |c.shards|
    ensures if c'.groups.Keys == {} then c'.shards[s] == 0
            else if c.shards[s] in gids then c'.shards[s] != 0 else c'.shards[s] == c.shards[s]
  {
    if c'.groups.Keys != {} {
      hide Complete, Spells, Grouped, DropGroups, Adopt;
      var b := AdoptedComplete(c, gids);
      var (rest, orphans) := DropGroups(Grouped(c), gids);
      SpellsUnique(Adopt(rest, orphans, |b|), b, c'.shards);
    }
  }

  /** Join leaves no shard with group 0, whatever it starts from. */
  lemma JoinGivesAll(c: Config, num: nat, groups: map<int, seq<string>>, c': Config)
    requires IsJoin(c, num, groups, c') && |c.shards| > 0
    ensures forall s :: 0 <= s < |c'.shards| ==> c'.shards[s] != 0
  {
    hide Complete, Spells, Grouped, Balanced, Sane, Load;
    var g2s := Grouped(c.(groups := groups + c.groups));
    GroupedComplete(c.(groups := groups + c.groups));
    var b := RebalanceEvens(g2s, c.shards);
    CompleteSpells(Rebalance(g2s, |b|), b);
    SpellsUnique(Rebalance(g2s, |b|), b, c'.shards);
    NoneAtZero(b);
  }

  // ---- Live owners, without balance

  /** No group has gid 0, and every shard belongs to a live group, or to 0 when there is none. */
  ghost predicate Live(c: Config) {
    && |c.shards| > 0 && 0 !in c.groups
    && (c.groups.Keys == {} ==> forall s :: 0 <= s < |c.shards| ==> c.shards[s] == 0)
    && (c.groups.Keys != {} ==> Over(c.shards, c.groups.Keys))
  }

  /** As long as there is a group, Join makes up no other. */
  lemma {:induction false} RebalanceKeys(g2s: Lists, a: seq<int>)
    requires Complete(g2s, a) && Sane(g2s, |a|) && g2s.Keys - {0} != {}
    ensures Rebalance(g2s, |a|).Keys == g2s.Keys
    decreases LoadOf(g2s, 0), LoadOf(g2s, MaxGid(g2s)), |AtLoad(g2s, LoadOf(g2s, MaxGid(g2s)))|
  {
    if !Done(g2s, |a|) {
      MoveSane(g2s, |a|);
      MovePossible(g2s, a);
      MoveOneOk(g2s, a, MaxGid(g2s), MinGid(g2s, |a|));
      var g2s' := MoveOne(g2s, MaxGid(g2s), MinGid(g2s, |a|));
      TargetListed(g2s, a);
      RebalanceKeys(g2s', a[At(g2s, MaxGid(g2s))[0] := MinGid(g2s, |a|)]);
    }
  }

  lemma TargetListed(g2s: Lists, a: seq<int>)
    requires Complete(g2s, a) && g2s.Keys - {0} != {} && LoadOf(g2s, MaxGid(g2s)) > 0
    ensures MinGid(g2s, |a|) in g2s && MoveOne(g2s, MaxGid(g2s), MinGid(g2s, |a|)).Keys == g2s.Keys
  {
    var g := SomeElement(g2s.Keys - {0});
    LoadIs(g2s, a, g);
    assert Candidate(g2s, |a|, g);
  }

  lemma JoinLive(c: Config, num: nat, groups: map<int, seq<string>>, c': Config)
    requires Live(c) && 0 !in groups && (groups + c.groups).Keys != {} && IsJoin(c, num, groups, c')
    ensures Live(c')
  {
    hide Complete, Spells, Grouped, Balanced, Sane, Load, Owners;
    var d := c.(groups := groups + c.groups);
    var g2s := Grouped(d);
    assert d.groups.Keys == groups.Keys + c.groups.Keys;
    GroupedFacts(d);
    LiveOwners(c);
    RebalanceKeys(g2s, c.shards);
    var b := RebalanceEvens(g2s, c.shards);
    var r := Rebalance(g2s, |b|);
    OwnersIn(d.(shards := b), r);
    CompleteSpells(r, b);
    SpellsUnique(r, b, c'.shards);
    NoneAtZero(b);
  }

  lemma LiveOwners(c: Config)
    requires Live(c)
    ensures Owners(c.shards) <= if c.groups.Keys == {} then {0} else c.groups.Keys
  {
  }

  lemma LeaveLive(c: Config, num: nat, gids: seq<int>, c': Config)
    requires Live(c) && IsLeave(c, num, gids, c')
    ensures Live(c')
  {
    hide Balanced, Grouped, Owners, Complete, Matches, DropGroups, Spells, OrphansOk;
    assert c'.groups.Keys == c.groups.Keys - Elems(gids);
    if c'.groups.Keys != {} {
      var g2s, a, live := Grouped(c), c.shards, c'.groups.Keys;
      GroupedFacts(c);
      LiveOwners(c);
      CompleteMatches(g2s, a);
      DropOk(g2s, a, gids);
      var (rest, orphans) := DropGroups(g2s, gids);
      var gone := g2s.Keys * Elems(gids);
      assert gone + live == c.groups.Keys && live - {0} == live;
      var b := AdoptOk(rest, a, orphans, gone, live);
      var r := Adopt(rest, orphans, |a|);
      MatchesSpells(r, b);
      SpellsUnique(r, b, c'.shards);
    }
  }
}
