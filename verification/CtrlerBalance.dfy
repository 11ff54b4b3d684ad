/**
 Assignments of shards to groups, their loads, and when one of them moves as few
 shards as possible. The number of shards is a parameter.
 */
module CtrlerBalance {
  import opened Sets

  /** The shards an assignment gives to group `g`. */
  ghost function ShardsOf(a: seq<int>, g: int): set<int> {
    set s | s in Below(|a|) && a[s] == g
  }

  ghost function Load(a: seq<int>, g: int): nat { |ShardsOf(a, g)| }

  ghost function ShardsIn(a: seq<int>, gs: set<int>): set<int> {
    set s | s in Below(|a|) && a[s] in gs
  }

  ghost predicate Over(a: seq<int>, gs: set<int>) {
    forall s :: 0 <= s < |a| ==> a[s] in gs
  }

  ghost predicate Balanced(a: seq<int>, gs: set<int>) {
    forall g <- gs, h <- gs :: Load(a, g) <= Load(a, h) + 1
  }

  /** The shards that stay where they are. */
  ghost function Kept(a: seq<int>, b: seq<int>): set<int>
    requires |a| == |b|
  {
    set s | s in Below(|a|) && a[s] == b[s]
  }

  /** No balanced assignment to the groups in `gs` leaves more shards in place. */
  ghost predicate FewestMoves(a: seq<int>, b: seq<int>, gs: set<int>) {
    forall c: seq<int> :: |c| == |a| == |b| && Over(c, gs) && Balanced(c, gs) ==> |Kept(a, c)| <= |Kept(a, b)|
  }

  // ---- Moving one shard

  lemma ShardsMoved(a: seq<int>, s: int, h: int, g: int)
    requires 0 <= s < |a| && a[s] != h
    ensures s in ShardsOf(a, g) <==> a[s] == g
    ensures ShardsOf(a[s := h], g) == if g == h then ShardsOf(a, g) + {s} else ShardsOf(a, g) - {s}
  {
    hide Below;
    forall x ensures x in ShardsOf(a[s := h], g) <==> if x == s then g == h else x in ShardsOf(a, g) {}
  }

  lemma LoadMoved(a: seq<int>, s: int, h: int, g: int)
    requires 0 <= s < |a| && a[s] != h
    ensures Load(a[s := h], g) == Load(a, g) + (if g == h then 1 else 0) - (if g == a[s] then 1 else 0)
  {
    hide ShardsOf;
    ShardsMoved(a, s, h, g);
  }

  // ---- Comparing loads group by group

  lemma {:induction false} MoreInSome(a: seq<int>, b: seq<int>, gs: set<int>) returns (g: int)
    requires |ShardsIn(a, gs)| > |ShardsIn(b, gs)|
    ensures g in gs && Load(a, g) > Load(b, g)
    decreases |gs|
  {
    assert gs == {} ==> ShardsIn(a, gs) == {};
    g := SomeElement(gs);
    if Load(a, g) <= Load(b, g) {
      ShardsInSplit(a, gs, g);
      ShardsInSplit(b, gs, g);
      g := MoreInSome(a, b, gs - {g});
    }
  }

  lemma ShardsInSplit(a: seq<int>, gs: set<int>, g: int)
    requires g in gs
    ensures |ShardsIn(a, gs)| == |ShardsIn(a, gs - {g})| + Load(a, g)
  {
    assert ShardsIn(a, gs) == ShardsIn(a, gs - {g}) + ShardsOf(a, g);
    assert ShardsIn(a, gs - {g}) !! ShardsOf(a, g);
  }

  lemma ShardsInTotal(a: seq<int>, old_: set<int>, new_: set<int>)
    requires Over(a, old_ + new_) && old_ !! new_
    ensures |ShardsIn(a, old_)| + |ShardsIn(a, new_)| == |a|
  {
    assert ShardsIn(a, old_) + ShardsIn(a, new_) == Below(|a|);
    assert ShardsIn(a, old_) !! ShardsIn(a, new_);
  }

  /** Of all balanced assignments, one in which no new group is above an old one leaves most with the old groups. */
  lemma MostWithOld(b: seq<int>, c: seq<int>, old_: set<int>, new_: set<int>)
    requires |b| == |c| && old_ !! new_ && Over(b, old_ + new_) && Over(c, old_ + new_) && Balanced(c, old_ + new_)
    requires forall g <- old_, h <- new_ :: Load(b, g) >= Load(b, h)
    ensures |ShardsIn(c, old_)| <= |ShardsIn(b, old_)|
  {
    ShardsInTotal(b, old_, new_);
    ShardsInTotal(c, old_, new_);
    if |ShardsIn(c, old_)| > |ShardsIn(b, old_)| {
      var g := MoreInSome(c, b, old_);
      var h := MoreInSome(b, c, new_);
      assert false;
    }
  }

  /** If only shards that went to new groups moved, nothing balanced moves fewer. */
  lemma MovesAreFewest(a: seq<int>, b: seq<int>, old_: set<int>, new_: set<int>)
    requires |a| == |b| && old_ !! new_ && Over(b, old_ + new_) && (forall s :: 0 <= s < |a| ==> a[s] !in new_)
    requires forall g <- old_, h <- new_ :: Load(b, g) >= Load(b, h)
    requires forall s :: 0 <= s < |a| && b[s] in old_ ==> b[s] == a[s]
    ensures FewestMoves(a, b, old_ + new_)
  {
    assert Kept(a, b) == ShardsIn(b, old_);
    forall c: seq<int> | |c| == |a| && Over(c, old_ + new_) && Balanced(c, old_ + new_)
      ensures |Kept(a, c)| <= |Kept(a, b)|
    {
      MostWithOld(b, c, old_, new_);
      assert Kept(a, c) <= ShardsIn(c, old_);
      SubsetSize(Kept(a, c), ShardsIn(c, old_));
    }
  }
}
