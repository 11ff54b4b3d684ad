/** What Join and Leave of the shard controller compute (src/shardctrler/stateMachine.go). */
module CtrlerSpec {
  import opened Sets
  import opened CtrlerBalance

  datatype Config = Config(num: nat, shards: seq<int>, groups: map<int, seq<string>>)

  /** For each group, its shards in the order they came. */
  type Lists = map<int, seq<int>>

  function At(g2s: Lists, g: int): seq<int> {
    if g in g2s then g2s[g] else []
  }

  function LoadOf(g2s: Lists, g: int): nat { |At(g2s, g)| }

  /** The lists hold, for each of their groups, exactly the shards assigned to it. */
  ghost predicate Matches(g2s: Lists, a: seq<int>) {
    forall g <- g2s :: ListOk(g2s[g], a, g)
  }

  ghost predicate ListOk(l: seq<int>, a: seq<int>, g: int) {
    Distinct(l) && forall s :: s in l <==> 0 <= s < |a| && a[s] == g
  }

  lemma LoadIs(g2s: Lists, a: seq<int>, g: int)
    requires Matches(g2s, a) && g in g2s
    ensures |g2s[g]| == Load(a, g) <= |a|
  {
    assert ListOk(g2s[g], a, g);
    ElemsSize(g2s[g]);
    assert Elems(g2s[g]) == ShardsOf(a, g);
    SubsetSize(ShardsOf(a, g), Below(|a|));
  }

  // ---- Which group has most, which has least

  /** getGidWithMaxShards: unassigned shards come first; ties go to the smallest gid. */
  ghost predicate IsMax(g2s: Lists, g: int) {
    if LoadOf(g2s, 0) > 0 then g == 0
    else if g2s.Keys == {} then g == -1
    else g in g2s && forall k <- g2s :: LoadOf(g2s, k) < LoadOf(g2s, g) || (LoadOf(g2s, k) == LoadOf(g2s, g) && g <= k)
  }

  predicate Candidate(g2s: Lists, n: nat, k: int) {
    k in g2s && k != 0 && LoadOf(g2s, k) <= n
  }

  /** getGidWithMinShards: group 0 does not count; -1 when there is none. */
  ghost predicate IsMin(g2s: Lists, n: nat, g: int) {
    if forall k <- g2s :: !Candidate(g2s, n, k) then g == -1
    else Candidate(g2s, n, g) && forall k <- g2s :: Candidate(g2s, n, k) ==>
                                                    LoadOf(g2s, g) < LoadOf(g2s, k)
                                                      || (LoadOf(g2s, g) == LoadOf(g2s, k) && g <= k)
  }

  lemma {:induction false} Extreme(g2s: Lists, keys: set<int>, most: bool) returns (g: int)
    requires keys <= g2s.Keys && keys != {}
    ensures g in keys
    ensures forall k <- keys ::
              || (if most then LoadOf(g2s, k) < LoadOf(g2s, g) else LoadOf(g2s, g) < LoadOf(g2s, k))
              || (LoadOf(g2s, k) == LoadOf(g2s, g) && g <= k)
    decreases |keys|
  {
    g := SomeElement(keys);
    if keys != {g} {
      var rest := keys - {g};
      assert keys == rest + {g};
      var h := Extreme(g2s, rest, most);
      var better := if most then LoadOf(g2s, h) > LoadOf(g2s, g) else LoadOf(g2s, h) < LoadOf(g2s, g);
      if better || (LoadOf(g2s, h) == LoadOf(g2s, g) && h < g) { g := h; }
    }
  }

  ghost function MaxGid(g2s: Lists): (g: int)
    ensures IsMax(g2s, g)
  {
    MaxExists(g2s);
    var g :| IsMax(g2s, g);
    g
  }

  lemma MaxExists(g2s: Lists)
    ensures exists g :: IsMax(g2s, g)
  {
    if LoadOf(g2s, 0) > 0 {
      assert IsMax(g2s, 0);
    } else if g2s.Keys == {} {
      assert IsMax(g2s, -1);
    } else {
      var g := Extreme(g2s, g2s.Keys, true);
      assert IsMax(g2s, g);
    }
  }

  ghost function MinGid(g2s: Lists, n: nat): (g: int)
    ensures IsMin(g2s, n, g)
  {
    MinExists(g2s, n);
    var g :| IsMin(g2s, n, g);
    g
  }

  lemma MinExists(g2s: Lists, n: nat)
    ensures exists g :: IsMin(g2s, n, g)
  {
    var keys := set k | k in g2s && Candidate(g2s, n, k);
    if keys == {} {
      forall k <- g2s ensures !Candidate(g2s, n, k) {
        assert k !in keys;
      }
      assert IsMin(g2s, n, -1);
    } else {
      var g := Extreme(g2s, keys, false);
      assert g in keys;
      assert forall k <- g2s :: Candidate(g2s, n, k) ==> k in keys;
      assert IsMin(g2s, n, g);
    }
  }

  /** So the order in which a map's keys are met does not matter. */
  lemma ExtremesUnique(g2s: Lists, n: nat, g: int)
    ensures IsMax(g2s, g) ==> g == MaxGid(g2s)
    ensures IsMin(g2s, n, g) ==> g == MinGid(g2s, n)
  {
  }

  // ---- GroupToShards

  /** The shards below `n` that `a` gives to `g`, in ascending order. */
  function Listing(a: seq<int>, g: int, n: nat): seq<int>
    requires n <= |a|
  {
    if n == 0 then [] else Listing(a, g, n - 1) + if a[n - 1] == g then [n - 1] else []
  }

  lemma {:induction false} ListingOk(a: seq<int>, g: int, n: nat)
    requires n <= |a|
    ensures Distinct(Listing(a, g, n)) && forall s :: s in Listing(a, g, n) <==> 0 <= s < n && a[s] == g
  {
    if n > 0 { ListingOk(a, g, n - 1); }
  }

  ghost function Grouped(c: Config): (g2s: Lists)
    ensures g2s.Keys == c.groups.Keys + set s | s in Below(|c.shards|) :: c.shards[s]
    ensures Matches(g2s, c.shards)
  {
    var g2s := map g | g in c.groups.Keys + (set s | s in Below(|c.shards|) :: c.shards[s]) ::
      Listing(c.shards, g, |c.shards|);
    assert forall g <- g2s :: ListOk(g2s[g], c.shards, g) by {
      forall g <- g2s ensures ListOk(g2s[g], c.shards, g) { ListingOk(c.shards, g, |c.shards|); }
    }
    g2s
  }

  // ---- The loop of Join

  /** The first shard of `source` goes to the end of `target`'s list. */
  function MoveOne(g2s: Lists, source: int, target: int): Lists
    requires LoadOf(g2s, source) > 0
  {
    var x := At(g2s, source)[0];
    var g2s' := g2s[target := At(g2s, target) + [x]];
    g2s'[source := At(g2s', source)[1..]]
  }

  ghost predicate Done(g2s: Lists, n: nat) {
    MaxGid(g2s) != 0 && LoadOf(g2s, MaxGid(g2s)) - LoadOf(g2s, MinGid(g2s, n)) <= 1
  }

  /** All shards are in the lists. */
  ghost predicate Complete(g2s: Lists, a: seq<int>) {
    |a| > 0 && Matches(g2s, a) && forall s :: 0 <= s < |a| ==> a[s] in g2s
  }

  ghost function AtLoad(g2s: Lists, load: nat): set<int> {
    set k | k in g2s && LoadOf(g2s, k) == load
  }

  lemma MoveOneOk(g2s: Lists, a: seq<int>, source: int, target: int)
    requires Complete(g2s, a) && source != target && LoadOf(g2s, source) > 0
    ensures var x := At(g2s, source)[0];
            0 <= x < |a| && a[x] == source && Complete(MoveOne(g2s, source, target), a[x := target])
    ensures target !in g2s ==> Load(a, target) == 0
  {
    var x := At(g2s, source)[0];
    assert ListOk(g2s[source], a, source);
    assert x in g2s[source];
    var g2s', a' := MoveOne(g2s, source, target), a[x := target];
    forall g <- g2s' ensures ListOk(g2s'[g], a', g) {
      if g == target {
        if target in g2s { assert ListOk(g2s[target], a, target); }
        assert x !in At(g2s, target);
        AppendedOk(At(g2s, target), a, target, x);
      } else if g == source {
        TailOk(g2s[source], a, source, target);
      } else {
        assert ListOk(g2s[g], a, g);
      }
    }
    if target !in g2s { assert ShardsOf(a, target) == {}; }
  }

  lemma AppendedOk(l: seq<int>, a: seq<int>, g: int, x: int)
    requires ListOk(l, a, g) && 0 <= x < |a| && a[x] != g
    ensures ListOk(l + [x], a[x := g], g)
  {
    assert x !in l;
  }

  lemma TailOk(l: seq<int>, a: seq<int>, g: int, h: int)
    requires ListOk(l, a, g) && l != [] && g != h
    ensures 0 <= l[0] < |a| && ListOk(l[1..], a[l[0] := h], g)
  {
    assert l[0] in l;
    forall s ensures s in l[1..] <==> s in l && s != l[0] {
      if s in l && s != l[0] {
        var j :| 0 <= j < |l| && l[j] == s;
        assert l[1..][j - 1] == s;
      }
    }
  }

  ghost predicate Sane(g2s: Lists, n: nat) {
    exists a: seq<int> :: |a| == n && Complete(g2s, a)
  }

  /** When Join moves a shard, there is one to move and it really goes elsewhere. */
  lemma MovePossible(g2s: Lists, a: seq<int>)
    requires Complete(g2s, a) && !Done(g2s, |a|)
    ensures LoadOf(g2s, MaxGid(g2s)) > 0 && MaxGid(g2s) != MinGid(g2s, |a|) && MinGid(g2s, |a|) != 0
    ensures MaxGid(g2s) != 0 ==> MinGid(g2s, |a|) in g2s && LoadOf(g2s, 0) == 0
  {
    var source, target := MaxGid(g2s), MinGid(g2s, |a|);
    var g := a[0];
    assert ListOk(g2s[g], a, g);
    assert 0 in g2s[g];
    assert LoadOf(g2s, g) > 0;
    if source != 0 {
      LoadIs(g2s, a, source);
      assert Candidate(g2s, |a|, source);
    }
  }

  lemma MoveDecreases(g2s: Lists, a: seq<int>)
    requires Complete(g2s, a) && !Done(g2s, |a|) && MaxGid(g2s) != 0
    requires var source, target := MaxGid(g2s), MinGid(g2s, |a|);
             LoadOf(g2s, source) > 0 && source != target && target in g2s && target != 0 && LoadOf(g2s, 0) == 0
    ensures var source, target := MaxGid(g2s), MinGid(g2s, |a|);
            var g2s', most := MoveOne(g2s, source, target), LoadOf(g2s, source);
            && LoadOf(g2s', 0) == 0
            && (LoadOf(g2s', MaxGid(g2s')) < most
                || (LoadOf(g2s', MaxGid(g2s')) == most && |AtLoad(g2s', most)| < |AtLoad(g2s, most)|))
  {
    var source, target := MaxGid(g2s), MinGid(g2s, |a|);
    var g2s', most := MoveOne(g2s, source, target), LoadOf(g2s, source);
    assert g2s'.Keys == g2s.Keys;
    forall k <- g2s ensures LoadOf(g2s', k) == LoadOf(g2s, k) +
                            (if k == target then 1 else 0) - (if k == source then 1 else 0) {}
    assert AtLoad(g2s', most) == AtLoad(g2s, most) - {source};
    assert source in AtLoad(g2s, most);
    assert MaxGid(g2s') in g2s';
  }

  lemma MoveSane(g2s: Lists, n: nat)
    requires Sane(g2s, n) && !Done(g2s, n)
    ensures LoadOf(g2s, MaxGid(g2s)) > 0 && Sane(MoveOne(g2s, MaxGid(g2s), MinGid(g2s, n)), n)
    ensures var g2s', most := MoveOne(g2s, MaxGid(g2s), MinGid(g2s, n)), LoadOf(g2s, MaxGid(g2s));
            || LoadOf(g2s', 0) < LoadOf(g2s, 0)
            || (LoadOf(g2s', 0) == LoadOf(g2s, 0) && LoadOf(g2s', MaxGid(g2s')) < most)
            || (LoadOf(g2s', 0) == LoadOf(g2s, 0) && LoadOf(g2s', MaxGid(g2s')) == most
                && |AtLoad(g2s', most)| < |AtLoad(g2s, most)|)
  {
    var a: seq<int> :| |a| == n && Complete(g2s, a);
    MovePossible(g2s, a);
    MoveOneOk(g2s, a, MaxGid(g2s), MinGid(g2s, n));
    if MaxGid(g2s) != 0 { MoveDecreases(g2s, a); }
  }

  /** The lists when the loop of Join ends; it always does. */
  ghost function Rebalance(g2s: Lists, n: nat): (r: Lists)
    requires Sane(g2s, n)
    decreases LoadOf(g2s, 0), LoadOf(g2s, MaxGid(g2s)), |AtLoad(g2s, LoadOf(g2s, MaxGid(g2s)))|
  {
    if Done(g2s, n) then g2s
    else
      MoveSane(g2s, n);
      Rebalance(MoveOne(g2s, MaxGid(g2s), MinGid(g2s, n)), n)
  }

  /** Whatever it starts from, Join leaves no shard without a group and all loads within one of each other. */
  lemma {:induction false} RebalanceEvens(g2s: Lists, a: seq<int>) returns (b: seq<int>)
    requires Complete(g2s, a) && Sane(g2s, |a|)
    ensures |b| == |a| && Complete(Rebalance(g2s, |a|), b)
    ensures Load(b, 0) == 0 && Balanced(b, Rebalance(g2s, |a|).Keys - {0})
    decreases LoadOf(g2s, 0), LoadOf(g2s, MaxGid(g2s)), |AtLoad(g2s, LoadOf(g2s, MaxGid(g2s)))|
  {
    if Done(g2s, |a|) {
      b := a;
      EvenWhenDone(g2s, a);
    } else {
      MoveSane(g2s, |a|);
      MovePossible(g2s, a);
      MoveOneOk(g2s, a, MaxGid(g2s), MinGid(g2s, |a|));
      b := RebalanceEvens(MoveOne(g2s, MaxGid(g2s), MinGid(g2s, |a|)), a[At(g2s, MaxGid(g2s))[0] := MinGid(g2s, |a|)]);
    }
  }

  lemma EvenWhenDone(g2s: Lists, a: seq<int>)
    requires Complete(g2s, a) && Done(g2s, |a|)
    ensures Load(a, 0) == 0 && Balanced(a, g2s.Keys - {0})
  {
    var source, target := MaxGid(g2s), MinGid(g2s, |a|);
    forall g <- g2s ensures LoadOf(g2s, g) == Load(a, g) <= |a| { LoadIs(g2s, a, g); }
    if 0 in g2s {
      assert LoadOf(g2s, 0) == 0;
    } else {
      assert ShardsOf(a, 0) == {};
    }
    assert g2s.Keys != {} by { assert a[0] in g2s; }
    assert Candidate(g2s, |a|, source);
    forall g <- g2s.Keys - {0}, h <- g2s.Keys - {0} ensures Load(a, g) <= Load(a, h) + 1 {
      assert Candidate(g2s, |a|, h);
      assert LoadOf(g2s, g) <= LoadOf(g2s, source);
      assert LoadOf(g2s, target) <= LoadOf(g2s, h);
    }
  }
}
