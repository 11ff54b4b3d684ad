/** The controller's state machine, updating its list of configurations in place (src/shardctrler/stateMachine.go). */
module CtrlerMachine {
  import opened Sets
  import opened CtrlerSpec
  import opened CtrlerTheorems

  // ---- Helpers

  predicate Ascending(keys: seq<int>) {
    forall i, j :: 0 <= i < j < |keys| ==> keys[i] < keys[j]
  }

  /** The keys of a map, collected in any order and sorted. */
  method SortedKeys(keys: set<int>) returns (sorted: seq<int>)
    ensures Ascending(sorted) && forall k :: k in sorted <==> k in keys
  {
    sorted := [];
    var rest := keys;
    while |rest| > 0
      invariant rest <= keys && Ascending(sorted) && forall k :: k in sorted <==> k in keys - rest
      decreases |rest|
    {
      var k := Pick(rest);
      sorted := InsertKey(sorted, k);
      rest := rest - {k};
    }
  }

  method InsertKey(keys: seq<int>, k: int) returns (sorted: seq<int>)
    requires Ascending(keys) && k !in keys
    ensures Ascending(sorted) && forall x :: x in sorted <==> x == k || x in keys
  {
    var i := 0;
    while i < |keys| && keys[i] < k
      invariant 0 <= i <= |keys| && forall j :: 0 <= j < i ==> keys[j] < k
    {
      i := i + 1;
    }
    sorted := keys[..i] + [k] + keys[i..];
    assert i < |keys| ==> keys[i] > k;
    assert keys == keys[..i] + keys[i..];
  }

  method GetGidWithMaxShards(g2s: Lists) returns (index: int)
    ensures IsMax(g2s, index)
  {
    if 0 in g2s && |g2s[0]| > 0 {
      return 0;
    }
    var keys := SortedKeys(g2s.Keys);
    var max := -1;
    index := -1;
    for i := 0 to |keys|
      invariant i == 0 ==> index == -1 && max == -1
      invariant i > 0 ==> index in keys[..i] && max == LoadOf(g2s, index)
      invariant forall j :: 0 <= j < i ==> LoadOf(g2s, keys[j]) < max
                                           || (LoadOf(g2s, keys[j]) == max && index <= keys[j])
    {
      var gid := keys[i];
      assert gid in keys;
      if |g2s[gid]| > max {
        index, max := gid, |g2s[gid]|;
      }
    }
    assert |keys| == 0 ==> g2s.Keys == {} by { assert forall k <- g2s :: k in keys; }
    forall k <- g2s ensures LoadOf(g2s, k) < max || (LoadOf(g2s, k) == max && index <= k) { assert k in keys; }
  }

  method GetGidWithMinShards(g2s: Lists, nShards: nat) returns (index: int)
    ensures IsMin(g2s, nShards, index)
  {
    var keys := SortedKeys(g2s.Keys);
    var min := nShards + 1;
    index := -1;
    for i := 0 to |keys|
      invariant min == nShards + 1 ==> index == -1 && forall j :: 0 <= j < i ==> !Candidate(g2s, nShards, keys[j])
      invariant min <= nShards ==> Candidate(g2s, nShards, index) && index in keys[..i] && min == LoadOf(g2s, index)
      invariant min <= nShards + 1
      invariant forall j :: 0 <= j < i && Candidate(g2s, nShards, keys[j]) ==>
                  min < LoadOf(g2s, keys[j]) || (LoadOf(g2s, keys[j]) == min && index <= keys[j])
    {
      var gid := keys[i];
      assert gid in keys;
      if gid != 0 && |g2s[gid]| < min {
        index, min := gid, |g2s[gid]|;
      }
    }
    forall k <- g2s ensures k in keys {}
  }

  method GroupToShards(cf: Config) returns (g2s: Lists)
    ensures g2s == Grouped(cf)
  {
    g2s := map[];
    var rest := cf.groups.Keys;
    while |rest| > 0
      invariant rest <= cf.groups.Keys && g2s.Keys == cf.groups.Keys - rest && forall g <- g2s :: g2s[g] == []
      decreases |rest|
    {
      var gid := Pick(rest);
      g2s := g2s[gid := []];
      rest := rest - {gid};
    }
    for shard := 0 to |cf.shards|
      invariant Partly(cf, g2s, shard)
    {
      var gid := cf.shards[shard];
      PartlyNext(cf, g2s, shard);
      g2s := g2s[gid := At(g2s, gid) + [shard]];
    }
    GroupedIs(cf, g2s);
  }

  /** The lists when the first `n` shards are in. */
  ghost predicate Partly(cf: Config, g2s: Lists, n: nat) {
    && n <= |cf.shards|
    && (forall g :: g in g2s <==> g in cf.groups || g in cf.shards[..n])
    && (forall g :: At(g2s, g) == Listing(cf.shards, g, n))
  }

  lemma PartlyNext(cf: Config, g2s: Lists, n: nat)
    requires n < |cf.shards| && Partly(cf, g2s, n)
    ensures Partly(cf, g2s[cf.shards[n] := At(g2s, cf.shards[n]) + [n]], n + 1)
  {
    var gid := cf.shards[n];
    var g2s' := g2s[gid := At(g2s, gid) + [n]];
    assert cf.shards[..n + 1] == cf.shards[..n] + [gid];
    forall g ensures At(g2s', g) == Listing(cf.shards, g, n + 1) {
      assert At(g2s, g) == Listing(cf.shards, g, n);
    }
  }

  lemma GroupedIs(cf: Config, g2s: Lists)
    requires Partly(cf, g2s, |cf.shards|)
    ensures g2s == Grouped(cf)
  {
    hide Grouped, Listing;
    assert cf.shards[..|cf.shards|] == cf.shards;
    forall g ensures g in g2s <==> g in Grouped(cf) { GroupedHas(cf, g); }
    forall g <- g2s ensures g2s[g] == Grouped(cf)[g] {
      GroupedHas(cf, g);
      assert At(g2s, g) == Listing(cf.shards, g, |cf.shards|);
    }
  }

  lemma GroupedHas(cf: Config, g: int)
    ensures g in Grouped(cf) <==> g in cf.groups || g in cf.shards
    ensures g in Grouped(cf) ==> Grouped(cf)[g] == Listing(cf.shards, g, |cf.shards|)
  {
    hide Listing;
    if g in cf.shards {
      var s :| 0 <= s < |cf.shards| && cf.shards[s] == g;
      assert s in Below(|cf.shards|);
    }
  }

  /** Writes the lists back as an assignment. */
  method WriteShards(g2s: Lists, nShards: nat, ghost a: seq<int>) returns (newShards: array<int>)
    requires Complete(g2s, a) && |a| == nShards
    ensures fresh(newShards) && newShards[..] == a
  {
    newShards := new int[nShards](_ => 0);
    var rest := g2s.Keys;
    while |rest| > 0
      invariant rest <= g2s.Keys && forall s :: 0 <= s < nShards && a[s] !in rest ==> newShards[s] == a[s]
      decreases |rest|
    {
      var gid := Pick(rest);
      assert ListOk(g2s[gid], a, gid);
      var shards := g2s[gid];
      forall i | 0 <= i < |shards| ensures 0 <= shards[i] < nShards
                                           && a[shards[i]] == gid { assert shards[i] in shards; }
      for i := 0 to |shards|
        invariant forall s :: 0 <= s < nShards && a[s] !in rest ==> newShards[s] == a[s]
        invariant forall j :: 0 <= j < i ==> newShards[shards[j]] == gid
      {
        newShards[shards[i]] := gid;
      }
      forall s | 0 <= s < nShards && a[s] == gid ensures newShards[s] == gid { assert s in shards; }
      rest := rest - {gid};
    }
  }

  // ---- The state machine

  class MemoryConfigStateMachine {
    const nShards: nat
    var configs: seq<Config>

    ghost predicate Valid()
      reads this
    {
      nShards > 0 && |configs| > 0 && forall i :: 0 <= i < |configs| ==> |configs[i].shards| == nShards
    }

    constructor (nShards: nat)
      requires nShards > 0
      ensures Valid() && this.nShards == nShards && configs == [Config(0, seq(nShards, _ => 0), map[])]
    {
      this.nShards := nShards;
      configs := [Config(0, seq(nShards, _ => 0), map[])];
    }

    method Join(groups: map<int, seq<string>>)
      requires Valid()
      modifies this
      ensures Valid() && |configs| == old(|configs|) + 1 && configs[..old(|configs|)] == old(configs)
      ensures IsJoin(old(configs[|configs| - 1]), old(|configs|), groups, configs[|configs| - 1])
    {
      hide Grouped, Rebalance, Spells, Complete, Sane;
      var lastConfig := configs[|configs| - 1];
      var newGroups := AddGroups(lastConfig.groups, groups);
      var newConfig := Config(|configs|, lastConfig.shards, newGroups);
      var g2s := GroupToShards(newConfig);
      ghost var start := Grouped(lastConfig.(groups := newGroups));
      GroupedComplete(newConfig);
      GroupedSame(lastConfig, newConfig);
      g2s := Spread(g2s);
      ghost var b := RebalanceEvens(start, lastConfig.shards);
      var newShards := WriteShards(g2s, nShards, b);
      CompleteSpells(g2s, b);
      configs := configs + [newConfig.(shards := newShards[..])];
    }

    /** The loop that moves shards from the fullest to the emptiest group. */
    method Spread(start: Lists) returns (g2s: Lists)
      requires Sane(start, nShards)
      ensures g2s == Rebalance(start, nShards)
    {
      g2s := start;
      while true
        invariant Sane(g2s, nShards) && Rebalance(g2s, nShards) == Rebalance(start, nShards)
        decreases LoadOf(g2s, 0), LoadOf(g2s, MaxGid(g2s)), |AtLoad(g2s, LoadOf(g2s, MaxGid(g2s)))|
      {
        hide Sane, MoveOne, IsMax, IsMin, AtLoad;
        var source := GetGidWithMaxShards(g2s);
        var target := GetGidWithMinShards(g2s, nShards);
        ExtremesUnique(g2s, nShards, source);
        ExtremesUnique(g2s, nShards, target);
        if source != 0 && |At(g2s, source)| - |At(g2s, target)| <= 1 {
          break;
        }
        MoveSane(g2s, nShards);
        g2s := MoveOne(g2s, source, target);
      }
    }

    method Leave(gids: seq<int>)
      requires Valid()
      modifies this
      ensures Valid() && |configs| == old(|configs|) + 1 && configs[..old(|configs|)] == old(configs)
      ensures IsLeave(old(configs[|configs| - 1]), old(|configs|), gids, configs[|configs| - 1])
    {
      hide Grouped, DropGroups, Spells, Adopt;
      var lastConfig := configs[|configs| - 1];
      var g2s := GroupToShards(lastConfig);
      var newGroups, orphans;
      newGroups, g2s, orphans := RemoveGroups(lastConfig.groups, g2s, gids);
      var newShards: seq<int>;
      if |newGroups| != 0 {
        newShards := GiveAway(lastConfig, g2s, orphans, gids);
      } else {
        newShards := seq(nShards, _ => 0);
      }
      configs := configs + [Config(|configs|, newShards, newGroups)];
    }

    /** The orphans are adopted and the lists written back. */
    method GiveAway(lastConfig: Config, rest: Lists, orphans: seq<int>, ghost gids: seq<int>)
      returns (newShards: seq<int>)
      requires nShards > 0 && |lastConfig.shards| == nShards
      requires (rest, orphans) == DropGroups(Grouped(lastConfig), gids)
      ensures |newShards| == nShards && Spells(Adopt(rest, orphans, nShards), newShards)
    {
      var g2s := rest;
      for i := 0 to |orphans|
        invariant Adopt(g2s, orphans[i..], nShards) == Adopt(rest, orphans, nShards)
      {
        var target := GetGidWithMinShards(g2s, nShards);
        ExtremesUnique(g2s, nShards, target);
        assert orphans[i..][0] == orphans[i] && orphans[i..][1..] == orphans[i + 1..];
        g2s := g2s[target := At(g2s, target) + [orphans[i]]];
      }
      assert orphans[|orphans|..] == [];
      ghost var b := AdoptedComplete(lastConfig, gids);
      var written := WriteShards(g2s, nShards, b);
      newShards := written[..];
    }

    /** Move trusts its arguments. */
    method Move(shard: nat, gid: int)
      requires Valid() && shard < nShards
      modifies this
      ensures Valid() && |configs| == old(|configs|) + 1 && configs[..old(|configs|)] == old(configs)
      ensures var last, new_ := old(configs[|configs| - 1]), configs[|configs| - 1];
              new_ == Config(old(|configs|), last.shards[shard := gid], last.groups)
    {
      var lastConfig := configs[|configs| - 1];
      var newConfig := Config(|configs|, lastConfig.shards, lastConfig.groups);
      newConfig := newConfig.(shards := newConfig.shards[shard := gid]);
      configs := configs + [newConfig];
    }

    /** A number out of range asks for the latest configuration. */
    method Query(num: int) returns (config: Config)
      requires Valid()
      ensures config in configs
      ensures config == if 0 <= num < |configs| then configs[num] else configs[|configs| - 1]
    {
      if num < 0 || num >= |configs| {
        return configs[|configs| - 1];
      }
      return configs[num];
    }
  }

  /** New groups are added; a gid already there keeps its servers. */
  method AddGroups(mine: map<int, seq<string>>, groups: map<int, seq<string>>) returns (r: map<int, seq<string>>)
    ensures r == groups + mine
  {
    hide Beyond;
    r := mine;
    var rest := groups.Keys;
    BeyondEnds(groups);
    while |rest| > 0
      invariant rest <= groups.Keys && r == Beyond(groups, rest) + mine
      decreases |rest|
    {
      var gid := Pick(rest);
      BeyondNext(groups, rest, gid);
      AddOne(Beyond(groups, rest), mine, gid, groups[gid]);
      if gid !in r {
        r := r[gid := groups[gid]];
      }
      rest := rest - {gid};
    }
  }

  lemma AddOne<K, T>(a: map<K, T>, b: map<K, T>, k: K, v: T)
    requires k !in a
    ensures a[k := v] + b == if k in a + b then a + b else (a + b)[k := v]
  {
    var l, r := a[k := v] + b, if k in a + b then a + b else (a + b)[k := v];
    assert l.Keys == r.Keys;
    assert forall x <- l :: l[x] == r[x];
  }

  lemma GroupedSame(c: Config, d: Config)
    requires c.shards == d.shards
    ensures Grouped(c.(groups := d.groups)) == Grouped(d)
  {
  }

  method RemoveGroups(groups: map<int, seq<string>>, g2s: Lists, gids: seq<int>)
    returns (groups': map<int, seq<string>>, rest: Lists, orphans: seq<int>)
    ensures groups' == groups - Elems(gids) && (rest, orphans) == DropGroups(g2s, gids)
  {
    groups', rest, orphans := groups, g2s, [];
    assert gids[0..] == gids && [] + DropGroups(g2s, gids).1 == DropGroups(g2s, gids).1;
    for i := 0 to |gids|
      invariant groups' == groups - Elems(gids[..i])
      invariant var (r, o) := DropGroups(rest, gids[i..]); DropGroups(g2s, gids) == (r, orphans + o)
    {
      var gid := gids[i];
      assert gids[i..][0] == gid && gids[i..][1..] == gids[i + 1..];
      assert Elems(gids[..i + 1]) == Elems(gids[..i]) + {gid} by { assert gids[..i + 1] == gids[..i] + [gid]; }
      if gid in groups' {
        groups' := groups' - {gid};
      }
      if gid in rest {
        ghost var (r, o) := DropGroups(rest - {gid}, gids[i + 1..]);
        assert orphans + (rest[gid] + o) == (orphans + rest[gid]) + o;
        orphans := orphans + rest[gid];
        rest := rest - {gid};
      }
    }
    assert gids[..|gids|] == gids && gids[|gids|..] == [] && orphans + [] == orphans;
  }
}
