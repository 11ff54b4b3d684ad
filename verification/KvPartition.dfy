/** Partition of src/models/kv.go: one sub-history per key, in the order of the keys. */
module KvPartition {
  import opened Sets
  import opened Strings
  import opened Linearizability
  import opened HistoryEntries
  import opened KvLocality

  type KvOperation = Operation<KvValue>

  predicate Typed(ops: seq<KvOperation>) {
    forall x :: 0 <= x < |ops| ==> ops[x].input.KvInput? && ops[x].output.KvOutput?
  }

  /** The operations on one key, in the order they were recorded. */
  function Sub(ops: seq<KvOperation>, key: string): (sub: seq<KvOperation>)
    requires Typed(ops)
    ensures Typed(sub)
    decreases |ops|
  {
    if ops == [] then []
    else
      var last := ops[|ops| - 1];
      Sub(ops[..|ops| - 1], key) + if last.input.key == key then [last] else []
  }

  ghost predicate AreSpots(ops: seq<KvOperation>, key: string, spots: seq<int>)
    requires Typed(ops)
  {
    && |spots| == |Sub(ops, key)|
    && (forall j :: 0 <= j < |spots| ==> 0 <= spots[j] < |ops| && Sub(ops, key)[j] == ops[spots[j]])
    && (forall i, j :: 0 <= i < j < |spots| ==> spots[i] < spots[j])
    && (forall x :: x in spots <==> 0 <= x < |ops| && ops[x].input.key == key)
  }

  /** Where they are in the whole history. */
  ghost function Spots(ops: seq<KvOperation>, key: string): (spots: seq<int>)
    requires Typed(ops)
    ensures AreSpots(ops, key, spots)
    decreases |ops|
  {
    if ops == [] then []
    else
      var n := |ops| - 1;
      var front := Spots(ops[..n], key);
      SpotsNext(ops, key, front);
      front + if ops[n].input.key == key then [n] else []
  }

  lemma SpotsNext(ops: seq<KvOperation>, key: string, front: seq<int>)
    requires Typed(ops) && ops != [] && AreSpots(ops[..|ops| - 1], key, front)
    ensures AreSpots(ops, key, front + if ops[|ops| - 1].input.key == key then [|ops| - 1] else [])
  {
    var n := |ops| - 1;
    var spots := front + if ops[n].input.key == key then [n] else [];
    var sub := Sub(ops[..n], key);
    assert Sub(ops, key) == sub + if ops[n].input.key == key then [ops[n]] else [];
    hide Sub;
    forall j | 0 <= j < |spots| ensures 0 <= spots[j] < |ops| && Sub(ops, key)[j] == ops[spots[j]] {
      if j < |front| { assert sub[j] == ops[..n][front[j]]; }
    }
    forall x ensures x in spots <==> 0 <= x < |ops| && ops[x].input.key == key {
      assert x in front <==> 0 <= x < n && ops[..n][x].input.key == key;
    }
  }

  // ---- A sub-history on its own

  ghost function Lifted(spots: seq<int>, order: seq<int>): seq<int>
    requires InRange(order, |spots|)
  {
    seq(|order|, i requires 0 <= i < |order| => spots[order[i]])
  }

  lemma {:induction false} LiftedReplays(ops: seq<KvOperation>, key: string, value: string, order: seq<int>)
    requires Typed(ops) && InRange(order, |Spots(ops, key)|) && InRange(Lifted(Spots(ops, key), order), |ops|)
    ensures Replay(KEY_MODEL, Recorded(Sub(ops, key)), value, order) ==
              Replay(KEY_MODEL, Recorded(ops), value, Lifted(Spots(ops, key), order))
    decreases |order|
  {
    hide Spots, Sub;
    if order != [] {
      var lifted := Lifted(Spots(ops, key), order);
      assert lifted[1..] == Lifted(Spots(ops, key), order[1..]);
      assert Sub(ops, key)[order[0]] == ops[Spots(ops, key)[order[0]]];
      var (ok, value') := Step(value, ops[lifted[0]].input, ops[lifted[0]].output);
      LiftedReplays(ops, key, value', order[1..]);
    }
  }

  lemma LiftedOrder(ops: seq<KvOperation>, key: string, order: seq<int>)
    requires Typed(ops) && Timely(ops) && InRange(order, |Spots(ops, key)|)
    ensures var lifted := Lifted(Spots(ops, key), order);
            && InRange(lifted, |ops|) && OnKey(Recorded(ops), key, lifted)
            && (Distinct(order) <==> Distinct(lifted))
  {
    var spots, lifted := Spots(ops, key), Lifted(Spots(ops, key), order);
    hide Spots, Sub;
    forall i | 0 <= i < |lifted| ensures 0 <= lifted[i] < |ops| && ops[lifted[i]].input.key == key {
      assert lifted[i] in spots;
    }
    if Distinct(lifted) {
      forall i, j | 0 <= i < j < |order| ensures order[i] != order[j] {
        assert lifted[i] != lifted[j];
      }
    }
    if Distinct(order) {
      forall i, j | 0 <= i < j < |lifted| ensures lifted[i] != lifted[j] {
        assert order[i] != order[j];
        assert order[i] < order[j] || order[j] < order[i];
      }
    }
  }

  lemma SubPrecedes(ops: seq<KvOperation>, key: string, a: int, b: int)
    requires Typed(ops) && 0 <= a < |Spots(ops, key)| && 0 <= b < |Spots(ops, key)|
    requires Recorded(Sub(ops, key)).Valid() && Recorded(ops).Valid()
    ensures Precedes(Recorded(Sub(ops, key)), a, b) <==> Precedes(Recorded(ops), Spots(ops, key)[a], Spots(ops, key)[b])
  {
    hide Spots, Sub;
  }

  lemma LiftedRealTime(ops: seq<KvOperation>, key: string, order: seq<int>)
    requires Typed(ops) && Timely(ops) && InRange(order, |Spots(ops, key)|)
             && InRange(Lifted(Spots(ops, key), order), |ops|)
    requires Recorded(Sub(ops, key)).Valid() && Recorded(ops).Valid()
    ensures RealTime(Recorded(Sub(ops, key)), order) <==> RealTime(Recorded(ops), Lifted(Spots(ops, key), order))
  {
    hide Spots, Sub, Precedes;
    var lifted := Lifted(Spots(ops, key), order);
    var h, g := Recorded(ops), Recorded(Sub(ops, key));
    assert h.Size() == |ops| && g.Size() == |Sub(ops, key)|;
    forall i, j | 0 <= i < |order| && 0 <= j < |order|
      ensures Precedes(g, order[j], order[i]) <==> Precedes(h, lifted[j], lifted[i])
    {
      SubPrecedes(ops, key, order[j], order[i]);
    }
    hide Recorded;
  }

  lemma SubTimely(ops: seq<KvOperation>, key: string)
    requires Typed(ops) && Timely(ops)
    ensures Timely(Sub(ops, key)) && Recorded(Sub(ops, key)).Valid() && Recorded(ops).Valid()
            && WellTyped(Recorded(ops))
  {
    var sub, spots := Sub(ops, key), Spots(ops, key);
    hide Spots, Sub;
    forall j | 0 <= j < |sub| ensures sub[j].call <= sub[j].return_ {
      assert sub[j] == ops[spots[j]];
    }
  }

  /** An order of the sub-history lists everything exactly when its lift lists the whole key. */
  lemma LiftedCovers(ops: seq<KvOperation>, key: string, order: seq<int>)
    requires Typed(ops) && InRange(order, |Spots(ops, key)|) && Distinct(order) && WellTyped(Recorded(ops))
    ensures |order| == |Spots(ops, key)| <==> ListsAll(Recorded(ops), key, Lifted(Spots(ops, key), order))
  {
    var spots, lifted := Spots(ops, key), Lifted(Spots(ops, key), order);
    LiftedHas(spots, order);
    hide Spots, Sub, Lifted;
    forall x ensures x in spots <==> 0 <= x < |ops| && KeyOf(Recorded(ops), x) == key {}
    hide Recorded, KeyOf;
  }

  lemma LiftedHas(spots: seq<int>, order: seq<int>)
    requires InRange(order, |spots|) && Distinct(order) && forall i, j :: 0 <= i < j < |spots| ==> spots[i] < spots[j]
    ensures |order| == |spots| <==> forall x :: x in spots ==> x in Lifted(spots, order)
  {
    var lifted := Lifted(spots, order);
    if |order| == |spots| {
      AllElems(order, |spots|);
      forall x | x in spots ensures x in lifted {
        var j :| 0 <= j < |spots| && spots[j] == x;
        assert j in Below(|spots|);
        assert j in Elems(order);
        var i :| 0 <= i < |order| && order[i] == j;
        assert lifted[i] == x;
      }
    }
    if forall x :: x in spots ==> x in lifted {
      forall j | 0 <= j < |spots| ensures j in Elems(order) {
        assert spots[j] in lifted;
        var i :| 0 <= i < |lifted| && lifted[i] == spots[j];
        assert order[i] == j;
      }
      assert Elems(order) == Below(|spots|);
      ElemsSize(order);
    }
  }

  lemma LiftedLinearization(ops: seq<KvOperation>, key: string, order: seq<int>)
    requires Typed(ops) && Timely(ops) && InRange(order, |Spots(ops, key)|)
    requires Recorded(Sub(ops, key)).Valid() && Recorded(ops).Valid() && WellTyped(Recorded(ops))
    ensures var h, lifted := Recorded(ops), Lifted(Spots(ops, key), order);
            Linearization(KEY_MODEL, Recorded(Sub(ops, key)), order) <==>
              KeyOrder(h, key, "", lifted) && ListsAll(h, key, lifted)
  {
    LiftedOrder(ops, key, order);
    LiftedReplays(ops, key, "", order);
    LiftedRealTime(ops, key, order);
    if Distinct(order) { LiftedCovers(ops, key, order); }
    hide Spots, Sub, RealTime, Replay, Lifted, ListsAll, OnKey, Distinct;
  }

  /** Every order of one key's operations is the lift of an order of its sub-history. */
  lemma Lowered(ops: seq<KvOperation>, key: string, order: seq<int>) returns (low: seq<int>)
    requires Typed(ops) && WellTyped(Recorded(ops)) && OnKey(Recorded(ops), key, order)
    ensures InRange(low, |Spots(ops, key)|) && Lifted(Spots(ops, key), low) == order
  {
    var spots := Spots(ops, key);
    hide Spots, Sub;
    low := [];
    for i := 0 to |order|
      invariant |low| == i && InRange(low, |spots|) && forall k :: 0 <= k < i ==> spots[low[k]] == order[k]
    {
      assert KeyOf(Recorded(ops), order[i]) == key;
      assert order[i] in spots;
      var j :| 0 <= j < |spots| && spots[j] == order[i];
      low := low + [j];
    }
    assert Lifted(spots, low) == order;
  }

  /** A sub-history is linearizable on its own exactly when its operations can be ordered within the whole. */
  lemma SubIsKey(ops: seq<KvOperation>, key: string)
    requires Typed(ops) && Timely(ops)
    ensures Recorded(Sub(ops, key)).Valid() && Recorded(ops).Valid() && WellTyped(Recorded(ops))
    ensures Linearizable(KEY_MODEL, Recorded(Sub(ops, key))) <==> HasKeyOrder(Recorded(ops), key)
  {
    SubTimely(ops, key);
    var h, g := Recorded(ops), Recorded(Sub(ops, key));
    if Linearizable(KEY_MODEL, g) {
      var order :| Linearization(KEY_MODEL, g, order);
      LiftedLinearization(ops, key, order);
    }
    if HasKeyOrder(h, key) {
      var order := AnOrder(h, key);
      var low := Lowered(ops, key, order);
      LiftedLinearization(ops, key, low);
    }
  }

  // ---- The key order

  predicate Ascending(keys: seq<string>) {
    forall i, j :: 0 <= i < j < |keys| ==> Before(keys[i], keys[j])
  }

  /** An ascending list is determined by its elements, so the order in which a map is walked does not show. */
  lemma {:induction false} AscendingUnique(a: seq<string>, b: seq<string>)
    requires Ascending(a) && Ascending(b) && (forall k :: k in a <==> k in b)
    ensures a == b
    decreases |a|
  {
    assert a != [] ==> a[0] in b;
    assert b != [] ==> b[0] in a;
    if a != [] {
      FirstIsLeast(a, b);
      FirstIsLeast(b, a);
      BeforeTotal(a[0], b[0]);
      forall k ensures k in a[1..] <==> k in b[1..] {
        TailHas(a, k);
        TailHas(b, k);
      }
      AscendingUnique(a[1..], b[1..]);
      assert a == [a[0]] + a[1..] && b == [b[0]] + b[1..];
    }
  }

  lemma FirstIsLeast(a: seq<string>, b: seq<string>)
    requires Ascending(a) && a != [] && b != [] && b[0] in a
    ensures a[0] == b[0] || Before(a[0], b[0])
  {
  }

  lemma TailHas(a: seq<string>, k: string)
    requires Ascending(a) && a != []
    ensures k in a[1..] <==> k in a && k != a[0]
  {
    BeforeTotal(a[0], a[0]);
    if k in a && k != a[0] {
      var j :| 0 <= j < |a| && a[j] == k;
      assert a[1..][j - 1] == k;
    }
  }

  method InsertKey(keys: seq<string>, k: string) returns (sorted: seq<string>)
    requires Ascending(keys) && k !in keys
    ensures Ascending(sorted) && forall x :: x in sorted <==> x == k || x in keys
  {
    var i := 0;
    while i < |keys| && Before(keys[i], k)
      invariant 0 <= i <= |keys| && forall j :: 0 <= j < i ==> Before(keys[j], k)
    {
      i := i + 1;
    }
    sorted := keys[..i] + [k] + keys[i..];
    InsertedKey(keys, k, i);
  }

  lemma InsertedKey(keys: seq<string>, k: string, i: int)
    requires Ascending(keys) && k !in keys && 0 <= i <= |keys|
    requires (forall j :: 0 <= j < i ==> Before(keys[j], k)) && (i < |keys| ==> !Before(keys[i], k))
    ensures var sorted := keys[..i] + [k] + keys[i..]; Ascending(sorted)
                                                       && forall x :: x in sorted <==> x == k || x in keys
  {
    hide Before;
    forall j | i <= j < |keys| ensures Before(k, keys[j]) {
      BeforeTotal(k, keys[i]);
      if j > i { BeforeTrans(k, keys[i], keys[j]); }
    }
    var sorted := keys[..i] + [k] + keys[i..];
    assert keys == keys[..i] + keys[i..];
    forall a, b | 0 <= a < b < |sorted| ensures Before(sorted[a], sorted[b]) {
      assert sorted[a] == (if a < i then keys[a] else if a == i then k else keys[a - 1]);
      assert sorted[b] == (if b < i then keys[b] else if b == i then k else keys[b - 1]);
    }
  }

  ghost predicate HasKey(ops: seq<KvOperation>, key: string)
    requires Typed(ops)
  {
    exists x :: 0 <= x < |ops| && ops[x].input.key == key
  }

  lemma {:induction false} SubEmpty(ops: seq<KvOperation>, key: string)
    requires Typed(ops)
    ensures Sub(ops, key) != [] <==> HasKey(ops, key)
    decreases |ops|
  {
    if ops != [] {
      var front := ops[..|ops| - 1];
      SubEmpty(front, key);
      if HasKey(front, key) {
        var x :| 0 <= x < |front| && front[x].input.key == key;
        assert ops[x].input.key == key;
      }
      if HasKey(ops, key) && ops[|ops| - 1].input.key != key {
        var x :| 0 <= x < |ops| && ops[x].input.key == key;
        assert front[x].input.key == key;
      }
    }
  }

  /** The grouping loop. */
  method Group(history: seq<KvOperation>) returns (m: map<string, seq<KvOperation>>)
    requires Typed(history)
    ensures forall k :: k in m <==> HasKey(history, k)
    ensures forall k <- m :: m[k] == Sub(history, k)
  {
    m := map[];
    for i := 0 to |history|
      invariant forall k :: (if k in m then m[k] else []) == Sub(history[..i], k)
      invariant forall k <- m :: m[k] != []
    {
      var v := history[i];
      var key := v.input.key;
      m := m[key := (if key in m then m[key] else []) + [v]];
      assert history[..i + 1][..i] == history[..i];
    }
    assert history[..|history|] == history;
    forall k ensures k in m <==> HasKey(history, k) { SubEmpty(history, k); }
  }

  /** The keys of a map, collected in any order and sorted. */
  method SortedKeys(keys: set<string>) returns (sorted: seq<string>)
    ensures Ascending(sorted) && forall k :: k in sorted <==> k in keys
  {
    hide Ascending;
    sorted := [];
    var rest := keys;
    assert Ascending([]) by { NoKeys(); }
    while rest != {}
      invariant rest <= keys && Ascending(sorted) && forall k :: k in sorted <==> k in keys - rest
      decreases |rest|
    {
      var k :| k in rest;
      sorted := InsertKey(sorted, k);
      rest := rest - {k};
    }
  }

  lemma NoKeys()
    ensures Ascending([])
  {
  }

  /** The key of a part's first operation. */
  function KeyOfPart(part: seq<KvOperation>): string {
    if part != [] && part[0].input.KvInput? then part[0].input.key else ""
  }

  method Partition(history: seq<KvOperation>) returns (parts: seq<seq<KvOperation>>, ghost keys: seq<string>)
    requires Typed(history)
    ensures Ascending(keys) && forall k :: k in keys <==> HasKey(history, k)
    ensures |parts| == |keys| && forall i :: 0 <= i < |parts| ==> parts[i] == Sub(history, keys[i])
    ensures forall i :: 0 <= i < |parts| ==> parts[i] != [] && parts[i] == Sub(history, KeyOfPart(parts[i]))
    ensures forall k :: HasKey(history, k) ==> Sub(history, k) in parts
    ensures forall i, j :: 0 <= i < j < |parts| ==> Before(KeyOfPart(parts[i]), KeyOfPart(parts[j]))
  {
    hide Sub, HasKey, Ascending;
    var m := Group(history);
    var sorted := SortedKeys(m.Keys);
    parts, keys := [], sorted;
    for i := 0 to |sorted|
      invariant |parts| == i && forall j :: 0 <= j < i ==> parts[j] == Sub(history, sorted[j])
    {
      assert sorted[i] in sorted;
      parts := parts + [m[sorted[i]]];
    }
    PartsNamed(history, sorted, parts);
  }

  /** A part names its own key. */
  lemma PartsNamed(history: seq<KvOperation>, keys: seq<string>, parts: seq<seq<KvOperation>>)
    requires Typed(history) && Ascending(keys) && |parts| == |keys| && forall k :: k in keys <==> HasKey(history, k)
    requires forall i :: 0 <= i < |parts| ==> parts[i] == Sub(history, keys[i])
    ensures forall i :: 0 <= i < |parts| ==> parts[i] != [] && parts[i] == Sub(history, KeyOfPart(parts[i]))
    ensures forall k :: HasKey(history, k) ==> Sub(history, k) in parts
    ensures forall i, j :: 0 <= i < j < |parts| ==> Before(KeyOfPart(parts[i]), KeyOfPart(parts[j]))
  {
    hide Sub, HasKey, Before;
    forall i | 0 <= i < |parts| ensures parts[i] != [] && KeyOfPart(parts[i]) == keys[i] {
      assert keys[i] in keys;
      SubNamed(history, keys[i]);
    }
    forall k | HasKey(history, k) ensures Sub(history, k) in parts {
      var i :| 0 <= i < |keys| && keys[i] == k;
      assert parts[i] == Sub(history, k);
    }
  }

  lemma SubNamed(ops: seq<KvOperation>, key: string)
    requires Typed(ops) && HasKey(ops, key)
    ensures Sub(ops, key) != [] && KeyOfPart(Sub(ops, key)) == key
  {
    hide Sub;
    SubEmpty(ops, key);
    var spots := Spots(ops, key);
    assert spots[0] in spots;
  }

  lemma KeysAre(ops: seq<KvOperation>, key: string)
    requires Typed(ops) && WellTyped(Recorded(ops))
    ensures key in Keys(Recorded(ops)) <==> HasKey(ops, key)
  {
    if HasKey(ops, key) {
      var x :| 0 <= x < |ops| && ops[x].input.key == key;
      assert x in Below(|ops|) && KeyOf(Recorded(ops), x) == key;
    }
  }

  /** Partitioning is sound and complete: the store is linearizable exactly when every part is. */
  lemma PartitionExact(ops: seq<KvOperation>, parts: seq<seq<KvOperation>>, keys: seq<string>)
    requires Typed(ops) && Timely(ops) && |parts| == |keys|
    requires (forall k :: k in keys <==> HasKey(ops, k))
             && forall i :: 0 <= i < |parts| ==> parts[i] == Sub(ops, keys[i])
    ensures Recorded(ops).Valid() && forall i :: 0 <= i < |parts| ==> Recorded(parts[i]).Valid() && Timely(parts[i])
    ensures Linearizable(STORE_MODEL, Recorded(ops)) <==>
              forall i :: 0 <= i < |parts| ==> Linearizable(KEY_MODEL, Recorded(parts[i]))
  {
    hide Sub, Linearizable, HasKeyOrder;
    SubTimely(ops, "");
    var h := Recorded(ops);
    Locality(h);
    forall k ensures k in Keys(h) <==> k in keys { KeysAre(ops, k); }
    forall k ensures Recorded(Sub(ops, k)).Valid() && Timely(Sub(ops, k))
                     && (Linearizable(KEY_MODEL, Recorded(Sub(ops, k))) <==> HasKeyOrder(h, k)) {
      SubTimely(ops, k);
      SubIsKey(ops, k);
    }
  }
}
