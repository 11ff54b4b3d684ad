/**
 The key/value models of src/models/kv.go, and why checking key by key is the
 same as checking the whole store.
 */
module KvLocality {
  import opened Sets
  import opened Linearizability

  datatype KvValue = KvInput(op: bv8, key: string, value: string) | KvOutput(out: string)

  /** KvModel.Step: the value of a single key. 0 is get, 1 is put, anything else append. */
  function Step(state: string, input: KvValue, output: KvValue): (bool, string) {
    if !input.KvInput? || !output.KvOutput? then (false, state)
    else if input.op == 0 then (output.out == state, state)
    else if input.op == 1 then (true, input.value)
    else (true, state + input.value)
  }

  const KEY_MODEL: Model<string, KvValue> := Model("", Step)

  function Lookup(store: map<string, string>, key: string): string {
    if key in store then store[key] else ""
  }

  /** The whole store: a get returns what its key holds, a put replaces it, an append extends it. */
  function StoreStep(store: map<string, string>, input: KvValue, output: KvValue): (bool, map<string, string>) {
    if !input.KvInput? || !output.KvOutput? then (false, store)
    else if input.op == 0 then (output.out == Lookup(store, input.key), store)
    else if input.op == 1 then (true, store[input.key := input.value])
    else (true, store[input.key := Lookup(store, input.key) + input.value])
  }

  const STORE_MODEL: Model<map<string, string>, KvValue> := Model(map[], StoreStep)

  /** What the type assertions of Partition and Step demand. */
  predicate WellTyped(h: History<KvValue>) {
    |h.output| == |h.input| && forall x :: 0 <= x < |h.input| ==> h.input[x].KvInput? && h.output[x].KvOutput?
  }

  function KeyOf(h: History<KvValue>, x: int): string
    requires WellTyped(h) && 0 <= x < h.Size()
  {
    h.input[x].key
  }

  /** A step of the store is a step of its key, and leaves the other keys alone. */
  lemma StepIsLocal(store: map<string, string>, input: KvValue, output: KvValue, key: string)
    requires input.KvInput? && output.KvOutput?
    ensures var (ok, store') := StoreStep(store, input, output);
            var (ok', value') := Step(Lookup(store, input.key), input, output);
            && ok == ok'
            && (ok ==> Lookup(store', key) == if key == input.key then value' else Lookup(store, key))
  {
  }

  // ---- Orders of the operations on one key

  ghost predicate OnKey(h: History<KvValue>, key: string, order: seq<int>)
    requires WellTyped(h)
  {
    forall i :: 0 <= i < |order| ==> 0 <= order[i] < h.Size() && KeyOf(h, order[i]) == key
  }

  /** `order` linearizes, for one key from value `value`, the operations it lists. */
  ghost predicate KeyOrder(h: History<KvValue>, key: string, value: string, order: seq<int>)
    requires h.Valid() && WellTyped(h)
  {
    && OnKey(h, key, order)
    && InRange(order, h.Size())
    && Distinct(order)
    && RealTime(h, order)
    && Replay(KEY_MODEL, h, value, order).Some?
  }

  ghost predicate ListsAll(h: History<KvValue>, key: string, order: seq<int>)
    requires WellTyped(h)
  {
    forall x :: 0 <= x < h.Size() && KeyOf(h, x) == key ==> x in order
  }

  // ---- From the store to its keys

  ghost function Select(h: History<KvValue>, key: string, order: seq<int>): (r: seq<int>)
    requires WellTyped(h) && InRange(order, h.Size())
    ensures forall x :: x in r <==> x in order && KeyOf(h, x) == key
    ensures OnKey(h, key, r) && InRange(r, h.Size())
    decreases |order|
  {
    if order == [] then []
    else
      assert forall x :: x in order <==> x == order[0] || x in order[1..];
      (if KeyOf(h, order[0]) == key then [order[0]] else []) + Select(h, key, order[1..])
  }

  lemma {:induction false} SelectKeepsOrder(h: History<KvValue>, key: string, order: seq<int>)
    requires h.Valid() && WellTyped(h) && InRange(order, h.Size()) && Distinct(order) && RealTime(h, order)
    ensures Distinct(Select(h, key, order)) && RealTime(h, Select(h, key, order))
    decreases |order|
  {
    if order != [] {
      var x, rest := order[0], order[1..];
      SelectKeepsOrder(h, key, rest);
      var tail := Select(h, key, rest);
      forall y <- Elems(tail) ensures y != x && !Precedes(h, y, x) {
        assert y in rest;
        var j :| 0 <= j < |rest| && rest[j] == y;
        assert order[j + 1] == y;
      }
      if KeyOf(h, x) == key { ConsKeepsOrder(h, x, tail); }
    }
  }

  lemma {:induction false} SelectReplays(h: History<KvValue>, key: string, store: map<string, string>, order: seq<int>)
    requires WellTyped(h) && InRange(order, h.Size()) && Replay(STORE_MODEL, h, store, order).Some?
    ensures Replay(KEY_MODEL, h, Lookup(store, key), Select(h, key, order)).Some?
    decreases |order|
  {
    if order != [] {
      var x, rest := order[0], order[1..];
      var (ok, store') := StoreStep(store, h.input[x], h.output[x]);
      StepIsLocal(store, h.input[x], h.output[x], key);
      SelectReplays(h, key, store', rest);
      var tail, r := Select(h, key, rest), Select(h, key, order);
      if KeyOf(h, x) == key {
        assert r == [x] + tail && r[1..] == tail;
      } else {
        assert r == tail;
      }
    }
  }

  lemma StoreToKey(h: History<KvValue>, key: string)
    requires h.Valid() && WellTyped(h) && Linearizable(STORE_MODEL, h)
    ensures exists order :: KeyOrder(h, key, "", order) && ListsAll(h, key, order)
  {
    var order :| Linearization(STORE_MODEL, h, order);
    SelectKeepsOrder(h, key, order);
    SelectReplays(h, key, map[], order);
    AllElems(order, h.Size());
    var r := Select(h, key, order);
    forall x | 0 <= x < h.Size() && KeyOf(h, x) == key ensures x in r {
      assert x in Below(h.Size());
      assert x in Elems(order);
    }
    assert KeyOrder(h, key, "", r) && ListsAll(h, key, r);
  }

  // ---- From the keys to the store

  /** What is still to be merged, key by key. */
  ghost predicate Mergeable(h: History<KvValue>, store: map<string, string>, rem: map<string, seq<int>>)
    requires h.Valid() && WellTyped(h)
  {
    forall key <- rem :: KeyOrder(h, key, Lookup(store, key), rem[key])
  }

  ghost function Remaining(h: History<KvValue>, rem: map<string, seq<int>>): set<int>
    requires WellTyped(h)
  {
    set x | x in Below(h.Size()) && KeyOf(h, x) in rem && x in rem[KeyOf(h, x)]
  }

  lemma {:induction false} EarliestReturn(h: History<KvValue>, ops: set<int>) returns (y: int)
    requires h.Valid() && ops <= Below(h.Size()) && ops != {}
    ensures y in ops && forall z <- ops :: h.ret[y] <= h.ret[z]
    decreases |ops|
  {
    y :| y in ops;
    if ops != {y} {
      var rest := ops - {y};
      assert rest != {};
      var z := EarliestReturn(h, rest);
      if h.ret[z] < h.ret[y] { y := z; }
    }
  }

  /** The head of the list holding the earliest return is preceded by nothing that remains. */
  lemma HeadIsFirst(h: History<KvValue>, store: map<string, string>, rem: map<string, seq<int>>, y: int)
    requires h.Valid() && WellTyped(h) && Mergeable(h, store, rem)
    requires y in Remaining(h, rem) && forall z <- Remaining(h, rem) :: h.ret[y] <= h.ret[z]
    ensures var x := rem[KeyOf(h, y)][0]; forall z <- Remaining(h, rem) :: !Precedes(h, z, x)
  {
    var order := rem[KeyOf(h, y)];
    assert KeyOrder(h, KeyOf(h, y), Lookup(store, KeyOf(h, y)), order);
    var j :| 0 <= j < |order| && order[j] == y;
    assert j == 0 || !Precedes(h, order[j], order[0]);
  }

  lemma TakeHead(h: History<KvValue>, store: map<string, string>, rem: map<string, seq<int>>, key: string)
    requires h.Valid() && WellTyped(h) && Mergeable(h, store, rem) && key in rem && rem[key] != []
    ensures 0 <= rem[key][0] < h.Size() && KeyOf(h, rem[key][0]) == key
    ensures var x := rem[key][0];
            var (ok, store') := StoreStep(store, h.input[x], h.output[x]);
            ok && Mergeable(h, store', rem[key := rem[key][1..]])
  {
    var order := rem[key];
    assert KeyOrder(h, key, Lookup(store, key), order);
    var x := order[0];
    var (ok, store') := StoreStep(store, h.input[x], h.output[x]);
    var rem' := rem[key := order[1..]];
    StepIsLocal(store, h.input[x], h.output[x], key);
    forall k <- rem' ensures KeyOrder(h, k, Lookup(store', k), rem'[k]) {
      StepIsLocal(store, h.input[x], h.output[x], k);
      if k == key {
        TailOrder(h, key, order);
      } else {
        assert KeyOrder(h, k, Lookup(store, k), rem[k]);
      }
    }
  }

  lemma TailOrder(h: History<KvValue>, key: string, order: seq<int>)
    requires h.Valid() && WellTyped(h) && OnKey(h, key, order) && InRange(order, h.Size()) && Distinct(order)
             && RealTime(h, order)
    requires order != []
    ensures var tail := order[1..]; OnKey(h, key, tail) && InRange(tail, h.Size()) && Distinct(tail)
                                    && RealTime(h, tail)
  {
    var tail := order[1..];
    forall i | 0 <= i < |tail| ensures tail[i] == order[i + 1] {}
  }

  lemma RemainingTake(h: History<KvValue>, store: map<string, string>, rem: map<string, seq<int>>, key: string)
    requires h.Valid() && WellTyped(h) && Mergeable(h, store, rem) && key in rem && rem[key] != []
    ensures 0 <= rem[key][0] < h.Size() && rem[key][0] in Remaining(h, rem)
    ensures Remaining(h, rem[key := rem[key][1..]]) == Remaining(h, rem) - {rem[key][0]}
  {
    var order := rem[key];
    assert KeyOrder(h, key, Lookup(store, key), order);
    var x, tail := order[0], order[1..];
    forall z ensures z in tail <==> z in order && z != x {
      if z in order && z != x {
        var j :| 0 <= j < |order| && order[j] == z;
        assert tail[j - 1] == z;
      }
    }
    assert x in Below(h.Size());
  }

  /** Merges the per-key orders into one that respects real time across keys. */
  lemma {:induction false} Merge(h: History<KvValue>, store: map<string, string>, rem: map<string, seq<int>>)
    returns (order: seq<int>)
    requires h.Valid() && WellTyped(h) && Mergeable(h, store, rem)
    ensures InRange(order, h.Size()) && Distinct(order) && RealTime(h, order) && Elems(order) == Remaining(h, rem)
    ensures Replay(STORE_MODEL, h, store, order).Some?
    decreases |Remaining(h, rem)|
  {
    if Remaining(h, rem) == {} {
      order := [];
      assert Elems(order) == {};
    } else {
      var y := EarliestReturn(h, Remaining(h, rem));
      var key := KeyOf(h, y);
      HeadIsFirst(h, store, rem, y);
      TakeHead(h, store, rem, key);
      RemainingTake(h, store, rem, key);
      var x := rem[key][0];
      var rest := Merge(h, StoreStep(store, h.input[x], h.output[x]).1, rem[key := rem[key][1..]]);
      order := ConsOrder(h, store, x, rest, Remaining(h, rem));
    }
  }

  lemma ConsOrder(h: History<KvValue>, store: map<string, string>, x: int, rest: seq<int>, all: set<int>)
    returns (order: seq<int>)
    requires h.Valid() && WellTyped(h) && 0 <= x < h.Size() && InRange(rest, h.Size()) && Distinct(rest)
             && RealTime(h, rest)
    requires x in all && Elems(rest) == all - {x} && all <= Below(h.Size())
    requires forall z <- all :: !Precedes(h, z, x)
    requires var (ok, store') := StoreStep(store, h.input[x], h.output[x]);
               ok && Replay(STORE_MODEL, h, store', rest).Some?
    ensures InRange(order, h.Size()) && Distinct(order) && RealTime(h, order) && Elems(order) == all
    ensures Replay(STORE_MODEL, h, store, order).Some?
  {
    order := [x] + rest;
    assert order[1..] == rest;
    ElemsCons(x, rest);
    ConsKeepsOrder(h, x, rest);
    hide RealTime, Distinct, Elems, Lookup;
  }

  lemma ConsKeepsOrder(h: History<KvValue>, x: int, rest: seq<int>)
    requires h.Valid() && 0 <= x < h.Size() && InRange(rest, h.Size()) && Distinct(rest) && RealTime(h, rest)
    requires x !in Elems(rest) && forall z <- Elems(rest) :: 0 <= z < h.Size() && !Precedes(h, z, x)
    ensures Distinct([x] + rest) && InRange([x] + rest, h.Size()) && RealTime(h, [x] + rest)
  {
    hide Precedes;
    var order := [x] + rest;
    forall i, j | 0 <= i < j < |order| ensures order[i] != order[j] && !Precedes(h, order[j], order[i]) {
      assert order[j] == rest[j - 1] && order[j] in Elems(rest);
      if i > 0 { assert order[i] == rest[i - 1]; }
    }
  }

  lemma ElemsCons(x: int, rest: seq<int>)
    ensures Elems([x] + rest) == {x} + Elems(rest)
  {
  }

  ghost predicate HasKeyOrder(h: History<KvValue>, key: string)
    requires h.Valid() && WellTyped(h)
  {
    exists order :: KeyOrder(h, key, "", order) && ListsAll(h, key, order)
  }

  ghost function AnOrder(h: History<KvValue>, key: string): (order: seq<int>)
    requires h.Valid() && WellTyped(h) && HasKeyOrder(h, key)
    ensures KeyOrder(h, key, "", order) && ListsAll(h, key, order)
  {
    var order :| KeyOrder(h, key, "", order) && ListsAll(h, key, order);
    order
  }

  ghost function Keys(h: History<KvValue>): set<string>
    requires WellTyped(h)
  {
    set x | x in Below(h.Size()) :: KeyOf(h, x)
  }

  lemma KeysToStore(h: History<KvValue>)
    requires h.Valid() && WellTyped(h)
    requires forall key <- Keys(h) :: HasKeyOrder(h, key)
    ensures Linearizable(STORE_MODEL, h)
  {
    hide KeyOrder, HasKeyOrder, RealTime, Replay, ListsAll, Linearizable;
    var rem := map key | key in Keys(h) :: AnOrder(h, key);
    var order := Merge(h, map[], rem);
    AllRemain(h, rem);
    Covers(h, order);
  }

  lemma AllRemain(h: History<KvValue>, rem: map<string, seq<int>>)
    requires WellTyped(h) && rem.Keys == Keys(h) && forall key <- rem :: ListsAll(h, key, rem[key])
    ensures Remaining(h, rem) == Below(h.Size())
  {
    forall x | x in Below(h.Size()) ensures x in Remaining(h, rem) {
      assert KeyOf(h, x) in Keys(h);
    }
  }

  lemma Covers(h: History<KvValue>, order: seq<int>)
    requires h.Valid() && InRange(order, h.Size()) && Distinct(order) && RealTime(h, order)
             && Elems(order) == Below(h.Size())
    requires Replay(STORE_MODEL, h, map[], order).Some?
    ensures Linearizable(STORE_MODEL, h)
  {
    hide RealTime, Replay;
    ElemsSize(order);
    assert Linearization(STORE_MODEL, h, order);
  }

  /** Locality: the store is linearizable exactly when each of its keys is. */
  lemma Locality(h: History<KvValue>)
    requires h.Valid() && WellTyped(h)
    ensures Linearizable(STORE_MODEL, h) <==> forall key <- Keys(h) :: HasKeyOrder(h, key)
  {
    if Linearizable(STORE_MODEL, h) {
      forall key <- Keys(h) ensures HasKeyOrder(h, key) { StoreToKey(h, key); }
    }
    if forall key <- Keys(h) :: HasKeyOrder(h, key) { KeysToStore(h); }
  }
}
