/**
 From recorded operations to the time-ordered call and return entries the checker searches
 (src/porcupine/checker.go).
 */
module HistoryEntries {
  import opened Sets
  import opened Linearizability

  datatype Operation<V> = Operation(clientId: int, input: V, call: int, output: V, return_: int)

  datatype Kind = CallEntry | ReturnEntry

  datatype Entry<V> = Entry(kind: Kind, value: V, id: int, time: int, clientId: int)

  /** The operations with their own times. */
  function Recorded<V>(ops: seq<Operation<V>>): History<V> {
    History(seq(|ops|, i requires 0 <= i < |ops| => ops[i].input),
            seq(|ops|, i requires 0 <= i < |ops| => ops[i].output),
            seq(|ops|, i requires 0 <= i < |ops| => ops[i].call),
            seq(|ops|, i requires 0 <= i < |ops| => ops[i].return_))
  }

  /** No operation returns before it is called. */
  ghost predicate Timely<V>(ops: seq<Operation<V>>) {
    forall x :: 0 <= x < |ops| ==> ops[x].call <= ops[x].return_
  }

  /** byTime.Less: at the same time, calls come before returns. */
  predicate Less<V>(a: Entry<V>, b: Entry<V>) {
    if a.time != b.time then a.time < b.time else a.kind == CallEntry && b.kind == ReturnEntry
  }

  function CallOf<V>(ops: seq<Operation<V>>, x: nat): Entry<V>
    requires x < |ops|
  {
    Entry(CallEntry, ops[x].input, x, ops[x].call, ops[x].clientId)
  }

  function ReturnOf<V>(ops: seq<Operation<V>>, x: nat): Entry<V>
    requires x < |ops|
  {
    Entry(ReturnEntry, ops[x].output, x, ops[x].return_, ops[x].clientId)
  }

  /** The loop of makeEntries, before the sort. */
  method CollectEntries<V>(ops: seq<Operation<V>>) returns (entries: seq<Entry<V>>)
    ensures Collected(ops, entries)
  {
    entries := [];
    var id := 0;
    for i := 0 to |ops|
      invariant id == i && |entries| == 2 * i
      invariant forall x :: 0 <= x < i ==> entries[2 * x] == CallOf(ops, x) && entries[2 * x + 1] == ReturnOf(ops, x)
    {
      var elem := ops[i];
      entries := entries + [Entry(CallEntry, elem.input, id, elem.call, elem.clientId)];
      entries := entries + [Entry(ReturnEntry, elem.output, id, elem.return_, elem.clientId)];
      id := id + 1;
    }
  }

  /** `sorted` is `entries` rearranged by `perm`. */
  ghost predicate Rearranges<T>(perm: seq<int>, entries: seq<T>, sorted: seq<T>) {
    && |perm| == |entries| && |sorted| == |entries|
    && InRange(perm, |entries|) && Distinct(perm)
    && forall k :: 0 <= k < |sorted| ==> sorted[k] == entries[perm[k]]
  }

  /** What sort.Sort(byTime) guarantees; it says nothing about entries that compare equal. */
  ghost predicate SortedByTime<V>(entries: seq<Entry<V>>) {
    forall i, j :: 0 <= i < j < |entries| ==> !Less(entries[j], entries[i])
  }

  /** Positions in the entry list play the part of times: every operation has one call and, later, one return. */
  ghost predicate LaidOut<V>(entries: seq<Entry<V>>, h: History<V>) {
    && h.Valid()
    && |entries| == 2 * h.Size()
    && (forall x :: 0 <= x < h.Size() ==>
          && 0 <= h.call[x] < h.ret[x] < |entries|
          && entries[h.call[x]].kind == CallEntry && entries[h.call[x]].id == x
             && entries[h.call[x]].value == h.input[x]
          && entries[h.ret[x]].kind == ReturnEntry && entries[h.ret[x]].id == x
             && entries[h.ret[x]].value == h.output[x])
    && (forall k :: 0 <= k < |entries| ==>
          && 0 <= entries[k].id < h.Size()
          && k == if entries[k].kind == CallEntry then h.call[entries[k].id] else h.ret[entries[k].id])
  }

  /** Where the entry that was at index `b` before the sort has gone. */
  ghost function Where(perm: seq<int>, b: int): (k: int)
    requires InRange(perm, |perm|) && Distinct(perm) && 0 <= b < |perm|
    ensures 0 <= k < |perm| && perm[k] == b
  {
    AllElems(perm, |perm|);
    assert b in Below(|perm|);
    var k :| 0 <= k < |perm| && perm[k] == b;
    k
  }

  ghost function Positions<V>(ops: seq<Operation<V>>, perm: seq<int>): History<V>
    requires InRange(perm, |perm|) && Distinct(perm) && |perm| == 2 * |ops|
  {
    History(Recorded(ops).input, Recorded(ops).output,
            seq(|ops|, x requires 0 <= x < |ops| => Where(perm, 2 * x)),
            seq(|ops|, x requires 0 <= x < |ops| => Where(perm, 2 * x + 1)))
  }

  ghost predicate Collected<V>(ops: seq<Operation<V>>, entries: seq<Entry<V>>) {
    && |entries| == 2 * |ops|
    && forall x :: 0 <= x < |ops| ==> entries[2 * x] == CallOf(ops, x) && entries[2 * x + 1] == ReturnOf(ops, x)
  }

  /** What makeEntries returns. */
  ghost predicate Made<V>(ops: seq<Operation<V>>, entries: seq<Entry<V>>, perm: seq<int>, sorted: seq<Entry<V>>) {
    Collected(ops, entries) && Rearranges(perm, entries, sorted) && SortedByTime(sorted)
  }

  lemma PositionOf<V>(ops: seq<Operation<V>>, entries: seq<Entry<V>>, perm: seq<int>, sorted: seq<Entry<V>>, x: int)
    requires Made(ops, entries, perm, sorted) && 0 <= x < |ops|
    ensures var h := Positions(ops, perm);
            && 0 <= h.call[x] < |sorted| && 0 <= h.ret[x] < |sorted|
            && sorted[h.call[x]] == CallOf(ops, x) && sorted[h.ret[x]] == ReturnOf(ops, x)
  {
  }

  lemma CallFirst<V>(ops: seq<Operation<V>>, entries: seq<Entry<V>>, perm: seq<int>, sorted: seq<Entry<V>>, x: int)
    requires Made(ops, entries, perm, sorted) && Timely(ops) && 0 <= x < |ops|
    ensures Positions(ops, perm).call[x] < Positions(ops, perm).ret[x]
  {
    PositionOf(ops, entries, perm, sorted, x);
    assert Less(CallOf(ops, x), ReturnOf(ops, x));
  }

  lemma SameOrder<V>(ops: seq<Operation<V>>, entries: seq<Entry<V>>, perm: seq<int>, sorted: seq<Entry<V>>, a: int,
                     b: int)
    requires Made(ops, entries, perm, sorted) && 0 <= a < |ops| && 0 <= b < |ops|
    ensures Positions(ops, perm).ret[a] < Positions(ops, perm).call[b] <==> ops[a].return_ < ops[b].call
  {
    PositionOf(ops, entries, perm, sorted, a);
    PositionOf(ops, entries, perm, sorted, b);
    hide Positions, Collected, Rearranges;
    assert Positions(ops, perm).ret[a] != Positions(ops, perm).call[b];
  }

  lemma PositionsLaidOut<V>(ops: seq<Operation<V>>, entries: seq<Entry<V>>, perm: seq<int>, sorted: seq<Entry<V>>)
    requires Made(ops, entries, perm, sorted) && Timely(ops)
    ensures LaidOut(sorted, Positions(ops, perm))
  {
    var h := Positions(ops, perm);
    forall x | 0 <= x < |ops|
      ensures 0 <= h.call[x] < h.ret[x] < |sorted| && sorted[h.call[x]] == CallOf(ops, x)
              && sorted[h.ret[x]] == ReturnOf(ops, x)
    {
      PositionOf(ops, entries, perm, sorted, x);
      CallFirst(ops, entries, perm, sorted, x);
    }
    forall k | 0 <= k < |sorted|
      ensures 0 <= sorted[k].id < |ops|
      ensures k == if sorted[k].kind == CallEntry then h.call[sorted[k].id] else h.ret[sorted[k].id]
    {
      EntryAt(ops, entries, perm, sorted, k);
    }
    hide Rearranges, Collected, SortedByTime, Where;
  }

  lemma EntryAt<V>(ops: seq<Operation<V>>, entries: seq<Entry<V>>, perm: seq<int>, sorted: seq<Entry<V>>, k: int)
    requires Made(ops, entries, perm, sorted) && 0 <= k < |sorted|
    ensures 0 <= sorted[k].id < |ops|
    ensures k == if sorted[k].kind == CallEntry then Positions(ops, perm).call[sorted[k].id]
                                                     else Positions(ops, perm).ret[sorted[k].id]
  {
    var b := perm[k];
    var x := b / 2;
    assert b == 2 * x || b == 2 * x + 1;
    assert entries[2 * x] == CallOf(ops, x) && entries[2 * x + 1] == ReturnOf(ops, x);
  }

  /** However the sort breaks ties, entry order and real time say the same about every two operations. */
  lemma SortedEntriesFaithful<S, V>(m: Model<S, V>, ops: seq<Operation<V>>, entries: seq<Entry<V>>, perm: seq<int>,
                                    sorted: seq<Entry<V>>)
    requires Timely(ops) && Made(ops, entries, perm, sorted)
    ensures var h := Positions(ops, perm);
            && LaidOut(sorted, h)
            && (Linearizable(m, h) <==> Linearizable(m, Recorded(ops)))
  {
    hide Collected, SortedByTime, Where;
    PositionsLaidOut(ops, entries, perm, sorted);
    var h, g := Positions(ops, perm), Recorded(ops);
    forall a, b | 0 <= a < |ops| && 0 <= b < |ops| ensures Precedes(h, a, b) <==> Precedes(g, a, b) {
      SameOrder(ops, entries, perm, sorted, a, b);
    }
    SamePrecedence(m, h, g);
  }
}
