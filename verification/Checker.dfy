/** The linearizability search over one partition (checkSingle of src/porcupine/checker.go). */
module Checker {
  import opened Sets
  import opened Options
  import opened Linearizability
  import opened HistoryEntries
  import opened LinkedEntries
  import opened SearchSpace
  import opened EntryList
  import Bitset

  // ---- The cache

  datatype CacheEntry<S> = CacheEntry(linearized: Bitset.Words, state: S)

  datatype Key = Key(hash: bv64)

  type Cache<S> = map<Key, seq<CacheEntry<S>>>

  ghost predicate Cached<S>(cache: Cache<S>, e: CacheEntry<S>) {
    var key := Key(Bitset.Hash(e.linearized));
    key in cache && e in cache[key]
  }

  /** The cache holds the configurations in `seen`, each as a bitset of `chunks` words. */
  ghost predicate CacheOk<S(!new)>(cache: Cache<S>, seen: set<Config<S>>, chunks: nat) {
    && (forall e: CacheEntry<S> :: Cached(cache, e) ==>
                                   |e.linearized| == chunks && (Bitset.Members(e.linearized), e.state) in seen)
    && (forall c <- seen :: Stored(cache, c, chunks))
  }

  ghost predicate Stored<S>(cache: Cache<S>, c: Config<S>, chunks: nat) {
    exists words: Bitset.Words :: |words| == chunks && Bitset.Members(words) == c.0
                                  && Cached(cache, CacheEntry(words, c.1))
  }

  method CacheContains<S(==)>(cache: Cache<S>, entry: CacheEntry<S>) returns (found: bool)
    ensures found <==> Cached(cache, entry)
  {
    var hash := Bitset.HashOf(entry.linearized);
    if Key(hash) in cache {
      var bucket := cache[Key(hash)];
      for i := 0 to |bucket|
        invariant forall k :: 0 <= k < i ==> bucket[k] != entry
      {
        var same := Bitset.Equals(entry.linearized, bucket[i].linearized);
        if same && entry.state == bucket[i].state { return true; }
      }
    }
    return false;
  }

  /** Whatever the hash function, a lookup finds exactly the configurations met before. */
  lemma CacheExact<S(!new)>(cache: Cache<S>, seen: set<Config<S>>, chunks: nat, e: CacheEntry<S>)
    requires CacheOk(cache, seen, chunks) && |e.linearized| == chunks
    ensures Cached(cache, e) <==> (Bitset.Members(e.linearized), e.state) in seen
  {
    hide Cached;
    var c := (Bitset.Members(e.linearized), e.state);
    if c in seen {
      assert Stored(cache, c, chunks);
      var words :| |words| == chunks && Bitset.Members(words) == c.0 && Cached(cache, CacheEntry(words, c.1));
      Bitset.SameMembers(words, e.linearized);
    }
  }

  function Remember<S>(cache: Cache<S>, hash: bv64, e: CacheEntry<S>): Cache<S> {
    cache[Key(hash) := (if Key(hash) in cache then cache[Key(hash)] else []) + [e]]
  }

  lemma RememberAdds<S>(cache: Cache<S>, e: CacheEntry<S>, f: CacheEntry<S>)
    ensures Cached(Remember(cache, Bitset.Hash(e.linearized), e), f) <==> f == e || Cached(cache, f)
  {
    var key := Key(Bitset.Hash(e.linearized));
    var bucket := if key in cache then cache[key] else [];
    assert f in bucket + [e] <==> f in bucket || f == e;
    assert (bucket + [e])[|bucket|] == e;
  }

  lemma RememberOk<S(!new)>(cache: Cache<S>, seen: set<Config<S>>, chunks: nat, e: CacheEntry<S>)
    requires CacheOk(cache, seen, chunks) && |e.linearized| == chunks
    ensures CacheOk(Remember(cache, Bitset.Hash(e.linearized), e), seen + {(Bitset.Members(e.linearized), e.state)},
                    chunks)
  {
    hide Cached, Remember;
    var cache', seen' := Remember(cache, Bitset.Hash(e.linearized), e),
      seen + {(Bitset.Members(e.linearized), e.state)};
    forall f: CacheEntry<S> ensures Cached(cache', f) <==> f == e || Cached(cache, f) { RememberAdds(cache, e, f); }
    forall c <- seen' ensures Stored(cache', c, chunks) {
      if c in seen {
        assert Stored(cache, c, chunks);
        var words :| |words| == chunks && Bitset.Members(words) == c.0 && Cached(cache, CacheEntry(words, c.1));
        assert Cached(cache', CacheEntry(words, c.1));
      } else {
        assert Cached(cache', CacheEntry(e.linearized, c.1));
      }
    }
  }

  // ---- The calls stack

  datatype CallsEntry<V, S> = CallsEntry(entry: Node<V>, state: S)

  ghost predicate CallsOk<V, S>(nodes: seq<Node<V>>, h: History<V>, p: Path<S>, calls: seq<CallsEntry<V, S>>) {
    && |calls| == |p.ids| && |p.states| == |p.ids| + 1
    && forall d :: 0 <= d < |calls| ==> FrameOk(nodes, h, p.ids[d], p.states[d], calls[d])
  }

  ghost predicate FrameOk<V, S>(nodes: seq<Node<V>>, h: History<V>, x: int, st: S, call: CallsEntry<V, S>) {
    && 0 <= x < |h.call| && 0 <= h.call[x] < |nodes|
    && call.entry == nodes[h.call[x]] && call.entry.id == x && call.state == st
  }

  method Ids<V, S>(calls: seq<CallsEntry<V, S>>, ghost ids: seq<int>) returns (order: seq<int>)
    requires |calls| == |ids| && forall d :: 0 <= d < |calls| ==> calls[d].entry.id == ids[d]
    ensures order == ids
  {
    order := [];
    for i := 0 to |calls|
      invariant order == ids[..i]
    {
      order := order + [calls[i].entry.id];
    }
  }

  /** Each operation of `ids` gets it as its sequence, unless it has one that is as long. */
  function Lengthen(longest: Longest, ids: seq<int>): Longest {
    seq(|longest|, i requires 0 <= i < |longest| =>
          if i in ids && (longest[i].None? || |ids| > |longest[i].value|) then Some(ids) else longest[i])
  }

  method RecordLongest<V, S>(longest: array<Option<seq<int>>>, calls: seq<CallsEntry<V, S>>, ghost ids: seq<int>)
    requires |calls| == |ids| && InRange(ids, longest.Length)
             && forall d :: 0 <= d < |calls| ==> calls[d].entry.id == ids[d]
    modifies longest
    ensures longest[..] == Lengthen(old(longest[..]), ids)
  {
    var callsLen := |calls|;
    var order: Option<seq<int>> := None;
    for k := 0 to |calls|
      invariant order.Some? ==> order.value == ids
      invariant longest[..] == LengthenTo(old(longest[..]), ids, k)
    {
      var id := calls[k].entry.id;
      if longest[id].None? || callsLen > |longest[id].value| {
        if order.None? {
          var created := Ids(calls, ids);
          order := Some(created);
        }
        longest[id] := order;
      }
      LengthenNext(old(longest[..]), ids, k);
      assert longest[..] == LengthenTo(old(longest[..]), ids, k + 1);
    }
    assert ids[..|calls|] == ids;
  }

  /** After the first `k` rounds of the loop. */
  ghost function LengthenTo(longest: Longest, ids: seq<int>, k: nat): Longest
    requires k <= |ids|
  {
    seq(|longest|, i requires 0 <= i < |longest| =>
          if i in ids[..k] && (longest[i].None? || |ids| > |longest[i].value|) then Some(ids) else longest[i])
  }

  lemma LengthenNext(longest: Longest, ids: seq<int>, k: nat)
    requires k < |ids| && InRange(ids, |longest|)
    ensures var l, id := LengthenTo(longest, ids, k), ids[k];
            LengthenTo(longest, ids, k + 1) == if l[id].None? || |ids| > |l[id].value| then l[id := Some(ids)] else l
  {
    assert ids[..k + 1] == ids[..k] + [ids[k]];
  }

  /** Everything recorded for an operation is a partial linearization that contains it. */
  ghost predicate PartialsOk<S, V>(m: Model<S, V>, h: History<V>, longest: Longest)
    requires h.Valid()
  {
    && |longest| == h.Size()
    && forall i :: 0 <= i < |longest| && longest[i].Some? ==> Partial(m, h, longest[i].value) && i in longest[i].value
  }

  lemma LengthenOk<S, V>(m: Model<S, V>, h: History<V>, longest: Longest, ids: seq<int>)
    requires h.Valid() && PartialsOk(m, h, longest) && Partial(m, h, ids)
    ensures PartialsOk(m, h, Lengthen(longest, ids))
    ensures Improves(longest, Lengthen(longest, ids)) && Logged(Lengthen(longest, ids), Elems(ids))
  {
    ElemsSize(ids);
  }

  // ---- The moves of the search, on the list and on what is known about it

  ghost predicate Searching<S(!new), V>(m: Model<S, V>, h: History<V>, entries: seq<Entry<V>>, head: Node<V>,
                                        nodes: seq<Node<V>>,
                                        p: Path<S>, seen: set<Config<S>>, longest: Option<Longest>, pos: int)
    reads head, nodes
  {
    && ListOk(head, nodes, entries, h, p.ids)
    && SearchOk(m, h, p, seen, longest, pos)
    && seen <= Universe(m, h, h.Size())
    && 0 <= pos <= |entries| && (pos < |entries| ==> entries[pos].id !in p.ids)
  }

  /** The cursor is at a node exactly when the list is not empty. */
  lemma CursorInList<S(!new), V>(m: Model<S, V>, h: History<V>, entries: seq<Entry<V>>, head: Node<V>,
                                 nodes: seq<Node<V>>,
                                 p: Path<S>, seen: set<Config<S>>, longest: Option<Longest>, pos: int)
    requires Searching(m, h, entries, head, nodes, p, seen, longest, pos)
    ensures if head.next != null then pos < |entries| else Below(h.Size()) <= Elems(p.ids)
  {
    FirstNode(head, nodes, entries, h, Elems(p.ids));
    hide Linked, ListOf, StackParked, PathOk, FramesTried, MemoOk, Tried, Universe;
    var q := First(entries, Elems(p.ids), 0);
    if q < |entries| {
      var x := entries[q].id;
      assert h.ret[x] >= pos;
    }
  }

  lemma SkipMove<S(!new), V>(m: Model<S, V>, h: History<V>, entries: seq<Entry<V>>, head: Node<V>, nodes: seq<Node<V>>,
                             p: Path<S>, seen: set<Config<S>>, longest: Option<Longest>, pos: int)
    requires Searching(m, h, entries, head, nodes, p, seen, longest, pos) && pos < |entries|
             && entries[pos].kind == CallEntry
    requires Covered(m, h, seen, Elems(p.ids), Top(p), entries[pos].id)
    ensures var q := First(entries, Elems(p.ids), pos + 1);
            && pos < q < |entries| && nodes[pos].next == nodes[q]
            && Searching(m, h, entries, head, nodes, p, seen, longest, q)
  {
    NextNode(head, nodes, entries, h, Elems(p.ids), pos);
    NextIsAdjacent(entries, h, Elems(p.ids), pos);
    hide Linked, ListOf, StackParked, SearchOk, Universe, Adjacent;
    SkipOk(m, h, p, seen, longest, entries[pos].id, First(entries, Elems(p.ids), pos + 1));
  }

  method LiftMove<S(!new), V>(entry: Node<V>, ghost m: Model<S, V>, ghost h: History<V>, ghost entries: seq<Entry<V>>,
                              ghost head: Node<V>, ghost nodes: seq<Node<V>>, ghost p: Path<S>,
                              ghost seen: set<Config<S>>, ghost longest: Option<Longest>, ghost pos: int, ghost st': S)
    requires Searching(m, h, entries, head, nodes, p, seen, longest, pos) && 0 <= pos < |entries|
             && entries[pos].kind == CallEntry
    requires entry == nodes[pos] && Accepted(m, h, Top(p), entries[pos].id, st')
    modifies head, nodes
    ensures var x, c := entries[pos].id, (Elems(p.ids) + {entries[pos].id}, st');
            var q := First(entries, c.0, 0);
            && Searching(m, h, entries, head, nodes, Push(p, x, st'), seen + {c}, longest, q)
            && c in Universe(m, h, h.Size())
            && head.next == (if q == |entries| then null else nodes[q])
  {
    hide *;
    ghost var x, c := entries[pos].id, (Elems(p.ids) + {entries[pos].id}, st');
    LiftKnown(m, h, entries, head, nodes, p, seen, longest, pos, st');
    LiftOp(entry, head, nodes, entries, h, p.ids, x);
    ListAfter(head, nodes, entries, h, p.ids, x);
    SearchingIs(m, h, entries, head, nodes, Push(p, x, st'), seen + {c}, longest, First(entries, c.0, 0));
  }

  lemma LiftKnown<S(!new), V>(m: Model<S, V>, h: History<V>, entries: seq<Entry<V>>, head: Node<V>, nodes: seq<Node<V>>,
                              p: Path<S>, seen: set<Config<S>>, longest: Option<Longest>, pos: int, st': S)
    requires Searching(m, h, entries, head, nodes, p, seen, longest, pos) && pos < |entries|
             && entries[pos].kind == CallEntry
    requires Accepted(m, h, Top(p), entries[pos].id, st')
    ensures var x, c := entries[pos].id, (Elems(p.ids) + {entries[pos].id}, st');
            && h.Valid() && |h.call| == h.Size() && ListOk(head, nodes, entries, h, p.ids) && 0 <= x < h.Size()
               && x !in p.ids
            && |nodes| == |entries| && h.call[x] == pos
            && Push(p, x, st').ids == p.ids + [x]
            && SearchOk(m, h, Push(p, x, st'), seen + {c}, longest, First(entries, c.0, 0))
            && c in Universe(m, h, h.Size()) && seen + {c} <= Universe(m, h, h.Size())
  {
    hide SearchOk, Universe, StackParked, ListOf, Linked;
    PushKnown(m, h, entries, p, seen, longest, entries[pos].id, st');
  }

  lemma SearchingIs<S(!new), V>(m: Model<S, V>, h: History<V>, entries: seq<Entry<V>>, head: Node<V>,
                                nodes: seq<Node<V>>,
                                p: Path<S>, seen: set<Config<S>>, longest: Option<Longest>, pos: int)
    requires ListOk(head, nodes, entries, h, p.ids) && SearchOk(m, h, p, seen, longest, pos)
    requires seen <= Universe(m, h, h.Size())
    requires 0 <= pos <= |entries| && (pos < |entries| ==> entries[pos].id !in p.ids)
    ensures Searching(m, h, entries, head, nodes, p, seen, longest, pos)
  {
    hide ListOk, SearchOk, Universe;
  }

  lemma ListAfter<V>(head: Node<V>, nodes: seq<Node<V>>, entries: seq<Entry<V>>, h: History<V>, ids: seq<int>, x: int)
    requires ListOk(head, nodes, entries, h, ids + [x])
    ensures var q := First(entries, Elems(ids) + {x}, 0);
            && |nodes| == |entries| && head.next == (if q == |entries| then null else nodes[q])
            && (q < |entries| ==> entries[q].id !in ids + [x])
  {
    hide ListOf, Linked, StackParked;
    ElemsSnoc(ids, x);
    FirstNode(head, nodes, entries, h, Elems(ids + [x]));
  }

  lemma PushKnown<S(!new), V>(m: Model<S, V>, h: History<V>, entries: seq<Entry<V>>, p: Path<S>, seen: set<Config<S>>,
                              longest: Option<Longest>,
                              x: int, st': S)
    requires LaidOut(entries, h) && 0 <= x < h.Size() && SearchOk(m, h, p, seen, longest, h.call[x])
    requires x !in p.ids && Accepted(m, h, Top(p), x, st')
    ensures var c := (Elems(p.ids) + {x}, st');
            && SearchOk(m, h, Push(p, x, st'), seen + {c}, longest, First(entries, c.0, 0))
            && c in Universe(m, h, h.Size())
  {
    var c := (Elems(p.ids) + {x}, st');
    var q := First(entries, c.0, 0);
    forall y | 0 <= y < h.Size() && y !in c.0 ensures h.call[y] >= q && h.ret[y] >= q {
      assert entries[h.call[y]].id == y && entries[h.ret[y]].id == y;
    }
    hide FramesTried, MemoOk, Tried, NoReturnBefore, ReadyInTurn, Universe, LaidOut;
    PushOk(m, h, p, seen, longest, x, st', q);
    ElemsSnoc(p.ids, x);
    PathInUniverse(m, h, Push(p, x, st'));
  }

  method UnliftMove<S(!new), V>(entry: Node<V>, ghost m: Model<S, V>, ghost h: History<V>,
                                ghost entries: seq<Entry<V>>, ghost head: Node<V>, ghost nodes: seq<Node<V>>,
                                ghost p: Path<S>, ghost seen: set<Config<S>>, ghost longest: Option<Longest>,
                                ghost pos: int)
    requires Searching(m, h, entries, head, nodes, p, seen, longest, pos) && pos < |entries|
             && entries[pos].kind == ReturnEntry
    requires |p.ids| > 0 && entry == nodes[h.call[p.ids[|p.ids| - 1]]]
    requires longest.Some? ==> Logged(longest.value, Elems(p.ids))
    modifies head, nodes
    ensures var q := First(entries, Elems(Pop(p).ids), h.call[p.ids[|p.ids| - 1]] + 1);
            && Searching(m, h, entries, head, nodes, Pop(p), seen, longest, q)
            && q < |entries| && entry.next == nodes[q]
  {
    ghost var x, ids := p.ids[|p.ids| - 1], Pop(p).ids;
    ghost var q := First(entries, Elems(ids), h.call[x] + 1);
    PathPop(m, h, p);
    NextIsAdjacent(entries, h, Elems(ids), h.call[x]);
    PopOk(m, h, p, seen, longest, entries[pos].id, q);
    PathFacts(m, h, Pop(p));
    assert p.ids == ids + [x] && Pop(p).ids == ids;
    hide *;
    UnliftOp(entry, head, nodes, entries, h, ids, x);
    AfterUnlift(head, nodes, entries, h, ids, x);
    SearchingIs(m, h, entries, head, nodes, Pop(p), seen, longest, q);
  }

  lemma AfterUnlift<V>(head: Node<V>, nodes: seq<Node<V>>, entries: seq<Entry<V>>, h: History<V>, ids: seq<int>, x: int)
    requires ListOk(head, nodes, entries, h, ids) && 0 <= x < h.Size() && x !in ids
    ensures var q := First(entries, Elems(ids), h.call[x] + 1);
            && |nodes| == |entries| && q < |entries| && nodes[h.call[x]].next == nodes[q] && entries[q].id !in ids
  {
    hide ListOf, Linked, StackParked, Adjacent, Carries, AllDifferent;
    NextIsAdjacent(entries, h, Elems(ids), h.call[x]);
    NextNode(head, nodes, entries, h, Elems(ids), h.call[x]);
  }

  lemma PathFacts<S, V>(m: Model<S, V>, h: History<V>, p: Path<S>)
    requires h.Valid() && PathOk(m, h, p)
    ensures InRange(p.ids, h.Size()) && Distinct(p.ids) && |p.states| == |p.ids| + 1
  {
  }

  // ---- checkSingle

  /** What a node of the list holds. */
  lemma NodeFacts<V>(head: Node<V>, nodes: seq<Node<V>>, entries: seq<Entry<V>>, h: History<V>, pos: int)
    requires NodesOk(head, nodes, entries, h) && 0 <= pos < |entries|
    ensures var n, x := nodes[pos], entries[pos].id;
            && 0 <= x < h.Size() && n.id == x
            && (if entries[pos].kind == ReturnEntry then n.match_ == null && h.ret[x] == pos
                else && n.match_ != null && h.call[x] == pos
                     && n.value == Some(h.input[x]) && n.match_.value == Some(h.output[x]))
  {
    assert Carries(nodes[pos], entries[0 + pos], nodes, 0, h);
    var r := h.ret[entries[pos].id];
    assert Carries(nodes[r], entries[0 + r], nodes, 0, h);
  }

  lemma SearchingFacts<S(!new), V>(m: Model<S, V>, h: History<V>, entries: seq<Entry<V>>, head: Node<V>,
                                   nodes: seq<Node<V>>,
                                   p: Path<S>, seen: set<Config<S>>, longest: Option<Longest>, pos: int)
    requires Searching(m, h, entries, head, nodes, p, seen, longest, pos)
    ensures LaidOut(entries, h) && h.Valid() && NodesOk(head, nodes, entries, h) && |nodes| == |entries|
    ensures PathOk(m, h, p) && |p.states| == |p.ids| + 1 && InRange(p.ids, h.Size())
    ensures 0 <= pos <= |entries| && (pos < |entries| ==> entries[pos].id !in p.ids)
  {
  }

  lemma CallsPush<V, S>(nodes: seq<Node<V>>, h: History<V>, p: Path<S>, calls: seq<CallsEntry<V, S>>, x: int, st': S,
                        entry: Node<V>)
    requires CallsOk(nodes, h, p, calls) && FrameOk(nodes, h, x, Top(p), CallsEntry(entry, Top(p)))
    ensures CallsOk(nodes, h, Push(p, x, st'), calls + [CallsEntry(entry, Top(p))])
  {
  }

  lemma CallsPop<V, S>(nodes: seq<Node<V>>, h: History<V>, p: Path<S>, calls: seq<CallsEntry<V, S>>)
    requires CallsOk(nodes, h, p, calls) && |p.ids| > 0
    ensures CallsOk(nodes, h, Pop(p), calls[..|calls| - 1])
    ensures FrameOk(nodes, h, p.ids[|p.ids| - 1], Top(Pop(p)), calls[|calls| - 1])
    ensures forall d :: 0 <= d < |calls| ==> calls[d].entry.id == p.ids[d]
  {
    assert FrameOk(nodes, h, p.ids[|p.ids| - 1], p.states[|p.ids| - 1], calls[|calls| - 1]);
    forall d | 0 <= d < |calls| ensures calls[d].entry.id == p.ids[d] {
      assert FrameOk(nodes, h, p.ids[d], p.states[d], calls[d]);
    }
  }

  lemma MeasureDrops<T>(universe: set<T>, seen: set<T>, c: T)
    requires c in universe && c !in seen
    ensures |universe - (seen + {c})| < |universe - seen|
  {
    assert universe - (seen + {c}) == (universe - seen) - {c};
  }

  lemma ListStart<V>(head: Node<V>, nodes: seq<Node<V>>, entries: seq<Entry<V>>, h: History<V>)
    requires LaidOut(entries, h) && Carry(nodes, entries, 0, h) && head !in nodes && Linked([head] + nodes)
    ensures ListOk(head, nodes, entries, h, [])
  {
    TailDiffers(head, nodes);
    hide Linked, LaidOut, Carry, Rest;
    assert Elems([]) == {};
    RestAll(nodes, entries, 0);
    assert nodes[0..] == nodes;
  }

  lemma TailDiffers<V>(head: Node<V>, nodes: seq<Node<V>>)
    requires Linked([head] + nodes)
    ensures AllDifferent(nodes)
  {
    var l := [head] + nodes;
    forall a, b | 0 <= a < b < |nodes| ensures nodes[a] != nodes[b] {
      assert l[a + 1] == nodes[a] && l[b + 1] == nodes[b];
    }
  }

  lemma {:induction false} RestAll<V>(nodes: seq<Node<V>>, entries: seq<Entry<V>>, lo: int)
    requires 0 <= lo <= |entries| == |nodes|
    ensures Rest(nodes, entries, {}, lo, |entries|) == nodes[lo..]
    decreases |entries| - lo
  {
    if lo < |entries| {
      RestAll(nodes, entries, lo + 1);
      assert nodes[lo..] == [nodes[lo]] + nodes[lo + 1..];
    }
  }

  lemma SearchingStart<S(!new), V>(m: Model<S, V>, h: History<V>, entries: seq<Entry<V>>, head: Node<V>,
                                   nodes: seq<Node<V>>, longest: Option<Longest>)
    requires ListOk(head, nodes, entries, h, [])
    ensures Searching(m, h, entries, head, nodes, Path([], [m.init]), {}, longest, 0)
  {
    LaidOutApart(entries, h);
    SearchStart(m, h, longest, 0);
    hide SearchOk, Linked, ListOf, StackParked, Universe;
  }
}
