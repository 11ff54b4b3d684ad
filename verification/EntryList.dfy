/**
 The list at any point of the search is the original one minus the calls and
 returns on the stack, and every lifted pair can be put back in stack order.
 */
module EntryList {
  import opened Sets
  import opened Linearizability
  import opened HistoryEntries
  import opened LinkedEntries
  import opened SearchSpace

  // ---- The nodes still in the list

  /** The nodes at positions [lo, hi) whose operation is not in `done`. */
  ghost function Rest<V>(nodes: seq<Node<V>>, entries: seq<Entry<V>>, done: set<int>, lo: int, hi: int): seq<Node<V>>
    requires 0 <= lo <= hi <= |entries| == |nodes|
    decreases hi - lo
  {
    if lo == hi then [] else (if entries[lo].id in done then [] else [nodes[lo]]) +
                             Rest(nodes, entries, done, lo + 1, hi)
  }

  lemma {:induction false} RestSplit<V>(nodes: seq<Node<V>>, entries: seq<Entry<V>>, done: set<int>, lo: int, mid: int,
                                        hi: int)
    requires 0 <= lo <= mid <= hi <= |entries| == |nodes|
    ensures Rest(nodes, entries, done, lo, hi) == Rest(nodes, entries, done, lo, mid) +
              Rest(nodes, entries, done, mid, hi)
    decreases mid - lo
  {
    if lo < mid { RestSplit(nodes, entries, done, lo + 1, mid, hi); }
  }

  lemma RestAt<V>(nodes: seq<Node<V>>, entries: seq<Entry<V>>, done: set<int>, p: int, hi: int)
    requires 0 <= p < hi <= |entries| == |nodes|
    ensures Rest(nodes, entries, done, p, hi) ==
            (if entries[p].id in done then [] else [nodes[p]]) + Rest(nodes, entries, done, p + 1, hi)
  {
  }

  /** Where `done` makes no difference. */
  lemma {:induction false} RestSame<V>(nodes: seq<Node<V>>, entries: seq<Entry<V>>, done: set<int>, done': set<int>,
                                       lo: int, hi: int)
    requires 0 <= lo <= hi <= |entries| == |nodes|
    requires forall k :: lo <= k < hi ==> (entries[k].id in done <==> entries[k].id in done')
    ensures Rest(nodes, entries, done, lo, hi) == Rest(nodes, entries, done', lo, hi)
    decreases hi - lo
  {
    if lo < hi { RestSame(nodes, entries, done, done', lo + 1, hi); }
  }

  lemma {:induction false} RestHas<V>(nodes: seq<Node<V>>, entries: seq<Entry<V>>, done: set<int>, lo: int, hi: int,
                                      n: Node<V>)
    requires 0 <= lo <= hi <= |entries| == |nodes| && n in Rest(nodes, entries, done, lo, hi)
    ensures exists k :: lo <= k < hi && nodes[k] == n && entries[k].id !in done
    decreases hi - lo
  {
    if n in Rest(nodes, entries, done, lo + 1, hi) {
      RestHas(nodes, entries, done, lo + 1, hi, n);
    } else {
      assert nodes[lo] == n && entries[lo].id !in done;
    }
  }

  ghost predicate AllDifferent<V>(nodes: seq<Node<V>>) {
    forall a, b :: 0 <= a < b < |nodes| ==> nodes[a] != nodes[b]
  }

  lemma {:induction false} RestDiffer<V>(nodes: seq<Node<V>>, entries: seq<Entry<V>>, done: set<int>, lo: int, hi: int)
    requires 0 <= lo <= hi <= |entries| == |nodes| && AllDifferent(nodes)
    ensures AllDifferent(Rest(nodes, entries, done, lo, hi))
    decreases hi - lo
  {
    if lo < hi {
      RestDiffer(nodes, entries, done, lo + 1, hi);
      if nodes[lo] in Rest(nodes, entries, done, lo + 1, hi) {
        RestHas(nodes, entries, done, lo + 1, hi, nodes[lo]);
      }
    }
  }

  // ---- The list

  /** The fixed part: the nodes are the head and one per entry, all different. */
  ghost predicate NodesOk<V>(head: Node<V>, nodes: seq<Node<V>>, entries: seq<Entry<V>>, h: History<V>) {
    && LaidOut(entries, h)
    && Carry(nodes, entries, 0, h)
    && head !in nodes
    && AllDifferent(nodes)
  }

  ghost function ListOf<V>(head: Node<V>, nodes: seq<Node<V>>, entries: seq<Entry<V>>, done: set<int>): seq<Node<V>>
    requires |nodes| == |entries|
  {
    [head] + Rest(nodes, entries, done, 0, |entries|)
  }

  /** Where the node of position `p` is in the list, counting the head. */
  ghost function Spot<V>(nodes: seq<Node<V>>, entries: seq<Entry<V>>, done: set<int>, p: int): nat
    requires 0 <= p <= |entries| == |nodes|
  {
    |Rest(nodes, entries, done, 0, p)| + 1
  }

  lemma SpotAt<V>(head: Node<V>, nodes: seq<Node<V>>, entries: seq<Entry<V>>, done: set<int>, p: int)
    requires 0 <= p < |entries| == |nodes| && entries[p].id !in done
    ensures Spot(nodes, entries, done, p) < |ListOf(head, nodes, entries, done)|
    ensures ListOf(head, nodes, entries, done)[Spot(nodes, entries, done, p)] == nodes[p]
  {
    RestSplit(nodes, entries, done, 0, p, |entries|);
    RestAt(nodes, entries, done, p, |entries|);
  }

  lemma ListDiffers<V>(head: Node<V>, nodes: seq<Node<V>>, entries: seq<Entry<V>>, h: History<V>, done: set<int>)
    requires NodesOk(head, nodes, entries, h)
    ensures AllDifferent(ListOf(head, nodes, entries, done))
    ensures var l := ListOf(head, nodes, entries, done); forall i :: 0 <= i < |l| ==> l[i] == head || l[i] in nodes
  {
    RestDiffer(nodes, entries, done, 0, |entries|);
    if head in Rest(nodes, entries, done, 0, |entries|) {
      RestHas(nodes, entries, done, 0, |entries|, head);
    }
    var l := ListOf(head, nodes, entries, done);
    forall i | 0 <= i < |l| ensures l[i] == head || l[i] in nodes {
      if i > 0 {
        assert l[i] in Rest(nodes, entries, done, 0, |entries|);
        RestHas(nodes, entries, done, 0, |entries|, l[i]);
      }
    }
  }

  /** Nodes of linearized operations are out of the list. */
  lemma NotListed<V>(head: Node<V>, nodes: seq<Node<V>>, entries: seq<Entry<V>>, h: History<V>, done: set<int>, p: int)
    requires NodesOk(head, nodes, entries, h) && 0 <= p < |entries| && entries[p].id in done
    ensures nodes[p] !in ListOf(head, nodes, entries, done)
  {
    if nodes[p] in Rest(nodes, entries, done, 0, |entries|) {
      RestHas(nodes, entries, done, 0, |entries|, nodes[p]);
    }
  }

  lemma RestThrough<V>(nodes: seq<Node<V>>, entries: seq<Entry<V>>, done: set<int>, c: int, r: int)
    requires 0 <= c < r < |entries| == |nodes|
    ensures Rest(nodes, entries, done, 0, |entries|) ==
            Rest(nodes, entries, done, 0, c)
            + ((if entries[c].id in done then [] else [nodes[c]])
               + (Rest(nodes, entries, done, c + 1, r)
                  + ((if entries[r].id in done then [] else [nodes[r]]) +
                     Rest(nodes, entries, done, r + 1, |entries|))))
  {
    hide Rest;
    RestSplit(nodes, entries, done, 0, c, |entries|);
    RestAt(nodes, entries, done, c, |entries|);
    RestSplit(nodes, entries, done, c + 1, r, |entries|);
    RestAt(nodes, entries, done, r, |entries|);
  }

  lemma WithoutParts<T>(head: T, front: seq<T>, c: T, mid: seq<T>, r: T, back: seq<T>)
    ensures var l := [head] + (front + ([c] + (mid + ([r] + back))));
            var i, j := |front| + 1, |front| + |mid| + 2;
            && 0 < i < j < |l| && l[i] == c && l[j] == r
            && Without(l, i, j) == [head] + (front + ([] + (mid + ([] + back))))
  {
    var l := [head] + (front + ([c] + (mid + ([r] + back))));
    var i, j := |front| + 1, |front| + |mid| + 2;
    assert l[..i] == [head] + front;
    assert l[i + 1..j] == mid;
    assert l[j + 1..] == back;
  }

  ghost function CallSpot<V>(nodes: seq<Node<V>>, entries: seq<Entry<V>>, h: History<V>, done: set<int>, x: int): int
    requires LaidOut(entries, h) && |nodes| == |entries| && 0 <= x < h.Size()
  {
    Spot(nodes, entries, done, h.call[x])
  }

  ghost function ReturnSpot<V>(nodes: seq<Node<V>>, entries: seq<Entry<V>>, h: History<V>, done: set<int>, x: int): int
    requires LaidOut(entries, h) && |nodes| == |entries| && 0 <= x < h.Size()
  {
    Spot(nodes, entries, done, h.ret[x])
  }

  lemma ReturnSpotIs<V>(nodes: seq<Node<V>>, entries: seq<Entry<V>>, h: History<V>, done: set<int>, x: int)
    requires LaidOut(entries, h) && |nodes| == |entries| && 0 <= x < h.Size() && x !in done
    ensures ReturnSpot(nodes, entries, h, done, x) ==
            |Rest(nodes, entries, done, 0, h.call[x])| + |Rest(nodes, entries, done, h.call[x] + 1, h.ret[x])| + 2
  {
    var c, r := h.call[x], h.ret[x];
    RestSplit(nodes, entries, done, 0, c, r);
    RestAt(nodes, entries, done, c, r);
  }

  /** Linearizing `x` takes exactly its two nodes out of the list. */
  lemma SpotsOk<V>(head: Node<V>, nodes: seq<Node<V>>, entries: seq<Entry<V>>, h: History<V>, done: set<int>, x: int)
    requires NodesOk(head, nodes, entries, h) && 0 <= x < h.Size() && x !in done
    ensures var l := ListOf(head, nodes, entries, done);
            var (i, j) := (CallSpot(nodes, entries, h, done, x), ReturnSpot(nodes, entries, h, done, x));
            && 0 < i < j < |l| && l[i] == nodes[h.call[x]] && l[j] == nodes[h.ret[x]]
            && l[i].match_ == l[j]
            && ListOf(head, nodes, entries, done + {x}) == Without(l, i, j)
  {
    hide Rest, Without;
    var c, r, n, done' := h.call[x], h.ret[x], |entries|, done + {x};
    RestThrough(nodes, entries, done, c, r);
    RestThrough(nodes, entries, done', c, r);
    RestSame(nodes, entries, done, done', 0, c);
    RestSame(nodes, entries, done, done', c + 1, r);
    RestSame(nodes, entries, done, done', r + 1, n);
    ReturnSpotIs(nodes, entries, h, done, x);
    WithoutParts(head, Rest(nodes, entries, done, 0, c), nodes[c], Rest(nodes, entries, done, c + 1, r), nodes[r],
                 Rest(nodes, entries, done, r + 1, n));
    assert Carries(nodes[c], entries[0 + c], nodes, 0, h);
  }

  // ---- Walking along it

  /** The first position from `lo` on that is still in the list. */
  ghost function First<V>(entries: seq<Entry<V>>, done: set<int>, lo: int): (q: int)
    requires 0 <= lo <= |entries|
    ensures lo <= q <= |entries| && (q < |entries| ==> entries[q].id !in done)
    ensures forall k :: lo <= k < q ==> entries[k].id in done
    decreases |entries| - lo
  {
    if lo == |entries| || entries[lo].id !in done then lo else First(entries, done, lo + 1)
  }

  lemma {:induction false} RestFirst<V>(nodes: seq<Node<V>>, entries: seq<Entry<V>>, done: set<int>, lo: int)
    requires 0 <= lo <= |entries| == |nodes|
    ensures var q, rest := First(entries, done, lo), Rest(nodes, entries, done, lo, |entries|);
            if q == |entries| then rest == [] else rest != [] && rest[0] == nodes[q]
    decreases |entries| - lo
  {
    if lo < |entries| { RestFirst(nodes, entries, done, lo + 1); }
  }

  lemma FirstNode<V>(head: Node<V>, nodes: seq<Node<V>>, entries: seq<Entry<V>>, h: History<V>, done: set<int>)
    requires NodesOk(head, nodes, entries, h) && Linked(ListOf(head, nodes, entries, done))
    ensures var q := First(entries, done, 0);
            && head.next == (if q == |entries| then null else nodes[q])
            && (q == |entries| ==> Below(h.Size()) <= done)
            && forall x :: 0 <= x < h.Size() && x !in done ==> h.call[x] >= q && h.ret[x] >= q
  {
    hide Rest;
    RestFirst(nodes, entries, done, 0);
    var l := ListOf(head, nodes, entries, done);
    assert l[0] == head && l[0].next == if |l| > 1 then l[1] else null;
    var q := First(entries, done, 0);
    forall x | 0 <= x < h.Size() && x !in done ensures h.call[x] >= q && h.ret[x] >= q {
      assert entries[h.call[x]].id == x && entries[h.ret[x]].id == x;
    }
    forall x | x in Below(h.Size()) && q == |entries| ensures x in done {
      assert entries[h.call[x]].id == x;
    }
  }

  lemma NextNode<V>(head: Node<V>, nodes: seq<Node<V>>, entries: seq<Entry<V>>, h: History<V>, done: set<int>, p: int)
    requires NodesOk(head, nodes, entries, h) && Linked(ListOf(head, nodes, entries, done))
    requires 0 <= p < |entries| && entries[p].id !in done
    ensures var q := First(entries, done, p + 1); nodes[p].next == if q == |entries| then null else nodes[q]
  {
    hide Rest;
    var l, i := ListOf(head, nodes, entries, done), Spot(nodes, entries, done, p);
    SpotAt(head, nodes, entries, done, p);
    RestSplit(nodes, entries, done, 0, p, |entries|);
    RestAt(nodes, entries, done, p, |entries|);
    RestFirst(nodes, entries, done, p + 1);
    assert l[i].next == if i + 1 < |l| then l[i + 1] else null;
  }

  lemma NextIsAdjacent<V>(entries: seq<Entry<V>>, h: History<V>, done: set<int>, p: int)
    requires LaidOut(entries, h) && 0 <= p < |entries|
    ensures Adjacent(h, done, p, First(entries, done, p + 1))
    ensures entries[p].id !in done && entries[p].kind == CallEntry ==> First(entries, done, p + 1) < |entries|
  {
    var q := First(entries, done, p + 1);
    if entries[p].id !in done && entries[p].kind == CallEntry {
      var r := h.ret[entries[p].id];
      assert r >= q;
    }
  }

  lemma LaidOutApart<V>(entries: seq<Entry<V>>, h: History<V>)
    requires LaidOut(entries, h)
    ensures Apart(h)
  {
  }

  // ---- Lifting and unlifting operations

  /** The nodes of `x`, lifted when `done` was out of the list, remember where they belong. */
  ghost predicate Parked<V>(head: Node<V>, nodes: seq<Node<V>>, entries: seq<Entry<V>>, h: History<V>, done: set<int>,
                            x: int)
    requires LaidOut(entries, h) && |nodes| == |entries| && 0 <= x < h.Size()
    reads nodes[h.call[x]], nodes[h.ret[x]]
  {
    var l := ListOf(head, nodes, entries, done);
    var i, j := CallSpot(nodes, entries, h, done, x), ReturnSpot(nodes, entries, h, done, x);
    && 0 < i < j < |l| && l[i] == nodes[h.call[x]] && l[j] == nodes[h.ret[x]]
    && Remembers(l, i, j)
  }

  ghost predicate StackParked<V>(head: Node<V>, nodes: seq<Node<V>>, entries: seq<Entry<V>>, h: History<V>,
                                 ids: seq<int>)
    requires LaidOut(entries, h) && |nodes| == |entries| && InRange(ids, h.Size())
    reads nodes
  {
    forall d :: 0 <= d < |ids| ==> Parked(head, nodes, entries, h, Elems(ids[..d]), ids[d])
  }

  /** The list holds what is not on the stack, and the stack can be undone. */
  ghost predicate ListOk<V>(head: Node<V>, nodes: seq<Node<V>>, entries: seq<Entry<V>>, h: History<V>, ids: seq<int>)
    reads head, nodes
  {
    && NodesOk(head, nodes, entries, h)
    && InRange(ids, h.Size()) && Distinct(ids)
    && (ListDiffers(head, nodes, entries, h, Elems(ids)); Linked(ListOf(head, nodes, entries, Elems(ids))))
    && StackParked(head, nodes, entries, h, ids)
  }

  lemma ParkedPrefix<V>(head: Node<V>, nodes: seq<Node<V>>, entries: seq<Entry<V>>, h: History<V>, ids: seq<int>)
    requires LaidOut(entries, h) && |nodes| == |entries| && InRange(ids, h.Size()) && ids != []
    ensures var front, x := ids[..|ids| - 1], ids[|ids| - 1];
            StackParked(head, nodes, entries, h, ids) <==>
              StackParked(head, nodes, entries, h, front) && Parked(head, nodes, entries, h, Elems(front), x)
  {
    hide Parked, LaidOut;
    var front := ids[..|ids| - 1];
    forall d | 0 <= d < |front| ensures front[..d] == ids[..d] {}
    if StackParked(head, nodes, entries, h, ids) {
      forall d | 0 <= d < |front| ensures Parked(head, nodes, entries, h, Elems(front[..d]), front[d]) {
        assert Parked(head, nodes, entries, h, Elems(ids[..d]), ids[d]);
      }
    }
  }

  lemma PrefixElems(ids: seq<int>)
    requires Distinct(ids) && ids != []
    ensures var front, x := ids[..|ids| - 1], ids[|ids| - 1];
            x !in Elems(front) && Elems(ids) == Elems(front) + {x}
  {
    assert ids == ids[..|ids| - 1] + [ids[|ids| - 1]];
  }

  /** Rewiring the list leaves the nodes of lifted operations alone. */
  lemma NotRewired<V>(head: Node<V>, nodes: seq<Node<V>>, entries: seq<Entry<V>>, h: History<V>, done: set<int>)
    requires NodesOk(head, nodes, entries, h)
    ensures forall x <- done :: 0 <= x < h.Size() ==>
              nodes[h.call[x]] !in ListOf(head, nodes, entries, done)
                && nodes[h.ret[x]] !in ListOf(head, nodes, entries, done)
  {
    forall x <- done | 0 <= x < h.Size()
      ensures nodes[h.call[x]] !in ListOf(head, nodes, entries, done)
              && nodes[h.ret[x]] !in ListOf(head, nodes, entries, done)
    {
      NotListed(head, nodes, entries, h, done, h.call[x]);
      NotListed(head, nodes, entries, h, done, h.ret[x]);
    }
  }

  method LiftAt<V>(entry: Node<V>, ghost head: Node<V>, ghost nodes: seq<Node<V>>, ghost entries: seq<Entry<V>>,
                   ghost h: History<V>,
                   ghost done: set<int>, ghost x: int)
    requires NodesOk(head, nodes, entries, h) && Linked(ListOf(head, nodes, entries, done))
    requires 0 <= x < h.Size() && x !in done && entry == nodes[h.call[x]]
    modifies ListOf(head, nodes, entries, done)
    ensures Linked(ListOf(head, nodes, entries, done + {x})) && Parked(head, nodes, entries, h, done, x)
    ensures head.prev == old(head.prev)
  {
    SpotsOk(head, nodes, entries, h, done, x);
    hide Linked, Rest, Without, Remembers, Spot, NodesOk;
    Lift(entry, ListOf(head, nodes, entries, done), CallSpot(nodes, entries, h, done, x),
         ReturnSpot(nodes, entries, h, done, x));
  }

  method UnliftAt<V>(entry: Node<V>, ghost head: Node<V>, ghost nodes: seq<Node<V>>, ghost entries: seq<Entry<V>>,
                     ghost h: History<V>,
                     ghost done: set<int>, ghost x: int)
    requires NodesOk(head, nodes, entries, h) && Linked(ListOf(head, nodes, entries, done + {x}))
    requires 0 <= x < h.Size() && x !in done && entry == nodes[h.call[x]] && Parked(head, nodes, entries, h, done, x)
    modifies ListOf(head, nodes, entries, done)
    ensures Linked(ListOf(head, nodes, entries, done))
    ensures head.prev == old(head.prev)
  {
    SpotsOk(head, nodes, entries, h, done, x);
    ListDiffers(head, nodes, entries, h, done);
    hide Linked, Rest, Without, Remembers, Spot, NodesOk;
    Unlift(entry, ListOf(head, nodes, entries, done), CallSpot(nodes, entries, h, done, x),
           ReturnSpot(nodes, entries, h, done, x));
  }

  /** Lifts the call and return of `x` with the operations `ids` already out. */
  method LiftOp<V>(entry: Node<V>, ghost head: Node<V>, ghost nodes: seq<Node<V>>, ghost entries: seq<Entry<V>>,
                   ghost h: History<V>,
                   ghost ids: seq<int>, ghost x: int)
    requires ListOk(head, nodes, entries, h, ids) && 0 <= x < h.Size() && x !in ids && entry == nodes[h.call[x]]
    modifies head, nodes
    ensures ListOk(head, nodes, entries, h, ids + [x])
    ensures head.prev == old(head.prev)
  {
    ListDiffers(head, nodes, entries, h, Elems(ids));
    NotRewired(head, nodes, entries, h, Elems(ids));
    hide Linked, Rest, Parked, ListOf, NodesOk;
    LiftAt(entry, head, nodes, entries, h, Elems(ids), x);
    forall d | 0 <= d < |ids| ensures Parked(head, nodes, entries, h, Elems(ids[..d]), ids[d]) {
      assert old(Parked(head, nodes, entries, h, Elems(ids[..d]), ids[d]));
      assert ids[d] in Elems(ids);
    }
    ListPush(head, nodes, entries, h, ids, x);
  }

  lemma ListPush<V>(head: Node<V>, nodes: seq<Node<V>>, entries: seq<Entry<V>>, h: History<V>, ids: seq<int>, x: int)
    requires NodesOk(head, nodes, entries, h) && 0 <= x < h.Size() && x !in ids && InRange(ids, h.Size())
             && Distinct(ids)
    ensures ListOk(head, nodes, entries, h, ids + [x]) <==>
            && Linked(ListOf(head, nodes, entries, Elems(ids) + {x}))
            && StackParked(head, nodes, entries, h, ids) && Parked(head, nodes, entries, h, Elems(ids), x)
  {
    hide Linked, ListOf, Parked;
    var ids' := ids + [x];
    PrefixElems(ids');
    assert ids'[..|ids|] == ids;
    ParkedPrefix(head, nodes, entries, h, ids');
  }

  /** Puts the last operation lifted back. */
  method UnliftOp<V>(entry: Node<V>, ghost head: Node<V>, ghost nodes: seq<Node<V>>, ghost entries: seq<Entry<V>>,
                     ghost h: History<V>,
                     ghost ids: seq<int>, ghost x: int)
    requires ListOk(head, nodes, entries, h, ids + [x]) && 0 <= x < h.Size() && x !in ids && entry == nodes[h.call[x]]
    requires InRange(ids, h.Size()) && Distinct(ids)
    modifies head, nodes
    ensures ListOk(head, nodes, entries, h, ids)
    ensures head.prev == old(head.prev)
  {
    ListPush(head, nodes, entries, h, ids, x);
    ListDiffers(head, nodes, entries, h, Elems(ids));
    NotRewired(head, nodes, entries, h, Elems(ids));
    hide Linked, Rest, Parked, ListOf, NodesOk;
    UnliftAt(entry, head, nodes, entries, h, Elems(ids), x);
    forall d | 0 <= d < |ids| ensures Parked(head, nodes, entries, h, Elems(ids[..d]), ids[d]) {
      assert old(Parked(head, nodes, entries, h, Elems(ids[..d]), ids[d]));
      assert ids[d] in Elems(ids);
    }
  }
}
