/** The doubly linked list of call and return nodes that the search rewires in place (src/porcupine/checker.go). */
module LinkedEntries {
  import opened Options
  import opened Linearizability
  import opened HistoryEntries

  /** A call node's `match_` is its return node; a return node has none. */
  class Node<V> {
    const value: Option<V>
    const match_: Node?<V>
    const id: int
    var next: Node?<V>
    var prev: Node?<V>

    constructor (value: Option<V>, match_: Node?<V>, id: int)
      ensures this.value == value && this.match_ == match_ && this.id == id && next == null && prev == null
    {
      this.value, this.match_, this.id := value, match_, id;
      next, prev := null, null;
    }
  }

  /** `l` is the whole list from its first node on. */
  ghost predicate Linked<V>(l: seq<Node<V>>)
    reads l
  {
    && |l| > 0
    && (forall i, j :: 0 <= i < j < |l| ==> l[i] != l[j])
    && (forall i {:trigger l[i].next} :: 0 <= i < |l| - 1 ==> l[i].next == l[i + 1])
    && (forall i {:trigger l[i].prev} :: 0 < i < |l| ==> l[i].prev == l[i - 1])
    && l[|l| - 1].next == null
  }

  /** The list without its `i`-th and `j`-th nodes. */
  ghost function Without<T>(l: seq<T>, i: int, j: int): seq<T>
    requires 0 <= i < j < |l|
  {
    l[..i] + l[i + 1..j] + l[j + 1..]
  }

  /** What a lifted pair remembers: its neighbours in the list it was taken from. */
  ghost predicate Remembers<V>(l: seq<Node<V>>, i: int, j: int)
    requires 0 < i < j < |l|
    reads l[i], l[j]
  {
    && l[i].prev == l[i - 1]
    && l[i].next == l[i + 1]
    && l[j].prev == (if j == i + 1 then l[i - 1] else l[j - 1])
    && l[j].next == if j + 1 < |l| then l[j + 1] else null
  }

  ghost function Drop<T>(l: seq<T>, i: int): seq<T>
    requires 0 <= i < |l|
  {
    l[..i] + l[i + 1..]
  }

  /** The neighbours of the `i`-th node have been joined. */
  ghost predicate Bypassed<V>(l: seq<Node<V>>, i: int)
    requires 0 < i < |l|
    reads l
  {
    && (forall a, b :: 0 <= a < b < |l| ==> l[a] != l[b])
    && (forall k {:trigger l[k].next} :: 0 <= k < |l| - 1 && k != i - 1 && k != i ==> l[k].next == l[k + 1])
    && (forall k {:trigger l[k].prev} :: 0 < k < |l| && k != i && k != i + 1 ==> l[k].prev == l[k - 1])
    && (if i + 1 < |l| then l[i - 1].next == l[i + 1] && l[i + 1].prev == l[i - 1] && l[|l| - 1].next == null
        else l[i - 1].next == null)
  }

  lemma BypassedLinked<V>(l: seq<Node<V>>, i: int)
    requires 0 < i < |l| && Bypassed(l, i)
    ensures Linked(Drop(l, i))
  {
    var w := Drop(l, i);
    forall k {:trigger w[k].next} | 0 <= k < |w| - 1 ensures w[k].next == w[k + 1] {
      assert w[k] == l[if k < i then k else k + 1];
    }
    forall k {:trigger w[k].prev} | 0 < k < |w| ensures w[k].prev == w[k - 1] {
      assert w[k] == l[if k < i then k else k + 1];
    }
  }

  /** Joins the neighbours of `n`, which keeps its own links. */
  method Unlink<V>(n: Node<V>, ghost l: seq<Node<V>>, ghost i: int)
    requires Linked(l) && 0 < i < |l| && l[i] == n
    modifies l[i - 1], l[if i + 1 < |l| then i + 1 else i - 1]
    ensures Linked(Drop(l, i))
    ensures n.prev == l[i - 1] && n.next == if i + 1 < |l| then l[i + 1] else null
    ensures l[0].prev == old(l[0].prev)
  {
    n.prev.next := n.next;
    if n.next != null {
      n.next.prev := n.prev;
    }
    BypassedLinked(l, i);
  }

  /** Takes a call and its return out of the list. */
  method Lift<V>(entry: Node<V>, ghost l: seq<Node<V>>, ghost i: int, ghost j: int)
    requires Linked(l) && 0 < i < j < |l| && l[i] == entry && l[j] == entry.match_
    modifies l
    ensures Linked(Without(l, i, j)) && Remembers(l, i, j)
    ensures l[0].prev == old(l[0].prev)
  {
    hide Linked, Drop, Without;
    LinkedDiffer(l);
    DropDrop(l, i, j);
    ghost var rest := Drop(l, i);
    Unlink(entry, l, i);
    Unlink(entry.match_, rest, j - 1);
  }

  lemma LinkedDiffer<V>(l: seq<Node<V>>)
    requires Linked(l)
    ensures forall a, b :: 0 <= a < b < |l| ==> l[a] != l[b]
  {
  }

  lemma DropDrop<T>(l: seq<T>, i: int, j: int)
    requires 0 < i < j < |l| && forall a, b :: 0 <= a < b < |l| ==> l[a] != l[b]
    ensures var rest := Drop(l, i);
            && |rest| == |l| - 1
            && l[i] != rest[j - 2] && (j + 1 < |l| ==> l[i] != rest[j])
            && rest[0] == l[0] && rest[j - 1] == l[j]
            && rest[j - 2] == (if j == i + 1 then l[i - 1] else l[j - 1])
            && (j + 1 < |l| ==> rest[j] == l[j + 1])
            && Drop(rest, j - 1) == Without(l, i, j)
  {
  }

  /** Away from the lifted pair, the neighbours in the shorter list are those in the longer one. */
  lemma RestLinked<V>(l: seq<Node<V>>, i: int, j: int)
    requires 0 < i < j < |l| && Linked(Without(l, i, j))
    ensures forall k {:trigger l[k].next} :: 0 <= k < |l| - 1 && k != i - 1 && k != i && k != j - 1 && k != j ==>
                                             l[k].next == l[k + 1]
    ensures forall k {:trigger l[k].prev} :: 0 < k < |l| && k != i && k != i + 1 && k != j && k != j + 1 ==>
                                             l[k].prev == l[k - 1]
    ensures j < |l| - 1 ==> l[|l| - 1].next == null
  {
    var w := Without(l, i, j);
    forall k {:trigger l[k].next} | 0 <= k < |l| - 1 && k != i - 1 && k != i && k != j - 1 && k != j
      ensures l[k].next == l[k + 1]
    {
      var d := if k < i then 0 else if k < j then 1 else 2;
      assert w[k - d] == l[k] && w[k - d + 1] == l[k + 1];
    }
    forall k {:trigger l[k].prev} | 0 < k < |l| && k != i && k != i + 1 && k != j && k != j + 1
      ensures l[k].prev == l[k - 1]
    {
      var d := if k < i then 0 else if k < j then 1 else 2;
      assert w[k - d] == l[k] && w[k - d - 1] == l[k - 1];
    }
    if j < |l| - 1 { assert w[|w| - 1] == l[|l| - 1]; }
  }

  /** Puts them back. */
  method Unlift<V>(entry: Node<V>, ghost l: seq<Node<V>>, ghost i: int, ghost j: int)
    requires 0 < i < j < |l| && l[i] == entry && l[j] == entry.match_
    requires forall a, b :: 0 <= a < b < |l| ==> l[a] != l[b]
    requires Linked(Without(l, i, j)) && Remembers(l, i, j)
    modifies l
    ensures Linked(l)
    ensures l[0].prev == old(l[0].prev)
  {
    RestLinked(l, i, j);
    var match_ := entry.match_;
    match_.prev.next := match_;
    if match_.next != null {
      match_.next.prev := match_;
    }
    entry.prev.next := entry;
    entry.next.prev := entry;
  }

  // ---- Building the list

  method InsertBefore<V>(n: Node<V>, mark: Node?<V>)
    requires n != mark && (mark != null ==> mark.prev != n)
    modifies n, mark, if mark == null then null else mark.prev
    ensures mark == null ==> n.next == old(n.next) && n.prev == old(n.prev)
    ensures mark != null ==> n.next == mark && mark.prev == n
    ensures mark != null && old(mark.prev) == null ==> n.prev == old(n.prev)
    ensures mark != null && old(mark.prev) != null ==> n.prev == old(mark.prev) && old(mark.prev).next == n
    ensures mark != null && old(mark.prev) != mark ==> mark.next == old(mark.next)
    ensures mark != null && old(mark.prev) != null && old(mark.prev) != mark ==>
              old(mark.prev).prev == old(mark.prev.prev)
  {
    if mark != null {
      var beforeMark := mark.prev;
      mark.prev := n;
      n.next := mark;
      if beforeMark != null {
        n.prev := beforeMark;
        beforeMark.next := n;
      }
    }
  }

  /** The node at position `k` carries entry `k`, and a call points to its return. */
  ghost predicate Carries<V>(n: Node<V>, e: Entry<V>, returns_: seq<Node<V>>, base: int, h: History<V>) {
    && n.value == Some(e.value)
    && n.id == e.id
    && (if e.kind == ReturnEntry then n.match_ == null
        else 0 <= e.id < |h.ret| && 0 <= h.ret[e.id] - base < |returns_| && n.match_ == returns_[h.ret[e.id] - base])
  }

  /** Nodes for `entries[base..]`. */
  ghost predicate Carry<V>(nodes: seq<Node<V>>, entries: seq<Entry<V>>, base: int, h: History<V>) {
    && 0 <= base <= |entries| && |nodes| == |entries| - base
    && forall k :: 0 <= k < |nodes| ==> Carries(nodes[k], entries[base + k], nodes, base, h)
  }

  lemma CarryCons<V>(n: Node<V>, nodes: seq<Node<V>>, entries: seq<Entry<V>>, base: int, h: History<V>)
    requires LaidOut(entries, h) && 0 < base && Carry(nodes, entries, base, h)
    requires var e := entries[base - 1];
             && n.value == Some(e.value) && n.id == e.id
             && (if e.kind == ReturnEntry then n.match_ == null
                 else h.ret[e.id] >= base && n.match_ == nodes[h.ret[e.id] - base])
    ensures Carry([n] + nodes, entries, base - 1, h)
  {
    var all := [n] + nodes;
    forall k | 0 <= k < |all| ensures Carries(all[k], entries[base - 1 + k], all, base - 1, h) {
      if k > 0 { assert Carries(nodes[k - 1], entries[base + k - 1], nodes, base, h); }
    }
  }

  lemma LinkedCons<V>(n: Node<V>, nodes: seq<Node<V>>)
    requires n !in nodes && n.next == (if nodes == [] then null else nodes[0])
    requires nodes != [] ==> Linked(nodes) && nodes[0].prev == n
    ensures Linked([n] + nodes)
  {
    var all := [n] + nodes;
    forall k {:trigger all[k].next} | 0 <= k < |all| - 1 ensures all[k].next == all[k + 1] {
      if k > 0 { assert all[k] == nodes[k - 1]; }
    }
    forall k {:trigger all[k].prev} | 0 < k < |all| ensures all[k].prev == all[k - 1] {
      assert all[k] == nodes[k - 1];
    }
  }

  /** The table from an operation to its return node, once the entries from `base` on are done. */
  ghost predicate Matched<V>(table: map<int, Node<V>>, nodes: seq<Node<V>>, entries: seq<Entry<V>>, base: int) {
    && 0 <= base <= |entries| && |nodes| == |entries| - base
    && forall k :: 0 <= k < |nodes| ==> MatchedAt(table, nodes[k], entries[base + k])
  }

  ghost predicate MatchedAt<V>(table: map<int, Node<V>>, n: Node<V>, e: Entry<V>) {
    e.kind == ReturnEntry ==> e.id in table && table[e.id] == n
  }

  lemma MatchedCall<V>(table: map<int, Node<V>>, nodes: seq<Node<V>>, entries: seq<Entry<V>>, i: int, h: History<V>)
    requires LaidOut(entries, h) && 0 <= i < |entries| && Matched(table, nodes, entries, i + 1)
             && entries[i].kind == CallEntry
    ensures var id := entries[i].id; id in table && h.ret[id] >= i + 1 && table[id] == nodes[h.ret[id] - (i + 1)]
  {
    var k := h.ret[entries[i].id] - (i + 1);
    assert MatchedAt(table, nodes[k], entries[i + 1 + k]);
  }

  lemma MatchedCons<V>(table: map<int, Node<V>>, nodes: seq<Node<V>>, entries: seq<Entry<V>>, i: int, h: History<V>,
                       n: Node<V>)
    requires LaidOut(entries, h) && 0 <= i < |entries| && Matched(table, nodes, entries, i + 1)
    ensures var table' := if entries[i].kind == ReturnEntry then table[entries[i].id := n] else table;
            Matched(table', [n] + nodes, entries, i)
  {
    var all := [n] + nodes;
    var table' := if entries[i].kind == ReturnEntry then table[entries[i].id := n] else table;
    forall k | 0 <= k < |all| ensures MatchedAt(table', all[k], entries[i + k]) {
      if k > 0 {
        assert MatchedAt(table, nodes[k - 1], entries[i + 1 + (k - 1)]);
        assert entries[i].kind == ReturnEntry && entries[i + k].kind == ReturnEntry ==>
                 entries[i].id != entries[i + k].id;
      }
    }
  }

  lemma NothingLinked<V>(entries: seq<Entry<V>>, h: History<V>)
    ensures Carry([], entries, |entries|, h) && Matched(map[], [], entries, |entries|)
  {
  }

  /** Puts a node in front of the list that starts at `root`. */
  method Prepend<V>(n: Node<V>, root: Node?<V>, ghost nodes: seq<Node<V>>)
    requires n !in nodes && n.next == null && n.prev == null
    requires if nodes == [] then root == null else root == nodes[0] && Linked(nodes) && root.prev == null
    modifies n, nodes
    ensures Linked([n] + nodes) && n.prev == null
  {
    InsertBefore(n, root);
    LinkedCons(n, nodes);
  }

  method MakeLinkedEntries<V>(entries: seq<Entry<V>>, ghost h: History<V>)
    returns (root: Node?<V>, ghost nodes: seq<Node<V>>)
    requires LaidOut(entries, h)
    ensures fresh(nodes) && Carry(nodes, entries, 0, h)
    ensures if entries == [] then root == null else root == nodes[0] && Linked(nodes) && root.prev == null
  {
    hide Linked, Carry, Matched, LaidOut;
    root, nodes := null, [];
    var match_: map<int, Node<V>> := map[];
    NothingLinked(entries, h);
    var i := |entries| - 1;
    while i >= 0
      invariant -1 <= i < |entries|
      invariant fresh(nodes) && |nodes| == |entries| - i - 1 && Carry(nodes, entries, i + 1, h)
      invariant if nodes == [] then root == null else root == nodes[0] && Linked(nodes) && root.prev == null
      invariant Matched(match_, nodes, entries, i + 1)
    {
      root, match_, nodes := LinkEntry(entries, h, i, root, match_, nodes);
      i := i - 1;
    }
  }

  /** One round of the loop: a node for entry `i`, in front of the list. */
  method LinkEntry<V>(entries: seq<Entry<V>>, ghost h: History<V>, i: int, root: Node?<V>, match_: map<int, Node<V>>,
                      ghost nodes: seq<Node<V>>)
    returns (root': Node<V>, match': map<int, Node<V>>, ghost nodes': seq<Node<V>>)
    requires LaidOut(entries, h) && 0 <= i < |entries|
    requires Carry(nodes, entries, i + 1, h) && Matched(match_, nodes, entries, i + 1)
    requires if nodes == [] then root == null else root == nodes[0] && Linked(nodes) && root.prev == null
    modifies nodes
    ensures fresh(root') && nodes' == [root'] + nodes && Linked(nodes') && root'.prev == null
    ensures Carry(nodes', entries, i, h) && Matched(match', nodes', entries, i)
  {
    var elem := entries[i];
    match' := match_;
    if elem.kind == ReturnEntry {
      root' := new Node(Some(elem.value), null, elem.id);
      match' := match'[elem.id := root'];
    } else {
      MatchedCall(match_, nodes, entries, i, h);
      root' := new Node(Some(elem.value), match_[elem.id], elem.id);
    }
    MatchedCons(match_, nodes, entries, i, h, root');
    CarryCons(root', nodes, entries, i + 1, h);
    nodes' := [root'] + nodes;
    hide Carry, Matched, LaidOut, Linked;
    Prepend(root', root, nodes);
  }

  method Length<V>(n: Node?<V>, ghost l: seq<Node<V>>) returns (len: nat)
    requires if n == null then l == [] else Linked(l) && n == l[0]
    ensures len == |l|
  {
    len := 0;
    var at := n;
    while at != null
      invariant 0 <= len <= |l|
      invariant at == if len < |l| then l[len] else null
      decreases |l| - len
    {
      at := at.next;
      len := len + 1;
    }
  }
}
