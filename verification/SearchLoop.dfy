/** The loop of checkSingle (src/porcupine/checker.go), and that its verdict is exact. */
module SearchLoop {
  import opened Sets
  import opened Options
  import opened Linearizability
  import opened HistoryEntries
  import opened LinkedEntries
  import opened SearchSpace
  import opened EntryList
  import opened Checker
  import Bitset

  ghost function Recording(computePartial: bool, longest: Longest): Option<Longest> {
    if computePartial then Some(longest) else None
  }

  /** What the loop keeps about its local variables. */
  ghost predicate Holds<S(!new), V>(m: Model<S, V>, h: History<V>, entries: seq<Entry<V>>, nodes: seq<Node<V>>,
                                    p: Path<S>, seen: set<Config<S>>, pos: int, entry: Node?<V>, state: S,
                                    linearized: Bitset.Words, cache: Cache<S>, calls: seq<CallsEntry<V, S>>)
  {
    && |nodes| == |entries| && 0 <= pos <= |entries| && entry == (if pos == |entries| then null else nodes[pos])
    && |p.states| > 0 && state == Top(p)
    && |linearized| == Bitset.Chunks(h.Size()) && Bitset.Members(linearized) == Elems(p.ids)
    && CallsOk(nodes, h, p, calls)
    && CacheOk(cache, seen, |linearized|)
  }

  lemma HoldsCall<S(!new), V>(m: Model<S, V>, h: History<V>, entries: seq<Entry<V>>, head: Node<V>,
                              nodes: seq<Node<V>>, p: Path<S>, seen: set<Config<S>>, longest: Option<Longest>,
                              pos: int, entry: Node<V>, state: S, linearized: Bitset.Words, cache: Cache<S>,
                              calls: seq<CallsEntry<V, S>>)
    requires Searching(m, h, entries, head, nodes, p, seen, longest, pos)
    requires Holds(m, h, entries, nodes, p, seen, pos, entry, state, linearized, cache, calls)
    ensures 0 <= pos < |entries| && entry == nodes[pos] && 0 <= entries[pos].id < h.Size()
            && entry.id == entries[pos].id
    ensures entry.match_ == null <==> entries[pos].kind == ReturnEntry
    ensures entry.match_ != null ==> entry.value == Some(h.input[entry.id])
                                     && entry.match_.value == Some(h.output[entry.id])
    ensures entry.match_ != null ==> h.call[entry.id] == pos
    ensures entry.match_ == null ==> h.ret[entry.id] == pos
    ensures h.Valid() && |h.call| == h.Size() && |p.states| == |p.ids| + 1 && state == Top(p) && entry.id !in p.ids
    ensures entry.id / 64 < |linearized| == Bitset.Chunks(h.Size()) && Bitset.Members(linearized) == Elems(p.ids)
    ensures CallsOk(nodes, h, p, calls) && CacheOk(cache, seen, |linearized|) && |nodes| == |entries|
  {
    SearchingFacts(m, h, entries, head, nodes, p, seen, longest, pos);
    NodeFacts(head, nodes, entries, h, pos);
    hide Searching, NodesOk, LaidOut, CallsOk, CacheOk, PathOk;
  }

  lemma PushIs<S, V>(nodes: seq<Node<V>>, h: History<V>, p: Path<S>, entry: Node<V>, st': S)
    requires 0 <= entry.id < |h.call| && 0 <= h.call[entry.id] < |nodes| && entry == nodes[h.call[entry.id]]
             && |p.states| > 0
    ensures var q := Push(p, entry.id, st');
            |q.states| > 0 && Top(q) == st' && Elems(q.ids) == Elems(p.ids) + {entry.id}
    ensures FrameOk(nodes, h, entry.id, Top(p), CallsEntry(entry, Top(p)))
  {
    ElemsSnoc(p.ids, entry.id);
  }

  lemma StepIs<S, V>(m: Model<S, V>, h: History<V>, seen: set<Config<S>>, done: set<int>, st: S, x: int)
    requires h.Valid() && 0 <= x < h.Size()
    ensures var (ok, st') := m.step(st, h.input[x], h.output[x]);
            && (Covered(m, h, seen, done, st, x) <==> (ok ==> (done + {x}, st') in seen))
            && (ok ==> Accepted(m, h, st, x, st'))
  {
  }

  /** Linearizes the call at the cursor: pushes it, moves its nodes out of the list and starts over from the head. */
  method Linearize<S(!new), V>(
      ghost m: Model<S, V>, ghost h: History<V>, ghost entries: seq<Entry<V>>, headEntry: Node<V>,
      ghost nodes: seq<Node<V>>, ghost p: Path<S>, ghost seen: set<Config<S>>, ghost longest: Option<Longest>,
      ghost pos: int, entry: Node<V>, state: S, linearized: array<bv64>, cache: Cache<S>, calls: seq<CallsEntry<V, S>>,
      newState: S, newLinearized: Bitset.Words)
    returns (entry': Node?<V>, cache': Cache<S>, calls': seq<CallsEntry<V, S>>,
             ghost p': Path<S>, ghost seen': set<Config<S>>, ghost pos': int)
    requires Searching(m, h, entries, headEntry, nodes, p, seen, longest, pos)
    requires Holds(m, h, entries, nodes, p, seen, pos, entry, state, linearized[..], cache, calls)
    requires entry.match_ != null && Accepted(m, h, state, entry.id, newState)
    requires |newLinearized| == linearized.Length
             && Bitset.Members(newLinearized) == Bitset.Members(linearized[..]) + {entry.id}
    requires (Elems(p.ids) + {entry.id}, newState) !in seen
    modifies headEntry, nodes, linearized
    ensures Searching(m, h, entries, headEntry, nodes, p', seen', longest, pos')
    ensures Holds(m, h, entries, nodes, p', seen', pos', entry', newState, linearized[..], cache', calls')
    ensures h.Valid() && |Universe(m, h, h.Size()) - seen'| < |Universe(m, h, h.Size()) - seen|
  {
    hide *;
    HoldsCall(m, h, entries, headEntry, nodes, p, seen, longest, pos, entry, state, linearized[..], cache, calls);
    ghost var c := (Elems(p.ids) + {entry.id}, newState);
    p', seen', pos' := Push(p, entry.id, newState), seen + {c}, First(entries, c.0, 0);
    PushIs(nodes, h, p, entry, newState);
    var newCacheEntry := CacheEntry(newLinearized, newState);
    RememberOk(cache, seen, |newLinearized|, newCacheEntry);
    var hash := Bitset.HashOf(newLinearized);
    cache' := Remember(cache, hash, newCacheEntry);
    calls' := calls + [CallsEntry(entry, state)];
    CallsPush(nodes, h, p, calls, entry.id, newState, entry);
    Bitset.Set(linearized, entry.id);
    LiftMove(entry, m, h, entries, headEntry, nodes, p, seen, longest, pos, newState);
    MeasureDrops(Universe(m, h, h.Size()), seen, c);
    entry' := headEntry.next;
    HoldsIs(m, h, entries, nodes, p', seen', pos', entry', newState, linearized[..], cache', calls');
  }

  /** The branch for a call node: linearize it, unless the model refuses or the outcome has been met before. */
  method TryCall<S(!new, ==), V>(
      m: Model<S, V>, ghost h: History<V>, ghost entries: seq<Entry<V>>, headEntry: Node<V>, ghost nodes: seq<Node<V>>,
      ghost p: Path<S>, ghost seen: set<Config<S>>, ghost longest: Option<Longest>, ghost pos: int,
      entry: Node<V>, state: S, linearized: array<bv64>, cache: Cache<S>, calls: seq<CallsEntry<V, S>>)
    returns (entry': Node?<V>, state': S, cache': Cache<S>, calls': seq<CallsEntry<V, S>>,
             ghost p': Path<S>, ghost seen': set<Config<S>>, ghost pos': int)
    requires Searching(m, h, entries, headEntry, nodes, p, seen, longest, pos)
    requires Holds(m, h, entries, nodes, p, seen, pos, entry, state, linearized[..], cache, calls)
    requires entry.match_ != null
    modifies headEntry, nodes, linearized
    ensures Searching(m, h, entries, headEntry, nodes, p', seen', longest, pos')
    ensures Holds(m, h, entries, nodes, p', seen', pos', entry', state', linearized[..], cache', calls')
    ensures || (p' == p && seen' == seen && pos' > pos)
            || (h.Valid() && |Universe(m, h, h.Size()) - seen'| < |Universe(m, h, h.Size()) - seen|)
  {
    hide *;
    HoldsCall(m, h, entries, headEntry, nodes, p, seen, longest, pos, entry, state, linearized[..], cache, calls);
    state', cache', calls', p', seen' := state, cache, calls, p, seen;
    var matching := entry.match_;
    var (ok, newState) := m.step(state, entry.value.value, matching.value.value);
    StepIs(m, h, seen, Elems(p.ids), state, entry.id);
    if ok {
      var newLinearized := Bitset.Clone(linearized);
      Bitset.Set(newLinearized, entry.id);
      var newCacheEntry := CacheEntry(newLinearized[..], newState);
      var found := CacheContains(cache, newCacheEntry);
      CacheExact(cache, seen, newLinearized.Length, newCacheEntry);
      if !found {
        state' := newState;
        entry', cache', calls', p', seen', pos' :=
          Linearize(m, h, entries, headEntry, nodes, p, seen, longest, pos, entry, state, linearized, cache, calls,
                    newState, newLinearized[..]);
        return;
      }
    }
    SkipMove(m, h, entries, headEntry, nodes, p, seen, longest, pos);
    entry' := entry.next;
    pos' := First(entries, Elems(p.ids), pos + 1);
    HoldsIs(m, h, entries, nodes, p', seen', pos', entry', state', linearized[..], cache', calls');
  }

  lemma HoldsIs<S(!new), V>(m: Model<S, V>, h: History<V>, entries: seq<Entry<V>>, nodes: seq<Node<V>>, p: Path<S>,
                            seen: set<Config<S>>, pos: int, entry: Node?<V>, state: S, linearized: Bitset.Words,
                            cache: Cache<S>, calls: seq<CallsEntry<V, S>>)
    requires |nodes| == |entries| && 0 <= pos <= |entries| && entry == (if pos == |entries| then null else nodes[pos])
    requires |p.states| > 0 && state == Top(p)
    requires |linearized| == Bitset.Chunks(h.Size()) && Bitset.Members(linearized) == Elems(p.ids)
    requires CallsOk(nodes, h, p, calls) && CacheOk(cache, seen, |linearized|)
    ensures Holds(m, h, entries, nodes, p, seen, pos, entry, state, linearized, cache, calls)
  {
    hide CallsOk, CacheOk;
  }

  lemma PopIs<S, V>(m: Model<S, V>, h: History<V>, p: Path<S>)
    requires h.Valid() && PathOk(m, h, p) && |p.ids| > 0
    ensures |Pop(p).states| > 0 && |Pop(p).ids| == |p.ids| - 1
    ensures var x := p.ids[|p.ids| - 1]; 0 <= x < h.Size() && Elems(Pop(p).ids) == Elems(p.ids) - {x}
  {
    PathPop(m, h, p);
  }

  lemma FrameIs<V, S>(nodes: seq<Node<V>>, h: History<V>, x: int, st: S, call: CallsEntry<V, S>)
    requires FrameOk(nodes, h, x, st, call)
    ensures 0 <= x < |h.call| && 0 <= h.call[x] < |nodes| && call.entry == nodes[h.call[x]] && call.entry.id == x
            && call.state == st
  {
  }

  lemma BitInRange(x: int, n: nat)
    requires 0 <= x < n
    ensures x / 64 < Bitset.Chunks(n)
  {
  }

  /** The branch for a return node: undo the last call on the stack and go on after it. */
  method Backtrack<S(!new), V>(
      ghost m: Model<S, V>, ghost h: History<V>, ghost entries: seq<Entry<V>>, ghost headEntry: Node<V>,
      ghost nodes: seq<Node<V>>, ghost p: Path<S>, ghost seen: set<Config<S>>, ghost longest: Option<Longest>,
      ghost pos: int, ghost entry: Node<V>, ghost state: S, linearized: array<bv64>, ghost cache: Cache<S>,
      calls: seq<CallsEntry<V, S>>)
    returns (entry': Node?<V>, state': S, calls': seq<CallsEntry<V, S>>, ghost p': Path<S>, ghost pos': int)
    requires Searching(m, h, entries, headEntry, nodes, p, seen, longest, pos)
    requires Holds(m, h, entries, nodes, p, seen, pos, entry, state, linearized[..], cache, calls)
    requires entry.match_ == null && |calls| == |p.ids| > 0
    requires longest.Some? ==> Logged(longest.value, Elems(p.ids))
    modifies headEntry, nodes, linearized
    ensures Searching(m, h, entries, headEntry, nodes, p', seen, longest, pos')
    ensures Holds(m, h, entries, nodes, p', seen, pos', entry', state', linearized[..], cache, calls')
    ensures |p.states| == |p.ids| + 1 && p' == Pop(p) && |p'.ids| < |p.ids|
    ensures calls' == calls[..|calls| - 1] && state' == calls[|calls| - 1].state
    ensures var x := p.ids[|p.ids| - 1]; 0 <= x < |h.call| && pos' == First(entries, Elems(p'.ids), h.call[x] + 1)
  {
    hide *;
    SearchingFacts(m, h, entries, headEntry, nodes, p, seen, longest, pos);
    HoldsCall(m, h, entries, headEntry, nodes, p, seen, longest, pos, entry, state, linearized[..], cache, calls);
    ghost var x := p.ids[|p.ids| - 1];
    PopIs(m, h, p);
    CallsPop(nodes, h, p, calls);
    var callsTop := calls[|calls| - 1];
    FrameIs(nodes, h, x, Top(Pop(p)), callsTop);
    BitInRange(x, h.Size());
    var lifted := callsTop.entry;
    state' := callsTop.state;
    Bitset.Clear(linearized, lifted.id);
    calls' := calls[..|calls| - 1];
    UnliftMove(lifted, m, h, entries, headEntry, nodes, p, seen, longest, pos);
    entry' := lifted.next;
    p', pos' := Pop(p), First(entries, Elems(Pop(p).ids), h.call[x] + 1);
    HoldsIs(m, h, entries, nodes, p', seen, pos', entry', state', linearized[..], cache, calls');
  }

  lemma RecordMove<S(!new), V>(m: Model<S, V>, h: History<V>, entries: seq<Entry<V>>, head: Node<V>,
                               nodes: seq<Node<V>>,
                               p: Path<S>, seen: set<Config<S>>, longest: Longest, pos: int)
    requires Searching(m, h, entries, head, nodes, p, seen, Some(longest), pos) && h.Valid()
             && PartialsOk(m, h, longest)
    ensures Searching(m, h, entries, head, nodes, p, seen, Some(Lengthen(longest, p.ids)), pos)
    ensures PartialsOk(m, h, Lengthen(longest, p.ids)) && Logged(Lengthen(longest, p.ids), Elems(p.ids))
  {
    SearchingFacts(m, h, entries, head, nodes, p, seen, Some(longest), pos);
    PathReplays(m, h, p);
    LengthenOk(m, h, longest, p.ids);
    hide SearchOk, ListOk, Universe, Improves, Logged, Lengthen, PartialsOk;
    RecordOk(m, h, p, seen, longest, Lengthen(longest, p.ids), pos);
  }

  /** For every operation, `longest` holds a partial linearization that no other with this operation exceeds. */
  ghost predicate Maximal<S, V>(m: Model<S, V>, h: History<V>, longest: Longest)
    requires h.Valid()
  {
    forall order :: Partial(m, h, order) ==> forall i <- order :: 0 <= i < |longest| ==>
      longest[i].Some? && |longest[i].value| >= |order|
  }

  lemma GiveUpMove<S(!new), V>(m: Model<S, V>, h: History<V>, entries: seq<Entry<V>>, head: Node<V>,
                               nodes: seq<Node<V>>,
                               p: Path<S>, seen: set<Config<S>>, longest: Option<Longest>, pos: int)
    requires Searching(m, h, entries, head, nodes, p, seen, longest, pos) && pos < |entries|
             && entries[pos].kind == ReturnEntry
    requires p.ids == []
    ensures h.Valid() && !Linearizable(m, h)
    ensures longest.Some? ==> Maximal(m, h, longest.value)
  {
    SearchingFacts(m, h, entries, head, nodes, p, seen, longest, pos);
    assert p == Path([], [m.init]);
    GiveUp(m, h, seen, longest, entries[pos].id);
    hide SearchOk, ListOk, Universe, Linearizable, PathOk;
    if longest.Some? {
      forall order | Partial(m, h, order)
        ensures forall i <- order :: 0 <= i < |longest.value| ==>
                                     longest.value[i].Some? && |longest.value[i].value| >= |order|
      {
        ElemsSize(order);
        assert Logged(longest.value, Elems(order));
        forall i <- order | 0 <= i < |longest.value|
          ensures longest.value[i].Some? && |longest.value[i].value| >= |order|
        {
          assert i in Elems(order);
        }
      }
    }
  }

  /** An empty list means that the stack is a linearization, and it is recorded for every operation. */
  lemma Finished<S(!new), V>(m: Model<S, V>, h: History<V>, entries: seq<Entry<V>>, head: Node<V>, nodes: seq<Node<V>>,
                             p: Path<S>, seen: set<Config<S>>, longest: Option<Longest>, pos: int)
    requires Searching(m, h, entries, head, nodes, p, seen, longest, pos) && head.next == null
    ensures h.Valid() && Linearization(m, h, p.ids) && Linearizable(m, h) && Partial(m, h, p.ids)
            && Elems(p.ids) == Below(h.Size())
  {
    hide Searching, Linearization, Partial, PathOk;
    SearchingFacts(m, h, entries, head, nodes, p, seen, longest, pos);
    CursorInList(m, h, entries, head, nodes, p, seen, longest, pos);
    AllLinearized(m, h, p);
    LinearizationIsPartial(m, h, p.ids);
    AllIn(m, h, p.ids);
  }

  lemma AllIn<S, V>(m: Model<S, V>, h: History<V>, order: seq<int>)
    requires h.Valid() && Linearization(m, h, order)
    ensures Elems(order) == Below(h.Size())
  {
    AllElems(order, h.Size());
  }

  lemma FilledOk<S, V>(m: Model<S, V>, h: History<V>, order: seq<int>, longest: Longest)
    requires h.Valid() && Partial(m, h, order) && Elems(order) == Below(h.Size())
    requires |longest| == h.Size() && forall i :: 0 <= i < |longest| ==> longest[i] == Some(order)
    ensures PartialsOk(m, h, longest)
  {
    hide Partial;
    forall i | 0 <= i < |longest| ensures i in order {
      assert i in Below(h.Size());
      assert i in Elems(order);
    }
  }

  lemma LaidOutFacts<V>(entries: seq<Entry<V>>, h: History<V>)
    requires LaidOut(entries, h)
    ensures h.Valid() && |entries| == 2 * h.Size()
  {
  }

  lemma CallsSize<V, S>(nodes: seq<Node<V>>, h: History<V>, p: Path<S>, calls: seq<CallsEntry<V, S>>)
    requires CallsOk(nodes, h, p, calls)
    ensures |calls| == |p.ids| && forall d :: 0 <= d < |calls| ==> calls[d].entry.id == p.ids[d]
  {
    forall d | 0 <= d < |calls| ensures calls[d].entry.id == p.ids[d] {
      assert FrameOk(nodes, h, p.ids[d], p.states[d], calls[d]);
    }
  }

  lemma RecordingIs(computePartial: bool, longest: Longest)
    ensures Recording(computePartial, longest) == if computePartial then Some(longest) else None
  {
  }

  lemma NoCache<S(!new)>(chunks: nat)
    ensures CacheOk<S>(map[], {}, chunks)
  {
  }

  /** The list with its head node in front. */
  method StartList<V>(history: seq<Entry<V>>, ghost h: History<V>)
    returns (entry: Node?<V>, headEntry: Node<V>, n: nat, ghost nodes: seq<Node<V>>)
    requires LaidOut(history, h)
    ensures fresh(nodes) && fresh(headEntry) && ListOk(headEntry, nodes, history, h, [])
    ensures n == h.Size() && |nodes| == |history| && entry == if nodes == [] then null else nodes[0]
  {
    LaidOutFacts(history, h);
    hide Linked, LaidOut, ListOk;
    entry, nodes := MakeLinkedEntries(history, h);
    var len := Length(entry, nodes);
    n := len / 2;
    headEntry := new Node(None, null, -1);
    Prepend(headEntry, entry, nodes);
    ListStart(headEntry, nodes, history, h);
  }

  /** Every entry of `longest` becomes the sequence of the whole stack. */
  method FillLongest<V, S>(longest: array<Option<seq<int>>>, calls: seq<CallsEntry<V, S>>, ghost ids: seq<int>)
    requires |calls| == |ids| && forall d :: 0 <= d < |calls| ==> calls[d].entry.id == ids[d]
    modifies longest
    ensures forall i :: 0 <= i < longest.Length ==> longest[i] == Some(ids)
  {
    var order := Ids(calls, ids);
    for i := 0 to longest.Length
      invariant forall k :: 0 <= k < i ==> longest[k] == Some(ids)
    {
      longest[i] := Some(order);
    }
  }

  lemma HoldsStart<S(!new), V>(m: Model<S, V>, h: History<V>, entries: seq<Entry<V>>, nodes: seq<Node<V>>,
                               entry: Node?<V>, linearized: Bitset.Words,
                               longest: Longest)
    requires |nodes| == |entries| && entry == (if nodes == [] then null else nodes[0])
    requires |linearized| == Bitset.Chunks(h.Size()) && Bitset.Members(linearized) == {}
    requires h.Valid() && |longest| == h.Size() && forall i :: 0 <= i < |longest| ==> longest[i] == None
    ensures Holds(m, h, entries, nodes, Path([], [m.init]), {}, 0, entry, m.init, linearized, map[], [])
    ensures PartialsOk(m, h, longest)
  {
    NoCache<S>(|linearized|);
    hide CacheOk;
  }

  method CheckSingle<S(!new, ==), V>(m: Model<S, V>, history: seq<Entry<V>>, computePartial: bool, kill: nat -> bool,
                                     ghost h: History<V>)
    returns (ok: bool, longest: array<Option<seq<int>>>)
    requires LaidOut(history, h)
    ensures ok ==> Linearizable(m, h)
    ensures !ok && (forall t :: !kill(t)) ==> !Linearizable(m, h)
    ensures PartialsOk(m, h, longest[..])
    ensures ok ==> forall i :: 0 <= i < longest.Length ==> longest[i].Some? && Linearization(m, h, longest[i].value)
    ensures !ok && computePartial && (forall t :: !kill(t)) ==> Maximal(m, h, longest[..])
  {
    hide *;
    LaidOutFacts(history, h);
    var entry, headEntry, n;
    ghost var nodes;
    entry, headEntry, n, nodes := StartList(history, h);
    var linearized := Bitset.NewBitset(n);
    var cache: Cache<S> := map[];
    var calls: seq<CallsEntry<V, S>> := [];
    longest := new Option<seq<int>>[n](_ => None);
    var state := m.init;
    ghost var p: Path<S>, seen: set<Config<S>>, pos := Path([], [m.init]), {}, 0;
    SearchingStart(m, h, history, headEntry, nodes, Recording(computePartial, longest[..]));
    HoldsStart(m, h, history, nodes, entry, linearized[..], longest[..]);
    var tick: nat := 0;
    while headEntry.next != null
      invariant fresh(headEntry) && fresh(nodes) && fresh(linearized) && fresh(longest)
                && (linearized as object) != longest
      invariant Searching(m, h, history, headEntry, nodes, p, seen, Recording(computePartial, longest[..]), pos)
      invariant Holds(m, h, history, nodes, p, seen, pos, entry, state, linearized[..], cache, calls)
      invariant PartialsOk(m, h, longest[..])
      decreases |Universe(m, h, h.Size()) - seen|, |p.ids|, |history| - pos
    {
      if kill(tick) { return false, longest; }
      tick := tick + 1;
      CursorThere(m, h, history, headEntry, nodes, p, seen, Recording(computePartial, longest[..]), pos, entry, state,
                  linearized[..], cache, calls);
      HoldsCall(m, h, history, headEntry, nodes, p, seen, Recording(computePartial, longest[..]), pos, entry, state,
                linearized[..], cache, calls);
      if entry.match_ != null {
        entry, state, cache, calls, p, seen, pos :=
          TryCall(m, h, history, headEntry, nodes, p, seen, Recording(computePartial, longest[..]), pos, entry, state,
                  linearized, cache, calls);
      } else {
        CallsSize(nodes, h, p, calls);
        RecordingIs(computePartial, longest[..]);
        if |calls| == 0 {
          GiveUpMove(m, h, history, headEntry, nodes, p, seen, Recording(computePartial, longest[..]), pos);
          return false, longest;
        }
        if computePartial {
          RecordMove(m, h, history, headEntry, nodes, p, seen, longest[..], pos);
          StackInRange(m, h, history, headEntry, nodes, p, seen, Some(longest[..]), pos);
          RecordLongest(longest, calls, p.ids);
        }
        RecordingIs(computePartial, longest[..]);
        entry, state, calls, p, pos :=
          Backtrack(m, h, history, headEntry, nodes, p, seen, Recording(computePartial, longest[..]), pos, entry, state,
                    linearized, cache, calls);
      }
    }
    Finished(m, h, history, headEntry, nodes, p, seen, Recording(computePartial, longest[..]), pos);
    HoldsCalls(m, h, history, nodes, p, seen, pos, entry, state, linearized[..], cache, calls);
    CallsSize(nodes, h, p, calls);
    PartialsSize(m, h, longest[..]);
    FillLongest(longest, calls, p.ids);
    FilledOk(m, h, p.ids, longest[..]);
    return true, longest;
  }

  lemma PartialsSize<S, V>(m: Model<S, V>, h: History<V>, longest: Longest)
    requires h.Valid() && PartialsOk(m, h, longest)
    ensures |longest| == h.Size()
  {
  }

  lemma StackInRange<S(!new), V>(m: Model<S, V>, h: History<V>, entries: seq<Entry<V>>, head: Node<V>,
                                 nodes: seq<Node<V>>,
                                 p: Path<S>, seen: set<Config<S>>, longest: Option<Longest>, pos: int)
    requires Searching(m, h, entries, head, nodes, p, seen, longest, pos)
    ensures InRange(p.ids, h.Size())
  {
    SearchingFacts(m, h, entries, head, nodes, p, seen, longest, pos);
  }

  lemma HoldsCalls<S(!new), V>(m: Model<S, V>, h: History<V>, entries: seq<Entry<V>>, nodes: seq<Node<V>>, p: Path<S>,
                               seen: set<Config<S>>, pos: int, entry: Node?<V>, state: S, linearized: Bitset.Words,
                               cache: Cache<S>, calls: seq<CallsEntry<V, S>>)
    requires Holds(m, h, entries, nodes, p, seen, pos, entry, state, linearized, cache, calls)
    ensures CallsOk(nodes, h, p, calls)
  {
  }

  /** While the list is not empty, the cursor is at one of its nodes. */
  lemma CursorThere<S(!new), V>(m: Model<S, V>, h: History<V>, entries: seq<Entry<V>>, head: Node<V>,
                                nodes: seq<Node<V>>, p: Path<S>, seen: set<Config<S>>, longest: Option<Longest>,
                                pos: int, entry: Node?<V>, state: S, linearized: Bitset.Words, cache: Cache<S>,
                                calls: seq<CallsEntry<V, S>>)
    requires Searching(m, h, entries, head, nodes, p, seen, longest, pos) && head.next != null
    requires Holds(m, h, entries, nodes, p, seen, pos, entry, state, linearized, cache, calls)
    ensures entry != null
  {
    CursorInList(m, h, entries, head, nodes, p, seen, longest, pos);
    hide Searching, CacheOk, CallsOk;
  }
}
