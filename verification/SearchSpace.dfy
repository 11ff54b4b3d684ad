/**
 What the depth-first search of checkSingle knows at each moment, and why each
 of its moves keeps it: which configurations have been tried to the end, which
 are being explored, and how many can still be met.
 */
module SearchSpace {
  import opened Sets
  import opened Options
  import opened Linearizability

  /** A set of linearized operations and the state they lead to. */
  type Config<S> = (set<int>, S)

  /** Operation `x` is refused by the model here, or leads to a configuration met before. */
  ghost predicate Covered<S, V>(m: Model<S, V>, h: History<V>, seen: set<Config<S>>, done: set<int>, st: S, x: int)
    requires h.Valid() && 0 <= x < h.Size()
  {
    var (ok, st') := m.step(st, h.input[x], h.output[x]);
    ok ==> (done + {x}, st') in seen
  }

  /** So is every remaining operation called before `pos`. */
  ghost predicate Tried<S, V>(m: Model<S, V>, h: History<V>, seen: set<Config<S>>, done: set<int>, st: S, pos: int)
    requires h.Valid()
  {
    forall x :: 0 <= x < h.Size() && x !in done && h.call[x] < pos ==> Covered(m, h, seen, done, st, x)
  }

  /** No remaining operation returns before `pos`. */
  ghost predicate NoReturnBefore<V>(h: History<V>, done: set<int>, pos: int)
    requires h.Valid()
  {
    forall x :: 0 <= x < h.Size() && x !in done ==> h.ret[x] >= pos
  }

  /** Nothing of the remaining operations happens strictly between two positions. */
  ghost predicate Adjacent<V>(h: History<V>, done: set<int>, pos: int, next: int)
    requires h.Valid()
  {
    && pos < next
    && forall x :: 0 <= x < h.Size() && x !in done ==>
         (h.call[x] <= pos || h.call[x] >= next) && (h.ret[x] <= pos || h.ret[x] >= next)
  }

  /** All call and return positions differ. */
  ghost predicate Apart<V>(h: History<V>)
    requires h.Valid()
  {
    && (forall x, y :: 0 <= x < h.Size() && 0 <= y < h.Size() ==> h.call[x] != h.ret[y])
    && (forall x, y :: 0 <= x < y < h.Size() ==> h.call[x] != h.call[y] && h.ret[x] != h.ret[y])
    && (forall x :: 0 <= x < h.Size() ==> h.call[x] < h.ret[x])
  }

  // ---- The stack

  /** The operations on the stack, with the state before each and the current one. */
  datatype Path<S> = Path(ids: seq<int>, states: seq<S>)

  ghost predicate PathOk<S, V>(m: Model<S, V>, h: History<V>, p: Path<S>)
    requires h.Valid()
  {
    && |p.states| == |p.ids| + 1
    && p.states[0] == m.init
    && InRange(p.ids, h.Size())
    && Distinct(p.ids)
    && ReadyInTurn(h, p.ids)
    && (forall d :: 0 <= d < |p.ids| ==> Accepted(m, h, p.states[d], p.ids[d], p.states[d + 1]))
  }

  ghost predicate Accepted<S, V>(m: Model<S, V>, h: History<V>, st: S, x: int, st': S) {
    |h.output| == |h.input| && 0 <= x < h.Size() && m.step(st, h.input[x], h.output[x]) == (true, st')
  }

  ghost function Top<S>(p: Path<S>): S
    requires |p.states| > 0
  {
    p.states[|p.states| - 1]
  }

  function Push<S>(p: Path<S>, x: int, st': S): Path<S> {
    Path(p.ids + [x], p.states + [st'])
  }

  ghost function Pop<S>(p: Path<S>): Path<S>
    requires |p.ids| > 0 && |p.states| == |p.ids| + 1
  {
    Path(p.ids[..|p.ids| - 1], p.states[..|p.ids|])
  }

  lemma ElemsSnoc(ids: seq<int>, x: int)
    ensures Elems(ids + [x]) == Elems(ids) + {x}
  {
  }

  lemma PathPush<S, V>(m: Model<S, V>, h: History<V>, p: Path<S>, x: int, st': S)
    requires h.Valid() && PathOk(m, h, p) && 0 <= x < h.Size() && x !in p.ids
    requires Accepted(m, h, Top(p), x, st') && Ready(h, Elems(p.ids), x)
    ensures PathOk(m, h, Push(p, x, st'))
  {
    var ids := p.ids + [x];
    forall i | 0 <= i < |ids| ensures Ready(h, Elems(ids[..i]), ids[i]) {
      if i < |p.ids| {
        assert ids[..i] == p.ids[..i];
      } else {
        assert ids[..i] == p.ids;
      }
    }
  }

  lemma PathPop<S, V>(m: Model<S, V>, h: History<V>, p: Path<S>)
    requires h.Valid() && PathOk(m, h, p) && |p.ids| > 0
    ensures PathOk(m, h, Pop(p))
    ensures var x := p.ids[|p.ids| - 1];
            && p == Push(Pop(p), x, Top(p)) && x !in Pop(p).ids
            && Elems(p.ids) == Elems(Pop(p).ids) + {x} && Accepted(m, h, Top(Pop(p)), x, Top(p))
  {
    var q, x := Pop(p), p.ids[|p.ids| - 1];
    assert p.ids == q.ids + [x];
    assert p.states == q.states + [Top(p)];
    ElemsSnoc(q.ids, x);
    forall i | 0 <= i < |q.ids| ensures Ready(h, Elems(q.ids[..i]), q.ids[i]) {
      assert q.ids[..i] == p.ids[..i];
      assert Ready(h, Elems(p.ids[..i]), p.ids[i]);
    }
    hide Ready, Elems;
    forall d | 0 <= d < |q.ids| ensures Accepted(m, h, q.states[d], q.ids[d], q.states[d + 1]) {
      assert Accepted(m, h, p.states[d], p.ids[d], p.states[d + 1]);
    }
    var last := |q.ids|;
    assert Accepted(m, h, p.states[last], p.ids[last], p.states[last + 1]);
  }

  /** The stack is a partial linearization at all times. */
  lemma {:induction false} PathReplays<S, V>(m: Model<S, V>, h: History<V>, p: Path<S>)
    requires h.Valid() && PathOk(m, h, p)
    ensures Replay(m, h, m.init, p.ids) == Some(Top(p))
    ensures Partial(m, h, p.ids)
    decreases |p.ids|
  {
    if |p.ids| > 0 {
      PathPop(m, h, p);
      PathReplays(m, h, Pop(p));
      ReplaySnoc(m, h, m.init, Pop(p).ids, p.ids[|p.ids| - 1]);
    }
  }

  /** Nothing left: the stack is a linearization. */
  lemma AllLinearized<S, V>(m: Model<S, V>, h: History<V>, p: Path<S>)
    requires h.Valid() && PathOk(m, h, p) && Below(h.Size()) <= Elems(p.ids)
    ensures Linearization(m, h, p.ids)
  {
    PathReplays(m, h, p);
    ElemsSize(p.ids);
    assert Elems(p.ids) == Below(h.Size());
    LinearizationIsPartial(m, h, p.ids);
  }

  // ---- The memo

  /** For each operation, the longest partial linearization recorded for it so far. */
  type Longest = seq<Option<seq<int>>>

  /** Something at least as long as `done` is recorded for each of its operations. */
  ghost predicate Logged(longest: Longest, done: set<int>) {
    forall i <- done :: 0 <= i < |longest| ==> longest[i].Some? && |longest[i].value| >= |done|
  }

  ghost predicate Improves(longest: Longest, longest': Longest) {
    && |longest'| == |longest|
    && forall i :: 0 <= i < |longest| && longest[i].Some? ==>
                   longest'[i].Some? && |longest'[i].value| >= |longest[i].value|
  }

  /**
   A configuration left for good: something remains, all that is ready has been tried, and its
   length is on record.
   */
  ghost predicate Settled<S, V>(m: Model<S, V>, h: History<V>, seen: set<Config<S>>, longest: Option<Longest>,
                                c: Config<S>)
    requires h.Valid()
  {
    && !(Below(h.Size()) <= c.0)
    && (forall x :: 0 <= x < h.Size() && x !in c.0 && Ready(h, c.0, x) ==> Covered(m, h, seen, c.0, c.1, x))
    && (longest.Some? ==> Logged(longest.value, c.0))
  }

  ghost predicate OnPath<S>(p: Path<S>, c: Config<S>) {
    exists d :: 0 <= d <= |p.ids| && d < |p.states| && c == (Elems(p.ids[..d]), p.states[d])
  }

  ghost predicate MemoOk<S, V>(m: Model<S, V>, h: History<V>, p: Path<S>, seen: set<Config<S>>,
                               longest: Option<Longest>)
    requires h.Valid()
  {
    forall c <- seen :: OnPath(p, c) || Settled(m, h, seen, longest, c)
  }

  /** At each level of the stack, everything before the operation chosen there has been tried. */
  ghost predicate FramesTried<S, V>(m: Model<S, V>, h: History<V>, p: Path<S>, seen: set<Config<S>>)
    requires h.Valid() && PathOk(m, h, p)
  {
    forall d :: 0 <= d < |p.ids| ==> FrameTried(m, h, p, seen, d)
  }

  ghost predicate FrameTried<S, V>(m: Model<S, V>, h: History<V>, p: Path<S>, seen: set<Config<S>>, d: int)
    requires h.Valid() && PathOk(m, h, p) && 0 <= d < |p.ids|
  {
    && Tried(m, h, seen, Elems(p.ids[..d]), p.states[d], h.call[p.ids[d]])
    && NoReturnBefore(h, Elems(p.ids[..d]), h.call[p.ids[d]])
    && (Elems(p.ids[..d + 1]), p.states[d + 1]) in seen
  }

  ghost predicate SearchOk<S, V>(m: Model<S, V>, h: History<V>, p: Path<S>, seen: set<Config<S>>,
                                 longest: Option<Longest>, pos: int) {
    && h.Valid() && Apart(h)
    && PathOk(m, h, p)
    && FramesTried(m, h, p, seen)
    && MemoOk(m, h, p, seen, longest)
    && Tried(m, h, seen, Elems(p.ids), Top(p), pos)
    && NoReturnBefore(h, Elems(p.ids), pos)
  }

  // ---- Moves

  lemma SearchStart<S, V>(m: Model<S, V>, h: History<V>, longest: Option<Longest>, pos: int)
    requires h.Valid() && Apart(h)
    requires forall x :: 0 <= x < h.Size() ==> h.call[x] >= pos && h.ret[x] >= pos
    ensures SearchOk(m, h, Path([], [m.init]), {}, longest, pos)
  {
  }

  /** Passing over a call. */
  lemma SkipOk<S, V>(m: Model<S, V>, h: History<V>, p: Path<S>, seen: set<Config<S>>, longest: Option<Longest>, x: int,
                     next: int)
    requires h.Valid() && 0 <= x < h.Size() && SearchOk(m, h, p, seen, longest, h.call[x])
    requires Covered(m, h, seen, Elems(p.ids), Top(p), x) && Adjacent(h, Elems(p.ids), h.call[x], next)
    ensures SearchOk(m, h, p, seen, longest, next)
  {
    hide FramesTried, MemoOk, Covered;
    forall y | 0 <= y < h.Size() && y !in Elems(p.ids) && h.call[y] < next
      ensures Covered(m, h, seen, Elems(p.ids), Top(p), y)
    {
      assert y == x || h.call[y] < h.call[x];
    }
  }

  lemma FramePush<S, V>(m: Model<S, V>, h: History<V>, p: Path<S>, x: int, st': S, seen: set<Config<S>>, d: int)
    requires h.Valid() && PathOk(m, h, p) && PathOk(m, h, Push(p, x, st')) && 0 <= d < |p.ids|
    ensures FrameTried(m, h, p, seen, d) <==> FrameTried(m, h, Push(p, x, st'), seen, d)
  {
    assert (p.ids + [x])[..d] == p.ids[..d];
    assert (p.ids + [x])[..d + 1] == p.ids[..d + 1];
  }

  lemma TriedMore<S, V>(m: Model<S, V>, h: History<V>, seen: set<Config<S>>, seen': set<Config<S>>, done: set<int>,
                        st: S, pos: int)
    requires h.Valid() && Tried(m, h, seen, done, st, pos) && seen <= seen'
    ensures Tried(m, h, seen', done, st, pos)
  {
  }

  lemma FrameMore<S, V>(m: Model<S, V>, h: History<V>, p: Path<S>, seen: set<Config<S>>, seen': set<Config<S>>, d: int)
    requires h.Valid() && PathOk(m, h, p) && 0 <= d < |p.ids| && FrameTried(m, h, p, seen, d) && seen <= seen'
    ensures FrameTried(m, h, p, seen', d)
  {
  }

  lemma OnPathPush<S>(p: Path<S>, x: int, st': S, c: Config<S>)
    requires |p.states| == |p.ids| + 1
    ensures OnPath(Push(p, x, st'), c) <==> OnPath(p, c) || c == (Elems(p.ids) + {x}, st')
  {
    var q := Push(p, x, st');
    ElemsSnoc(p.ids, x);
    assert q.ids[..|q.ids|] == q.ids && p.ids[..|p.ids|] == p.ids;
    forall d | 0 <= d <= |p.ids| ensures q.ids[..d] == p.ids[..d] && q.states[d] == p.states[d] {}
    if OnPath(p, c) {
      var d :| 0 <= d <= |p.ids| && d < |p.states| && c == (Elems(p.ids[..d]), p.states[d]);
      assert c == (Elems(q.ids[..d]), q.states[d]);
    }
    if c == (Elems(p.ids) + {x}, st') {
      assert c == (Elems(q.ids[..|q.ids|]), q.states[|q.ids|]);
    }
  }

  /** Linearizing a call: it is ready, because no remaining operation has returned yet. */
  lemma PushOk<S, V>(m: Model<S, V>, h: History<V>, p: Path<S>, seen: set<Config<S>>, longest: Option<Longest>, x: int,
                     st': S, first: int)
    requires h.Valid() && 0 <= x < h.Size() && SearchOk(m, h, p, seen, longest, h.call[x])
    requires x !in p.ids && Accepted(m, h, Top(p), x, st')
    requires forall y :: 0 <= y < h.Size() && y !in Elems(p.ids) + {x} ==> h.call[y] >= first && h.ret[y] >= first
    ensures SearchOk(m, h, Push(p, x, st'), seen + {(Elems(p.ids) + {x}, st')}, longest, first)
  {
    var seen' := seen + {(Elems(p.ids) + {x}, st')};
    PathPush(m, h, p, x, st');
    ElemsSnoc(p.ids, x);
    PushFrames(m, h, p, seen, x, st');
    PushMemo(m, h, p, seen, longest, x, st');
    hide FramesTried, MemoOk, PathOk, Covered;
  }

  lemma PushFrames<S, V>(m: Model<S, V>, h: History<V>, p: Path<S>, seen: set<Config<S>>, x: int, st': S)
    requires h.Valid() && 0 <= x < h.Size() && PathOk(m, h, p) && PathOk(m, h, Push(p, x, st'))
             && FramesTried(m, h, p, seen)
    requires Tried(m, h, seen, Elems(p.ids), Top(p), h.call[x]) && NoReturnBefore(h, Elems(p.ids), h.call[x])
    ensures FramesTried(m, h, Push(p, x, st'), seen + {(Elems(p.ids) + {x}, st')})
  {
    hide ReadyInTurn, Accepted, Tried, NoReturnBefore;
    var q, seen' := Push(p, x, st'), seen + {(Elems(p.ids) + {x}, st')};
    TriedMore(m, h, seen, seen', Elems(p.ids), Top(p), h.call[x]);
    forall d | 0 <= d < |q.ids| ensures FrameTried(m, h, q, seen', d) {
      if d < |p.ids| {
        FrameMore(m, h, p, seen, seen', d);
        FramePush(m, h, p, x, st', seen', d);
      } else {
        assert q.ids[..d] == p.ids && q.ids[..d + 1] == q.ids;
        ElemsSnoc(p.ids, x);
      }
    }
  }

  lemma PushMemo<S, V>(m: Model<S, V>, h: History<V>, p: Path<S>, seen: set<Config<S>>, longest: Option<Longest>,
                       x: int, st': S)
    requires h.Valid() && MemoOk(m, h, p, seen, longest) && |p.states| == |p.ids| + 1
    ensures MemoOk(m, h, Push(p, x, st'), seen + {(Elems(p.ids) + {x}, st')}, longest)
  {
    hide OnPath, Logged;
    var seen' := seen + {(Elems(p.ids) + {x}, st')};
    forall c <- seen' ensures OnPath(Push(p, x, st'), c) || Settled(m, h, seen', longest, c) {
      OnPathPush(p, x, st', c);
    }
  }

  /** A return of a remaining operation: everything ready has been tried. */
  lemma ReturnSettles<S, V>(m: Model<S, V>, h: History<V>, p: Path<S>, seen: set<Config<S>>, longest: Option<Longest>,
                            y: int)
    requires h.Valid() && 0 <= y < h.Size() && y !in p.ids && SearchOk(m, h, p, seen, longest, h.ret[y])
    requires longest.Some? ==> Logged(longest.value, Elems(p.ids))
    ensures Settled(m, h, seen, longest, (Elems(p.ids), Top(p)))
  {
    hide FramesTried, MemoOk, ReadyInTurn, Accepted, Covered, Logged;
    var done := Elems(p.ids);
    assert y in Below(h.Size()) && y !in done;
    forall x | 0 <= x < h.Size() && x !in done && Ready(h, done, x) ensures Covered(m, h, seen, done, Top(p), x) {
      assert !Precedes(h, y, x);
      assert h.call[x] != h.ret[y];
    }
  }

  /** Backtracking: the configuration left behind is settled. */
  lemma PopOk<S, V>(m: Model<S, V>, h: History<V>, p: Path<S>, seen: set<Config<S>>, longest: Option<Longest>, y: int,
                    next: int)
    requires h.Valid() && 0 <= y < h.Size() && y !in p.ids && SearchOk(m, h, p, seen, longest, h.ret[y]) && |p.ids| > 0
    requires longest.Some? ==> Logged(longest.value, Elems(p.ids))
    requires var x := p.ids[|p.ids| - 1]; Adjacent(h, Elems(Pop(p).ids), h.call[x], next)
    ensures SearchOk(m, h, Pop(p), seen, longest, next)
  {
    var q, x := Pop(p), p.ids[|p.ids| - 1];
    ReturnSettles(m, h, p, seen, longest, y);
    PathPop(m, h, p);
    PopFrames(m, h, p, seen);
    PopMemo(m, h, p, seen, longest);
    hide FramesTried, MemoOk, Tried, NoReturnBefore, ReadyInTurn, Settled;
    SkipOk(m, h, q, seen, longest, x, next);
  }

  lemma PopMemo<S, V>(m: Model<S, V>, h: History<V>, p: Path<S>, seen: set<Config<S>>, longest: Option<Longest>)
    requires h.Valid() && PathOk(m, h, p) && |p.ids| > 0 && MemoOk(m, h, p, seen, longest)
    requires Settled(m, h, seen, longest, (Elems(p.ids), Top(p)))
    ensures MemoOk(m, h, Pop(p), seen, longest)
  {
    hide Settled, OnPath;
    PathPop(m, h, p);
    forall c <- seen ensures OnPath(Pop(p), c) || Settled(m, h, seen, longest, c) {
      OnPathPush(Pop(p), p.ids[|p.ids| - 1], Top(p), c);
    }
  }

  lemma PopFrames<S, V>(m: Model<S, V>, h: History<V>, p: Path<S>, seen: set<Config<S>>)
    requires h.Valid() && |p.ids| > 0 && PathOk(m, h, p) && PathOk(m, h, Pop(p)) && FramesTried(m, h, p, seen)
    ensures FramesTried(m, h, Pop(p), seen)
    ensures var x := p.ids[|p.ids| - 1];
            && Tried(m, h, seen, Elems(Pop(p).ids), Top(Pop(p)), h.call[x])
            && NoReturnBefore(h, Elems(Pop(p).ids), h.call[x])
            && Covered(m, h, seen, Elems(Pop(p).ids), Top(Pop(p)), x)
  {
    PathPop(m, h, p);
    var q, x, last := Pop(p), p.ids[|p.ids| - 1], |p.ids| - 1;
    assert FrameTried(m, h, p, seen, last);
    LastFrame(m, h, q, x, Top(p), seen);
    hide PathOk, FrameTried, Tried, NoReturnBefore, Covered;
    forall d | 0 <= d < |q.ids| ensures FrameTried(m, h, q, seen, d) {
      FramePush(m, h, q, x, Top(p), seen, d);
      assert FrameTried(m, h, p, seen, d);
    }
  }

  lemma LastFrame<S, V>(m: Model<S, V>, h: History<V>, q: Path<S>, x: int, st': S, seen: set<Config<S>>)
    requires h.Valid() && PathOk(m, h, q) && 0 <= x < h.Size() && Accepted(m, h, Top(q), x, st')
    requires PathOk(m, h, Push(q, x, st')) && FrameTried(m, h, Push(q, x, st'), seen, |q.ids|)
    ensures Tried(m, h, seen, Elems(q.ids), Top(q), h.call[x]) && NoReturnBefore(h, Elems(q.ids), h.call[x])
    ensures Covered(m, h, seen, Elems(q.ids), Top(q), x)
  {
    hide Tried, NoReturnBefore, ReadyInTurn;
    var ids := q.ids + [x];
    assert ids[..|q.ids|] == q.ids && ids[..|q.ids| + 1] == ids;
    ElemsSnoc(q.ids, x);
  }

  /** Recording longer sequences changes nothing else. */
  lemma RecordOk<S, V>(m: Model<S, V>, h: History<V>, p: Path<S>, seen: set<Config<S>>, longest: Longest,
                       longest': Longest, pos: int)
    requires SearchOk(m, h, p, seen, Some(longest), pos) && Improves(longest, longest')
    ensures SearchOk(m, h, p, seen, Some(longest'), pos)
  {
    hide FramesTried, PathOk, Covered, OnPath, Tried, NoReturnBefore;
    forall c <- seen | Settled(m, h, seen, Some(longest), c) ensures Settled(m, h, seen, Some(longest'), c) {}
  }

  // ---- Giving up

  /** Back at the start with nothing left to try, every partial linearization has been met. */
  lemma {:induction false} Exhausted<S, V>(m: Model<S, V>, h: History<V>, seen: set<Config<S>>,
                                           longest: Option<Longest>, order: seq<int>)
    requires h.Valid() && MemoOk(m, h, Path([], [m.init]), seen, longest) && Settled(m, h, seen, longest, ({}, m.init))
    requires Partial(m, h, order)
    ensures var c := (Elems(order), Replay(m, h, m.init, order).value); Settled(m, h, seen, longest, c)
    decreases |order|
  {
    hide Settled;
    if |order| == 0 {
      assert Elems(order) == {};
    } else {
      var front, x := order[..|order| - 1], order[|order| - 1];
      assert order == front + [x];
      PartialFront(m, h, front, x);
      Exhausted(m, h, seen, longest, front);
      ElemsSnoc(front, x);
      SettledStep(m, h, seen, longest, (Elems(front), Replay(m, h, m.init, front).value), x);
    }
  }

  lemma PartialFront<S, V>(m: Model<S, V>, h: History<V>, front: seq<int>, x: int)
    requires h.Valid() && Partial(m, h, front + [x])
    ensures Partial(m, h, front) && 0 <= x < h.Size() && x !in front && Ready(h, Elems(front), x)
    ensures Accepted(m, h, Replay(m, h, m.init, front).value, x, Replay(m, h, m.init, front + [x]).value)
  {
    var order := front + [x];
    forall i | 0 <= i < |front| ensures front[i] == order[i] && front[..i] == order[..i] {}
    assert order[..|front|] == front && order[|front|] == x;
    ReplayFront(m, h, m.init, front, x);
    ReplaySnoc(m, h, m.init, front, x);
  }

  lemma {:induction false} ReplayFront<S, V>(m: Model<S, V>, h: History<V>, st: S, front: seq<int>, x: int)
    requires h.Valid() && InRange(front + [x], h.Size()) && InRange(front, h.Size())
             && Replay(m, h, st, front + [x]).Some?
    ensures Replay(m, h, st, front).Some?
    decreases |front|
  {
    if |front| > 0 {
      assert (front + [x])[1..] == front[1..] + [x];
      ReplayFront(m, h, m.step(st, h.input[front[0]], h.output[front[0]]).1, front[1..], x);
    }
  }

  lemma SettledStep<S, V>(m: Model<S, V>, h: History<V>, seen: set<Config<S>>, longest: Option<Longest>, c: Config<S>,
                          x: int)
    requires h.Valid() && MemoOk(m, h, Path([], [m.init]), seen, longest) && Settled(m, h, seen, longest, ({}, m.init))
    requires Settled(m, h, seen, longest, c) && 0 <= x < h.Size() && x !in c.0 && Ready(h, c.0, x)
    requires m.step(c.1, h.input[x], h.output[x]).0
    ensures Settled(m, h, seen, longest, (c.0 + {x}, m.step(c.1, h.input[x], h.output[x]).1))
  {
    var c' := (c.0 + {x}, m.step(c.1, h.input[x], h.output[x]).1);
    assert Covered(m, h, seen, c.0, c.1, x);
    assert c' in seen;
    assert Elems([]) == {};
    assert !OnPath(Path([], [m.init]), c') || c' == ({}, m.init);
  }

  /** Then there is no linearization, and what is recorded is as long as can be. */
  lemma GiveUp<S, V>(m: Model<S, V>, h: History<V>, seen: set<Config<S>>, longest: Option<Longest>, y: int)
    requires h.Valid() && 0 <= y < h.Size() && SearchOk(m, h, Path([], [m.init]), seen, longest, h.ret[y])
    ensures !Linearizable(m, h)
    ensures longest.Some? ==> forall order :: Partial(m, h, order) ==> Logged(longest.value, Elems(order))
  {
    hide Settled, MemoOk, Linearization;
    var p := Path([], [m.init]);
    assert Elems(p.ids) == {};
    ReturnSettles(m, h, p, seen, longest, y);
    forall order | Partial(m, h, order)
      ensures !(Below(h.Size()) <= Elems(order)) && (longest.Some? ==> Logged(longest.value, Elems(order)))
    {
      Exhausted(m, h, seen, longest, order);
      SettledMeans(m, h, seen, longest, (Elems(order), Replay(m, h, m.init, order).value));
    }
    forall order ensures !Linearization(m, h, order) {
      LinearizationIsPartial(m, h, order);
      if Linearization(m, h, order) {
        AllElems(order, h.Size());
      }
    }
  }

  lemma SettledMeans<S, V>(m: Model<S, V>, h: History<V>, seen: set<Config<S>>, longest: Option<Longest>, c: Config<S>)
    requires h.Valid() && Settled(m, h, seen, longest, c)
    ensures !(Below(h.Size()) <= c.0) && (longest.Some? ==> Logged(longest.value, c.0))
  {
  }

  // ---- How many configurations there are

  /** The configurations some sequence of `k` accepted operations reaches. */
  ghost function Level<S, V>(m: Model<S, V>, h: History<V>, k: nat): set<(set<int>, S)>
    requires h.Valid()
  {
    if k == 0 then {({}, m.init)}
    else set c, x | c in Level(m, h, k - 1) && x in Below(h.Size()) && m.step(c.1, h.input[x], h.output[x]).0 ::
           (c.0 + {x}, m.step(c.1, h.input[x], h.output[x]).1)
  }

  ghost function Universe<S, V>(m: Model<S, V>, h: History<V>, k: nat): set<(set<int>, S)>
    requires h.Valid()
  {
    if k == 0 then Level(m, h, 0) else Universe(m, h, k - 1) + Level(m, h, k)
  }

  lemma {:induction false} PathInLevel<S, V>(m: Model<S, V>, h: History<V>, p: Path<S>)
    requires h.Valid() && PathOk(m, h, p)
    ensures (Elems(p.ids), Top(p)) in Level(m, h, |p.ids|)
    decreases |p.ids|
  {
    hide ReadyInTurn, Distinct, Level;
    if |p.ids| == 0 {
      assert Elems(p.ids) == {};
      LevelZero(m, h);
    } else {
      PathPop(m, h, p);
      PathInLevel(m, h, Pop(p));
      LevelStep(m, h, |p.ids|, (Elems(Pop(p).ids), Top(Pop(p))), p.ids[|p.ids| - 1], Top(p));
    }
  }

  lemma LevelZero<S, V>(m: Model<S, V>, h: History<V>)
    requires h.Valid()
    ensures Level(m, h, 0) == {({}, m.init)}
  {
  }

  lemma LevelStep<S, V>(m: Model<S, V>, h: History<V>, k: nat, c: (set<int>, S), x: int, st': S)
    requires h.Valid() && k > 0 && c in Level(m, h, k - 1) && Accepted(m, h, c.1, x, st')
    ensures (c.0 + {x}, st') in Level(m, h, k)
  {
    assert x in Below(h.Size());
  }

  lemma {:induction false} LevelInUniverse<S, V>(m: Model<S, V>, h: History<V>, k: nat, n: nat)
    requires h.Valid() && k <= n
    ensures Level(m, h, k) <= Universe(m, h, n)
    decreases n
  {
    hide Level;
    if k < n {
      LevelInUniverse(m, h, k, n - 1);
    } else if n > 0 {
      assert Universe(m, h, n) == Universe(m, h, n - 1) + Level(m, h, n);
    }
  }

  /** Every configuration the search pushes comes from a finite set. */
  lemma PathInUniverse<S, V>(m: Model<S, V>, h: History<V>, p: Path<S>)
    requires h.Valid() && PathOk(m, h, p)
    ensures (Elems(p.ids), Top(p)) in Universe(m, h, h.Size())
  {
    PathInLevel(m, h, p);
    ElemsSize(p.ids);
    assert Elems(p.ids) <= Below(h.Size());
    SubsetSize(Elems(p.ids), Below(h.Size()));
    LevelInUniverse(m, h, |p.ids|, h.Size());
  }
}
