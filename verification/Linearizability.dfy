/**
 Linearizability as Herlihy and Wing define it, for complete histories: some
 order of all operations is accepted by the sequential model from its initial
 state and never puts an operation before one that returned before it was called.
 */
module Linearizability {
  import opened Sets
  import opened Options

  /** A sequential specification; `step` tells whether a call may return a value, and the next state. */
  datatype Model<!S, !V> = Model(init: S, step: (S, V, V) -> (bool, S))

  /** Operations by id, with when each was called and when it returned. */
  datatype History<V> = History(input: seq<V>, output: seq<V>, call: seq<int>, ret: seq<int>) {
    ghost predicate Valid() {
      |output| == |input| && |call| == |input| && |ret| == |input| && forall x :: 0 <= x < |input| ==> call[x] <= ret[x]
    }

    function Size(): nat { |input| }
  }

  ghost predicate Precedes<V>(h: History<V>, a: int, b: int)
    requires h.Valid() && 0 <= a < h.Size() && 0 <= b < h.Size()
  {
    h.ret[a] < h.call[b]
  }

  ghost predicate InRange(order: seq<int>, n: nat) {
    forall i :: 0 <= i < |order| ==> 0 <= order[i] < n
  }

  /** The state after running operations `order`, if the model accepts them all. */
  function Replay<S, V>(m: Model<S, V>, h: History<V>, st: S, order: seq<int>): Option<S>
    requires |h.output| == |h.input| && InRange(order, |h.input|)
    decreases |order|
  {
    if |order| == 0 then Some(st)
    else
      var (ok, st') := m.step(st, h.input[order[0]], h.output[order[0]]);
      if ok then Replay(m, h, st', order[1..]) else None
  }

  /** No operation comes before one that precedes it in real time. */
  ghost predicate RealTime<V>(h: History<V>, order: seq<int>)
    requires h.Valid() && InRange(order, h.Size())
  {
    forall i, j :: 0 <= i < j < |order| ==> !Precedes(h, order[j], order[i])
  }

  ghost predicate Linearization<S, V>(m: Model<S, V>, h: History<V>, order: seq<int>)
    requires h.Valid()
  {
    && |order| == h.Size()
    && InRange(order, h.Size())
    && Distinct(order)
    && Replay(m, h, m.init, order).Some?
    && RealTime(h, order)
  }

  ghost predicate Linearizable<S, V>(m: Model<S, V>, h: History<V>)
    requires h.Valid()
  {
    exists order :: Linearization(m, h, order)
  }

  // ---- Partial linearizations

  /** Everything that precedes operation `x` is in `done`. */
  ghost predicate Ready<V>(h: History<V>, done: set<int>, x: int)
    requires h.Valid() && 0 <= x < h.Size()
  {
    forall a :: 0 <= a < h.Size() && Precedes(h, a, x) ==> a in done
  }

  ghost predicate ReadyInTurn<V>(h: History<V>, order: seq<int>)
    requires h.Valid() && InRange(order, h.Size())
  {
    forall i :: 0 <= i < |order| ==> Ready(h, Elems(order[..i]), order[i])
  }

  /** Some of the operations, without repeats, each after all that precede it, and accepted by the model. */
  ghost predicate Partial<S, V>(m: Model<S, V>, h: History<V>, order: seq<int>)
    requires h.Valid()
  {
    && InRange(order, h.Size())
    && Distinct(order)
    && ReadyInTurn(h, order)
    && Replay(m, h, m.init, order).Some?
  }

  lemma {:induction false} ReplaySnoc<S, V>(m: Model<S, V>, h: History<V>, st: S, order: seq<int>, x: int)
    requires h.Valid() && InRange(order, h.Size()) && 0 <= x < h.Size()
    requires Replay(m, h, st, order).Some?
    ensures var (ok, st') := m.step(Replay(m, h, st, order).value, h.input[x], h.output[x]);
            Replay(m, h, st, order + [x]) == if ok then Some(st') else None
    decreases |order|
  {
    if |order| == 0 {
      assert (order + [x])[1..] == [];
    } else {
      assert (order + [x])[1..] == order[1..] + [x];
      var (ok, st') := m.step(st, h.input[order[0]], h.output[order[0]]);
      ReplaySnoc(m, h, st', order[1..], x);
    }
  }

  /** In an order of all operations, real time is respected exactly when each comes after its predecessors. */
  lemma LinearizationIsPartial<S, V>(m: Model<S, V>, h: History<V>, order: seq<int>)
    requires h.Valid()
    ensures Linearization(m, h, order) <==> Partial(m, h, order) && |order| == h.Size()
  {
    if InRange(order, h.Size()) && Distinct(order) && |order| == h.Size() {
      AllElems(order, h.Size());
      RealTimeIsReady(h, order);
    }
  }

  lemma RealTimeIsReady<V>(h: History<V>, order: seq<int>)
    requires h.Valid() && InRange(order, h.Size()) && Elems(order) == Below(h.Size()) && Distinct(order)
    ensures RealTime(h, order) <==> ReadyInTurn(h, order)
  {
    if RealTime(h, order) {
      forall i | 0 <= i < |order| ensures Ready(h, Elems(order[..i]), order[i]) {
        forall a | 0 <= a < h.Size() && Precedes(h, a, order[i]) ensures a in Elems(order[..i]) {
          assert a in Elems(order);
          PredecessorEarlier(h, order, i, a);
        }
      }
    }
    if ReadyInTurn(h, order) {
      forall i, j | 0 <= i < j < |order| ensures !Precedes(h, order[j], order[i]) {
        NotEarlier(order, i, j);
        assert Ready(h, Elems(order[..i]), order[i]);
      }
    }
  }

  lemma PredecessorEarlier<V>(h: History<V>, order: seq<int>, i: int, a: int)
    requires h.Valid() && InRange(order, h.Size()) && RealTime(h, order)
    requires 0 <= i < |order| && a in order && 0 <= a < h.Size() && Precedes(h, a, order[i])
    ensures a in Elems(order[..i])
  {
    var j :| 0 <= j < |order| && order[j] == a;
    assert j < i;
    assert order[..i][j] == a;
  }

  lemma NotEarlier(order: seq<int>, i: int, j: int)
    requires Distinct(order) && 0 <= i <= j < |order|
    ensures order[j] !in Elems(order[..i])
  {
    assert forall k :: 0 <= k < i ==> order[..i][k] != order[j];
  }

  /** As many distinct ids as there are operations are all of them. */
  lemma AllElems(order: seq<int>, n: nat)
    requires InRange(order, n) && Distinct(order) && |order| == n
    ensures Elems(order) == Below(n)
  {
    ElemsSize(order);
    SubsetSame(Elems(order), Below(n));
  }

  /** Only which operation precedes which matters, not the times. */
  lemma SamePrecedence<S, V>(m: Model<S, V>, h: History<V>, g: History<V>)
    requires h.Valid() && g.Valid() && h.input == g.input && h.output == g.output
    requires forall a, b :: 0 <= a < h.Size() && 0 <= b < h.Size() ==> (Precedes(h, a, b) <==> Precedes(g, a, b))
    ensures Linearizable(m, h) <==> Linearizable(m, g)
  {
    forall order | InRange(order, h.Size()) ensures Linearization(m, h, order) <==> Linearization(m, g, order) {
      SameReplay(m, h, g, m.init, order);
    }
    if Linearizable(m, h) {
      var order :| Linearization(m, h, order);
      assert Linearization(m, g, order);
    }
    if Linearizable(m, g) {
      var order :| Linearization(m, g, order);
      assert Linearization(m, h, order);
    }
  }

  lemma {:induction false} SameReplay<S, V>(m: Model<S, V>, h: History<V>, g: History<V>, st: S, order: seq<int>)
    requires h.Valid() && g.Valid() && h.input == g.input && h.output == g.output && InRange(order, h.Size())
    ensures Replay(m, h, st, order) == Replay(m, g, st, order)
    decreases |order|
  {
    if |order| > 0 {
      var (ok, st') := m.step(st, h.input[order[0]], h.output[order[0]]);
      SameReplay(m, h, g, st', order[1..]);
    }
  }
}
