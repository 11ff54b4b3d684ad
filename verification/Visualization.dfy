/** What the checker found, as computeVisualizationData prepares it for the browser (src/porcupine/visualization.go). */
module Visualization {
  import opened Options
  import opened Linearizability
  import opened HistoryEntries
  import opened SearchSpace
  import opened SearchLoop
  import opened KvLocality
  import opened KvPartition
  import opened CheckOperations

  datatype HistoryElement = HistoryElement(clientId: int, start: int, end: int, description: string)

  /** How a model's states and operations read. */
  datatype Describer<!S, !V> = Describer(state: S -> string, operation: (V, V) -> string)

  datatype PartitionData = PartitionData(history: seq<HistoryElement>, linearizations: seq<seq<(int, string)>>,
                                         largest: map<int, nat>)

  /** Operation `x`, as its two entries give it. */
  ghost predicate Element<V>(entries: seq<Entry<V>>, h: History<V>, describe: (V, V) -> string, x: int,
                             e: HistoryElement)
    requires LaidOut(entries, h) && 0 <= x < h.Size()
  {
    e == HistoryElement(entries[h.call[x]].clientId, entries[h.call[x]].time, entries[h.ret[x]].time,
                        describe(h.input[x], h.output[x]))
  }

  ghost predicate Valued<V>(h: History<V>, callValue: map<int, V>, returnValue: map<int, V>)
    requires h.Valid()
  {
    forall x :: 0 <= x < h.Size() ==> x in callValue && callValue[x] == h.input[x] && x in returnValue
                                      && returnValue[x] == h.output[x]
  }

  /** The first `k` entries have been read. */
  ghost predicate ReadTo<V>(entries: seq<Entry<V>>, h: History<V>, describe: (V, V) -> string, k: int,
                            history: seq<HistoryElement>, callValue: map<int, V>, returnValue: map<int, V>)
    requires LaidOut(entries, h)
  {
    && |history| == h.Size()
    && (forall x :: 0 <= x < h.Size() && h.call[x] < k ==> CallRead(entries, h, x, history[x], callValue))
    && (forall x :: 0 <= x < h.Size() && h.ret[x] < k ==> ReturnRead(entries, h, describe, x, history[x], returnValue))
  }

  ghost predicate CallRead<V>(entries: seq<Entry<V>>, h: History<V>, x: int, e: HistoryElement, callValue: map<int, V>)
    requires LaidOut(entries, h) && 0 <= x < h.Size()
  {
    && x in callValue && callValue[x] == h.input[x]
    && e.clientId == entries[h.call[x]].clientId && e.start == entries[h.call[x]].time
  }

  ghost predicate ReturnRead<V>(entries: seq<Entry<V>>, h: History<V>, describe: (V, V) -> string, x: int,
                                e: HistoryElement, returnValue: map<int, V>)
    requires LaidOut(entries, h) && 0 <= x < h.Size()
  {
    && x in returnValue && returnValue[x] == h.output[x]
    && e.end == entries[h.ret[x]].time && e.description == describe(h.input[x], h.output[x])
  }

  lemma ReadCall<V>(entries: seq<Entry<V>>, h: History<V>, describe: (V, V) -> string, k: int,
                    history: seq<HistoryElement>, callValue: map<int, V>, returnValue: map<int, V>)
    requires LaidOut(entries, h) && 0 <= k < |entries| && entries[k].kind == CallEntry
    requires ReadTo(entries, h, describe, k, history, callValue, returnValue)
    ensures var e := entries[k];
            && 0 <= e.id < h.Size()
            && ReadTo(entries, h, describe, k + 1,
                      history[e.id := history[e.id].(clientId := e.clientId, start := e.time)],
                      callValue[e.id := e.value], returnValue)
  {
  }

  lemma ReadReturn<V>(entries: seq<Entry<V>>, h: History<V>, describe: (V, V) -> string, k: int,
                      history: seq<HistoryElement>, callValue: map<int, V>, returnValue: map<int, V>)
    requires LaidOut(entries, h) && 0 <= k < |entries| && entries[k].kind == ReturnEntry
    requires ReadTo(entries, h, describe, k, history, callValue, returnValue)
    ensures var e := entries[k];
            && 0 <= e.id < h.Size() && e.id in callValue
            && ReadTo(entries, h, describe, k + 1,
                      history[e.id := history[e.id].(end := e.time, description := describe(callValue[e.id], e.value))],
                      callValue, returnValue[e.id := e.value])
  {
    var x := entries[k].id;
    assert h.call[x] < k && CallRead(entries, h, x, history[x], callValue);
  }

  lemma ReadAll<V>(entries: seq<Entry<V>>, h: History<V>, describe: (V, V) -> string,
                   history: seq<HistoryElement>, callValue: map<int, V>, returnValue: map<int, V>)
    requires LaidOut(entries, h) && ReadTo(entries, h, describe, |entries|, history, callValue, returnValue)
    ensures |history| == h.Size() && forall x :: 0 <= x < h.Size() ==> Element(entries, h, describe, x, history[x])
    ensures Valued(h, callValue, returnValue)
  {
    forall x | 0 <= x < h.Size()
      ensures Element(entries, h, describe, x, history[x])
      ensures x in callValue && callValue[x] == h.input[x] && x in returnValue && returnValue[x] == h.output[x]
    {
      assert CallRead(entries, h, x, history[x], callValue)
             && ReturnRead(entries, h, describe, x, history[x], returnValue);
    }
  }

  /** The operations, and their call and return values. */
  method CollectValues<V>(entries: seq<Entry<V>>, describe: (V, V) -> string, ghost h: History<V>)
    returns (history: seq<HistoryElement>, callValue: map<int, V>, returnValue: map<int, V>)
    requires LaidOut(entries, h)
    ensures |history| == h.Size() && forall x :: 0 <= x < h.Size() ==> Element(entries, h, describe, x, history[x])
    ensures Valued(h, callValue, returnValue)
  {
    history := seq(|entries| / 2, _ => HistoryElement(0, 0, 0, ""));
    callValue, returnValue := map[], map[];
    assert ReadTo(entries, h, describe, 0, history, callValue, returnValue);
    for k := 0 to |entries|
      invariant ReadTo(entries, h, describe, k, history, callValue, returnValue)
    {
      hide *;
      var elem := entries[k];
      match elem.kind
      case CallEntry =>
        ReadCall(entries, h, describe, k, history, callValue, returnValue);
        ReadSize(entries, h, describe, k, history, callValue, returnValue);
        history := history[elem.id := history[elem.id].(clientId := elem.clientId, start := elem.time)];
        callValue := callValue[elem.id := elem.value];
      case ReturnEntry =>
        ReadReturn(entries, h, describe, k, history, callValue, returnValue);
        ReadSize(entries, h, describe, k, history, callValue, returnValue);
        history := history[elem.id := history[elem.id].(end := elem.time,
                                                        description := describe(callValue[elem.id], elem.value))];
        returnValue := returnValue[elem.id := elem.value];
    }
    ReadAll(entries, h, describe, history, callValue, returnValue);
  }

  lemma ReadSize<V>(entries: seq<Entry<V>>, h: History<V>, describe: (V, V) -> string, k: int,
                    history: seq<HistoryElement>, callValue: map<int, V>, returnValue: map<int, V>)
    requires LaidOut(entries, h) && ReadTo(entries, h, describe, k, history, callValue, returnValue)
    ensures |history| == h.Size()
  {
  }

  /** Step `j` shows the `j`th operation and the state the model is in after it. */
  ghost predicate StepShown<S, V>(m: Model<S, V>, describe: S -> string, h: History<V>, partial: seq<int>, j: int,
                                  step: (int, string))
    requires h.Valid() && 0 <= j < |partial|
  {
    && step.0 == partial[j] && InRange(partial[..j + 1], h.Size())
    && Replay(m, h, m.init, partial[..j + 1]).Some? && step.1 == describe(Replay(m, h, m.init, partial[..j + 1]).value)
  }

  ghost predicate Shows<S, V>(m: Model<S, V>, describe: S -> string, h: History<V>, partial: seq<int>,
                              steps: seq<(int, string)>)
    requires h.Valid()
  {
    |steps| == |partial| && forall j :: 0 <= j < |steps| ==> StepShown(m, describe, h, partial, j, steps[j])
  }

  /** One recorded sequence, with the state after each of its operations. */
  method ReplaySteps<S, V>(m: Model<S, V>, describe: S -> string, ghost h: History<V>, callValue: map<int, V>,
                           returnValue: map<int, V>, partial: seq<int>)
    returns (steps: seq<(int, string)>)
    requires h.Valid() && Partial(m, h, partial) && Valued(h, callValue, returnValue)
    ensures Shows(m, describe, h, partial, steps)
  {
    hide Shows, Replay;
    steps := [];
    var state := m.init;
    NothingShown(m, describe, h, partial);
    for j := 0 to |partial|
      invariant ShownTo(m, describe, h, partial, steps, state, j)
    {
      ShownRange(m, describe, h, partial, steps, state, j);
      var histId := partial[j];
      var (ok, state') := m.step(state, callValue[histId], returnValue[histId]);
      ShowNext(m, describe, h, partial, steps, state, j);
      // where the original panics
      assert ok;
      state := state';
      steps := steps + [(histId, describe(state))];
    }
    ShownAll(m, describe, h, partial, steps, state);
  }

  /** The first `j` operations of a sequence have been shown. */
  ghost predicate ShownTo<S, V>(m: Model<S, V>, describe: S -> string, h: History<V>, partial: seq<int>,
                                steps: seq<(int, string)>, state: S, j: int)
    requires h.Valid()
  {
    && 0 <= j <= |partial| && InRange(partial, h.Size())
    && Shows(m, describe, h, partial[..j], steps) && InRange(partial[..j], h.Size())
       && Replay(m, h, m.init, partial[..j]) == Some(state)
  }

  lemma NothingShown<S, V>(m: Model<S, V>, describe: S -> string, h: History<V>, partial: seq<int>)
    requires h.Valid() && Partial(m, h, partial)
    ensures ShownTo(m, describe, h, partial, [], m.init, 0)
  {
  }

  lemma ShownRange<S, V>(m: Model<S, V>, describe: S -> string, h: History<V>, partial: seq<int>,
                         steps: seq<(int, string)>, state: S, j: int)
    requires h.Valid() && ShownTo(m, describe, h, partial, steps, state, j) && j < |partial|
    ensures 0 <= partial[j] < h.Size()
  {
  }

  lemma ShowNext<S, V>(m: Model<S, V>, describe: S -> string, h: History<V>, partial: seq<int>,
                       steps: seq<(int, string)>, state: S, j: int)
    requires h.Valid() && Partial(m, h, partial) && ShownTo(m, describe, h, partial, steps, state, j) && j < |partial|
    ensures var (ok, state') := m.step(state, h.input[partial[j]], h.output[partial[j]]);
            ok && ShownTo(m, describe, h, partial, steps + [(partial[j], describe(state'))], state', j + 1)
  {
    NextAccepted(m, h, partial, j);
    hide Replay, Partial;
    var (ok, state') := m.step(state, h.input[partial[j]], h.output[partial[j]]);
    var steps', front := steps + [(partial[j], describe(state'))], partial[..j + 1];
    forall k | 0 <= k < |steps'|
      ensures StepShown(m, describe, h, front, k, steps'[k])
    {
      if k < j {
        assert front[..k + 1] == partial[..j][..k + 1];
      } else {
        assert front[..k + 1] == front;
      }
    }
  }

  lemma ShownAll<S, V>(m: Model<S, V>, describe: S -> string, h: History<V>, partial: seq<int>,
                       steps: seq<(int, string)>, state: S)
    requires h.Valid() && ShownTo(m, describe, h, partial, steps, state, |partial|)
    ensures Shows(m, describe, h, partial, steps)
  {
    assert partial[..|partial|] == partial;
  }

  lemma NextAccepted<S, V>(m: Model<S, V>, h: History<V>, partial: seq<int>, j: int)
    requires h.Valid() && Partial(m, h, partial) && 0 <= j < |partial| && Replay(m, h, m.init, partial[..j]).Some?
    ensures var (ok, st') := m.step(Replay(m, h, m.init, partial[..j]).value, h.input[partial[j]],
                                    h.output[partial[j]]);
            ok && Replay(m, h, m.init, partial[..j + 1]) == Some(st')
  {
    assert partial[..j + 1] == partial[..j] + [partial[j]];
    ReplaySnoc(m, h, m.init, partial[..j], partial[j]);
    PrefixReplays(m, h, partial, j + 1);
  }

  lemma {:induction false} PrefixReplays<S, V>(m: Model<S, V>, h: History<V>, order: seq<int>, k: int)
    requires h.Valid() && InRange(order, h.Size()) && Replay(m, h, m.init, order).Some? && 0 <= k <= |order|
    ensures InRange(order[..k], h.Size()) && Replay(m, h, m.init, order[..k]).Some?
    decreases |order| - k
  {
    if k == |order| {
      assert order[..k] == order;
    } else {
      PrefixReplays(m, h, order, k + 1);
      assert order[..k + 1] == order[..k] + [order[k]];
      ReplayFront(m, h, m.init, order[..k], order[k]);
    }
  }

  /** `largest` names a sequence holding `x` of at least this length. */
  ghost predicate Reaches(partials: seq<seq<int>>, largest: map<int, nat>, x: int, len: nat) {
    x in largest && largest[x] < |partials| && x in partials[largest[x]] && len <= |partials[largest[x]]|
  }

  /**
   Among the first `n` sequences, `largest` names for each operation on record one that none other
   holding it exceeds.
   */
  ghost predicate LargestOk(partials: seq<seq<int>>, largest: map<int, nat>, n: nat) {
    && n <= |partials|
    && (forall x <- largest :: largest[x] < n && Reaches(partials, largest, x, 0))
    && (forall i, x :: 0 <= i < n && x in partials[i] ==> Reaches(partials, largest, x, |partials[i]|))
  }

  /** Longest first. */
  ghost predicate ByLength(partials: seq<seq<int>>) {
    forall i, j :: 0 <= i < j < |partials| ==> |partials[i]| >= |partials[j]|
  }

  /** Stands for sort.Slice: equal lengths may come in any order. */
  method SortByLength(partials: seq<seq<int>>) returns (sorted: seq<seq<int>>)
    ensures ByLength(sorted) && multiset(sorted) == multiset(partials)
  {
    sorted := [];
    for k := 0 to |partials|
      invariant ByLength(sorted) && multiset(sorted) == multiset(partials[..k])
    {
      var i := 0;
      while i < |sorted| && |sorted[i]| >= |partials[k]|
        invariant 0 <= i <= |sorted| && forall j :: 0 <= j < i ==> |sorted[j]| >= |partials[k]|
      {
        i := i + 1;
      }
      Inserted(sorted, i, partials[k]);
      assert partials[..k + 1] == partials[..k] + [partials[k]];
      sorted := sorted[..i] + [partials[k]] + sorted[i..];
    }
    assert partials[..|partials|] == partials;
  }

  lemma Inserted(sorted: seq<seq<int>>, i: int, x: seq<int>)
    requires ByLength(sorted) && 0 <= i <= |sorted| && (forall j :: 0 <= j < i ==> |sorted[j]| >= |x|)
    requires i < |sorted| ==> |x| > |sorted[i]|
    ensures ByLength(sorted[..i] + [x] + sorted[i..])
    ensures multiset(sorted[..i] + [x] + sorted[i..]) == multiset(sorted) + multiset{x}
  {
    assert sorted == sorted[..i] + sorted[i..];
  }

  /**
   One partition: its history, its partial linearizations longest first, and for each operation the
   largest that holds it.
   */
  ghost predicate Pictures<S, V>(m: Model<S, V>, d: Describer<S, V>, entries: seq<Entry<V>>, h: History<V>,
                                 partials: seq<seq<int>>, data: PartitionData)
    requires LaidOut(entries, h)
  {
    && |data.history| == h.Size()
    && (forall x :: 0 <= x < h.Size() ==> Element(entries, h, d.operation, x, data.history[x]))
    && exists sorted :: Drawn(m, d, h, partials, sorted, data)
  }

  ghost predicate Drawn<S, V>(m: Model<S, V>, d: Describer<S, V>, h: History<V>, partials: seq<seq<int>>,
                              sorted: seq<seq<int>>, data: PartitionData)
    requires h.Valid()
  {
    && ByLength(sorted) && multiset(sorted) == multiset(partials)
    && |data.linearizations| == |sorted| && LargestOk(sorted, data.largest, |sorted|)
    && forall i :: 0 <= i < |sorted| ==> Shows(m, d.state, h, sorted[i], data.linearizations[i])
  }

  method ComputePartition<S, V>(m: Model<S, V>, d: Describer<S, V>, entries: seq<Entry<V>>, partials: seq<seq<int>>,
                                ghost h: History<V>)
    returns (data: PartitionData)
    requires LaidOut(entries, h) && AllPartial(m, h, partials)
    ensures Pictures(m, d, entries, h, partials, data)
  {
    hide Partial, LaidOut, Shows, LargestOk, SizesOk, Element, Valued;
    LaidOutFacts(entries, h);
    var history, callValue, returnValue := CollectValues(entries, d.operation, h);
    var sorted := SortByLength(partials);
    StillPartial(m, h, partials, sorted);
    NothingLargest(sorted);
    var linearizations: seq<seq<(int, string)>>, largestIndex: map<int, nat>, largestSize: map<int, nat> := [], map[],
      map[];
    for i := 0 to |sorted|
      invariant |linearizations| == i && forall k :: 0 <= k < i ==> Shows(m, d.state, h, sorted[k], linearizations[k])
      invariant LargestOk(sorted, largestIndex, i) && SizesOk(sorted, largestIndex, largestSize)
    {
      var steps := ReplaySteps(m, d.state, h, callValue, returnValue, sorted[i]);
      linearizations := linearizations + [steps];
      largestIndex, largestSize := Enlarge(sorted, i, largestIndex, largestSize);
    }
    data := PartitionData(history, linearizations, largestIndex);
    assert Drawn(m, d, h, partials, sorted, data);
  }

  lemma StillPartial<S, V>(m: Model<S, V>, h: History<V>, partials: seq<seq<int>>, sorted: seq<seq<int>>)
    requires h.Valid() && AllPartial(m, h, partials) && multiset(sorted) == multiset(partials)
    ensures AllPartial(m, h, sorted)
  {
    hide Partial;
    forall k | 0 <= k < |sorted| ensures Partial(m, h, sorted[k]) {
      assert sorted[k] in multiset(sorted);
      assert sorted[k] in multiset(partials);
      assert sorted[k] in partials;
    }
  }

  /** Every partition of a check that recorded its partial linearizations; the panic of ReplaySteps is never reached. */
  method ComputeVisualizationData<S, V>(m: Model<S, V>, d: Describer<S, V>, info: Info<V>, ghost hs: seq<History<V>>)
    returns (data: seq<PartitionData>)
    requires InfoFor(info, hs) && (forall i :: 0 <= i < |hs| ==> hs[i].Valid()) && InfoOk(m, hs, info.partials)
    ensures |data| == |hs| && forall i :: 0 <= i < |hs| ==>
                                          Pictures(m, d, info.history[i], hs[i], info.partials[i], data[i])
  {
    hide Pictures, LaidOut, AllPartial;
    assert forall i :: 0 <= i < |hs| ==> hs[i].Valid();
    data := [];
    for i := 0 to |info.history|
      invariant |data| == i && forall k :: 0 <= k < i ==>
                                           Pictures(m, d, info.history[k], hs[k], info.partials[k], data[k])
    {
      var partition := ComputePartition(m, d, info.history[i], info.partials[i], hs[i]);
      data := data + [partition];
    }
  }

  /** The check at the end of a test run: a history found illegal is drawn, and the drawing always succeeds. */
  method CheckAndDraw(history: seq<KvOperation>, d: Describer<string, KvValue>, timeout: nat -> bool,
                      kill: (nat, nat) -> bool)
    returns (result: CheckResult, data: seq<PartitionData>, ghost info: Info<KvValue>, ghost hs: seq<History<KvValue>>)
    requires Typed(history) && Timely(history) && history != []
    ensures Recorded(history).Valid()
    ensures result == Ok ==> Linearizable(STORE_MODEL, Recorded(history))
    ensures result == Illegal ==> !Linearizable(STORE_MODEL, Recorded(history))
    ensures InfoFor(info, hs) && forall i :: 0 <= i < |hs| ==> hs[i].Valid()
    ensures InfoOk(KEY_MODEL, hs, info.partials)
            && ((forall t :: !timeout(t)) ==> InfoComplete(KEY_MODEL, hs, info.partials))
    ensures if result == Illegal then |data| == |hs| && forall i :: 0 <= i < |hs| ==>
              Pictures(KEY_MODEL, d, info.history[i], hs[i], info.partials[i], data[i])
            else data == []
  {
    hide *;
    var found;
    result, found, hs := CheckKvOperations(history, true, timeout, kill);
    info, data := found, [];
    if result == Illegal {
      data := ComputeVisualizationData(KEY_MODEL, d, found, hs);
    }
  }

  lemma NothingLargest(partials: seq<seq<int>>)
    ensures LargestOk(partials, map[], 0) && SizesOk(partials, map[], map[])
  {
  }

  ghost predicate SizesOk(partials: seq<seq<int>>, largest: map<int, nat>, sizes: map<int, nat>) {
    sizes.Keys == largest.Keys && forall x <- sizes :: largest[x] < |partials| && sizes[x] == |partials[largest[x]]|
  }

  /** The inner loop's bookkeeping for one sequence. */
  method Enlarge(partials: seq<seq<int>>, i: nat, largest: map<int, nat>, sizes: map<int, nat>)
    returns (largest': map<int, nat>, sizes': map<int, nat>)
    requires i < |partials| && LargestOk(partials, largest, i) && SizesOk(partials, largest, sizes)
    ensures LargestOk(partials, largest', i + 1) && SizesOk(partials, largest', sizes')
  {
    hide Reaches;
    largest', sizes' := largest, sizes;
    var partial := partials[i];
    for j := 0 to |partial|
      invariant SizesOk(partials, largest', sizes')
      invariant forall x <- largest' :: largest'[x] <= i && Reaches(partials, largest', x, 0)
      invariant forall x, len :: Reaches(partials, largest, x, len) ==> Reaches(partials, largest', x, len)
      invariant forall x <- partial[..j] :: Reaches(partials, largest', x, |partial|)
    {
      var histId := partial[j];
      var size := if histId in sizes' then sizes'[histId] else 0;
      if size < |partial| {
        EnlargeOne(partials, i, largest', sizes', histId);
        sizes' := sizes'[histId := |partial|];
        largest' := largest'[histId := i];
      } else {
        LargeEnough(partials, i, largest', sizes', histId);
      }
    }
  }

  lemma EnlargeOne(partials: seq<seq<int>>, i: nat, largest: map<int, nat>, sizes: map<int, nat>, x: int)
    requires i < |partials| && x in partials[i] && SizesOk(partials, largest, sizes)
    requires forall y <- largest :: largest[y] <= i && Reaches(partials, largest, y, 0)
    requires x in sizes ==> sizes[x] < |partials[i]|
    ensures var largest', sizes' := largest[x := i], sizes[x := |partials[i]|];
            && SizesOk(partials, largest', sizes')
            && (forall y <- largest' :: largest'[y] <= i && Reaches(partials, largest', y, 0))
            && (forall y, len :: Reaches(partials, largest, y, len) ==> Reaches(partials, largest', y, len))
            && Reaches(partials, largest', x, |partials[i]|)
  {
  }

  lemma LargeEnough(partials: seq<seq<int>>, i: nat, largest: map<int, nat>, sizes: map<int, nat>, x: int)
    requires i < |partials| && x in partials[i] && SizesOk(partials, largest, sizes)
    requires forall y <- largest :: largest[y] <= i && Reaches(partials, largest, y, 0)
    requires x in sizes && sizes[x] >= |partials[i]|
    ensures Reaches(partials, largest, x, |partials[i]|)
  {
    assert Reaches(partials, largest, x, 0);
  }
}
