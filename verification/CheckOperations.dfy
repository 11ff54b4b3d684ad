/**
 From a recorded key/value history to a verdict: makeEntries, checkParallel and checkOperations
 (src/porcupine/checker.go).
 */
module CheckOperations {
  import opened Sets
  import opened Options
  import opened Linearizability
  import opened HistoryEntries
  import opened SearchSpace
  import opened Checker
  import opened SearchLoop
  import opened KvLocality
  import opened KvPartition

  // ---- makeEntries

  lemma InsertedEntry<V>(entries: seq<Entry<V>>, perm: seq<int>, sorted: seq<Entry<V>>, k: int, i: int)
    requires 0 <= k < |entries| && Rearranges(perm, entries[..k], sorted) && SortedByTime(sorted) && 0 <= i <= k
    requires (forall j :: 0 <= j < i ==> !Less(entries[k], sorted[j])) && (i < k ==> Less(entries[k], sorted[i]))
    ensures var sorted' := sorted[..i] + [entries[k]] + sorted[i..];
            Rearranges(perm[..i] + [k] + perm[i..], entries[..k + 1], sorted') && SortedByTime(sorted')
  {
    InsertedPlace(entries, perm, sorted, k, i);
    InsertedTime(sorted, entries[k], i);
  }

  lemma InsertedPlace<V>(entries: seq<Entry<V>>, perm: seq<int>, sorted: seq<Entry<V>>, k: int, i: int)
    requires 0 <= k < |entries| && Rearranges(perm, entries[..k], sorted) && 0 <= i <= k
    ensures Rearranges(perm[..i] + [k] + perm[i..], entries[..k + 1], sorted[..i] + [entries[k]] + sorted[i..])
  {
    var sorted', perm' := sorted[..i] + [entries[k]] + sorted[i..], perm[..i] + [k] + perm[i..];
    forall a | 0 <= a <= k ensures sorted'[a] == entries[..k + 1][perm'[a]] {}
  }

  lemma InsertedTime<V>(sorted: seq<Entry<V>>, e: Entry<V>, i: int)
    requires SortedByTime(sorted) && 0 <= i <= |sorted|
    requires (forall j :: 0 <= j < i ==> !Less(e, sorted[j])) && (i < |sorted| ==> Less(e, sorted[i]))
    ensures SortedByTime(sorted[..i] + [e] + sorted[i..])
  {
    forall j | i <= j < |sorted| ensures !Less(sorted[j], e) {
      assert !Less(sorted[j], sorted[i]) || j == i;
    }
    hide Less;
  }

  /** Stands for sort.Sort(byTime); the results below hold for every way of breaking ties. */
  method SortEntries<V>(entries: seq<Entry<V>>) returns (sorted: seq<Entry<V>>, ghost perm: seq<int>)
    ensures Rearranges(perm, entries, sorted) && SortedByTime(sorted)
  {
    sorted, perm := [], [];
    for k := 0 to |entries|
      invariant Rearranges(perm, entries[..k], sorted) && SortedByTime(sorted)
    {
      var i := 0;
      while i < |sorted| && !Less(entries[k], sorted[i])
        invariant 0 <= i <= |sorted| && forall j :: 0 <= j < i ==> !Less(entries[k], sorted[j])
      {
        i := i + 1;
      }
      InsertedEntry(entries, perm, sorted, k, i);
      sorted, perm := sorted[..i] + [entries[k]] + sorted[i..], perm[..i] + [k] + perm[i..];
    }
    assert entries[..|entries|] == entries;
  }

  /** The entries of a history lay it out in time, and nothing is lost about what precedes what. */
  method MakeEntries<S(!new), V>(ghost m: Model<S, V>, ops: seq<Operation<V>>)
    returns (entries: seq<Entry<V>>, ghost h: History<V>)
    requires Timely(ops)
    ensures Recorded(ops).Valid() && LaidOut(entries, h) && (Linearizable(m, h) <==> Linearizable(m, Recorded(ops)))
    ensures SortedByTime(entries) && |entries| == 2 * |ops|
    ensures forall x :: 0 <= x < |ops| ==> CallOf(ops, x) in entries && ReturnOf(ops, x) in entries
  {
    var collected := CollectEntries(ops);
    ghost var perm;
    entries, perm := SortEntries(collected);
    h := Positions(ops, perm);
    SortedEntriesFaithful(m, ops, collected, perm, entries);
    forall x | 0 <= x < |ops| ensures CallOf(ops, x) in entries && ReturnOf(ops, x) in entries {
      PositionOf(ops, collected, perm, entries, x);
    }
  }

  // ---- checkParallel

  datatype CheckResult = Ok | Illegal | Unknown

  /** For each partition, its entries and the partial linearizations found. */
  datatype Info<V> = Info(history: seq<seq<Entry<V>>>, partials: seq<seq<seq<int>>>)

  /** Whatever order results arrive in and whenever the timer fires, a verdict other than Unknown is right. */
  ghost predicate VerdictRight<S, V>(m: Model<S, V>, hs: seq<History<V>>, timeout: nat -> bool, result: CheckResult)
    requires forall i :: 0 <= i < |hs| ==> hs[i].Valid()
  {
    match result
    case Ok => (forall i :: 0 <= i < |hs| ==> Linearizable(m, hs[i])) && forall t: nat :: t < |hs| ==> !timeout(t)
    case Illegal => exists i :: 0 <= i < |hs| && !Linearizable(m, hs[i])
    case Unknown => exists t: nat :: t < |hs| && timeout(t)
  }

  ghost predicate AllPartial<S, V>(m: Model<S, V>, h: History<V>, partials: seq<seq<int>>)
    requires h.Valid()
  {
    forall k :: 0 <= k < |partials| ==> Partial(m, h, partials[k])
  }

  /** Every operation that some partial linearization holds is in one of the recorded ones that is no shorter. */
  ghost predicate Exhaustive<S, V>(m: Model<S, V>, h: History<V>, partials: seq<seq<int>>)
    requires h.Valid()
  {
    forall order :: Partial(m, h, order) ==>
                    forall x <- order :: exists k :: 0 <= k < |partials| && x in partials[k] && |order| <= |partials[k]|
  }

  /** Nothing but whole linearizations is recorded when there are any. */
  ghost predicate WholeIfAny<S, V>(m: Model<S, V>, h: History<V>, partials: seq<seq<int>>)
    requires h.Valid()
  {
    Linearizable(m, h) ==> forall k :: 0 <= k < |partials| ==> Linearization(m, h, partials[k])
  }

  /** The recorded sequences, each once. */
  method CollectPartials<S, V>(ghost m: Model<S, V>, ghost h: History<V>, longest: Longest)
    returns (partials: seq<seq<int>>)
    requires h.Valid() && PartialsOk(m, h, longest)
    ensures AllPartial(m, h, partials)
    ensures forall s :: s in partials <==> Some(s) in longest
    ensures forall i, j :: 0 <= i < j < |partials| ==> partials[i] != partials[j]
  {
    hide Partial;
    partials := [];
    for i := 0 to |longest|
      invariant AllPartial(m, h, partials)
      invariant forall s :: s in partials <==> Some(s) in longest[..i]
      invariant forall a, b :: 0 <= a < b < |partials| ==> partials[a] != partials[b]
    {
      if longest[i].Some? && longest[i].value !in partials {
        partials := partials + [longest[i].value];
      }
    }
  }

  /** What a search that ran to its end leaves. */
  ghost predicate Settled<S, V>(m: Model<S, V>, h: History<V>, computeInfo: bool, longest: Longest)
    requires h.Valid()
  {
    && PartialsOk(m, h, longest)
    && (computeInfo ==> Maximal(m, h, longest))
    && (Linearizable(m, h) ==> forall i :: 0 <= i < |longest| ==>
                                           longest[i].Some? && Linearization(m, h, longest[i].value))
  }

  lemma SettledWhole<S, V>(m: Model<S, V>, h: History<V>, longest: Longest)
    requires h.Valid() && PartialsOk(m, h, longest)
    requires forall i :: 0 <= i < |longest| ==> longest[i].Some? && Linearization(m, h, longest[i].value)
    ensures Maximal(m, h, longest)
  {
    forall order, x | Partial(m, h, order) && x in order && 0 <= x < |longest|
      ensures longest[x].Some? && |longest[x].value| >= |order|
    {
      hide Linearization, Partial;
      PartialSize(m, h, order);
      WholeSize(m, h, longest[x].value);
    }
  }

  lemma PartialSize<S, V>(m: Model<S, V>, h: History<V>, order: seq<int>)
    requires h.Valid() && Partial(m, h, order)
    ensures |order| <= h.Size()
  {
    ElemsSize(order);
    SubsetSize(Elems(order), Below(h.Size()));
  }

  lemma WholeSize<S, V>(m: Model<S, V>, h: History<V>, order: seq<int>)
    requires h.Valid() && Linearization(m, h, order)
    ensures |order| == h.Size()
  {
  }

  lemma SettledPartials<S, V>(m: Model<S, V>, h: History<V>, longest: Longest, partials: seq<seq<int>>)
    requires h.Valid() && Settled(m, h, true, longest) && forall s :: s in partials <==> Some(s) in longest
    ensures Exhaustive(m, h, partials) && WholeIfAny(m, h, partials)
  {
    hide Linearization, Linearizable;
    forall order, x | Partial(m, h, order) && x in order
      ensures exists k :: 0 <= k < |partials| && x in partials[k] && |order| <= |partials[k]|
    {
      assert 0 <= x < |longest| && longest[x].Some? && |longest[x].value| >= |order|;
      assert Some(longest[x].value) in longest && x in longest[x].value;
      var k :| 0 <= k < |partials| && partials[k] == longest[x].value;
    }
    if Linearizable(m, h) {
      forall k | 0 <= k < |partials| ensures Linearization(m, h, partials[k]) {
        assert partials[k] in partials;
        var i :| 0 <= i < |longest| && longest[i] == Some(partials[k]);
      }
    }
  }

  ghost predicate InfoOk<S, V>(m: Model<S, V>, hs: seq<History<V>>, partials: seq<seq<seq<int>>>)
    requires forall i :: 0 <= i < |hs| ==> hs[i].Valid()
  {
    |partials| == |hs| && forall i :: 0 <= i < |hs| ==> AllPartial(m, hs[i], partials[i])
  }

  ghost predicate InfoComplete<S, V>(m: Model<S, V>, hs: seq<History<V>>, partials: seq<seq<seq<int>>>)
    requires forall i :: 0 <= i < |hs| ==> hs[i].Valid()
  {
    |partials| == |hs| && forall i :: 0 <= i < |hs| ==>
                                      Exhaustive(m, hs[i], partials[i]) && WholeIfAny(m, hs[i], partials[i])
  }

  /** What the searches found, those that were stopped included. */
  method CollectAll<S(!new, ==), V>(m: Model<S, V>, history: seq<seq<Entry<V>>>, longest: map<int, Longest>,
                                    kill: (nat, nat) -> bool,
                                    ghost hs: seq<History<V>>)
    returns (partials: seq<seq<seq<int>>>)
    requires |history| == |hs| && forall i :: 0 <= i < |hs| ==> hs[i].Valid() && LaidOut(history[i], hs[i])
    requires AllSettled(m, hs, true, longest)
    ensures InfoOk(m, hs, partials)
    ensures longest.Keys == Below(|hs|) ==> InfoComplete(m, hs, partials)
  {
    hide LaidOut, Settled, AllPartial, Exhaustive, WholeIfAny, PartialsOk, Linearization, Linearizable, Maximal;
    assert forall i :: 0 <= i < |hs| ==> hs[i].Valid();
    partials := [];
    for i := 0 to |history|
      invariant |partials| == i && forall k :: 0 <= k < i ==> AllPartial(m, hs[k], partials[k])
      invariant forall k :: 0 <= k < i && k in longest ==>
                            Exhaustive(m, hs[k], partials[k]) && WholeIfAny(m, hs[k], partials[k])
    {
      var found: Longest;
      if i in longest {
        found := longest[i];
        SettledOk(m, hs[i], true, found);
      } else {
        var _, rest := CheckSingle(m, history[i], true, (t: nat) => kill(i, t), hs[i]);
        found := rest[..];
      }
      var unique := CollectPartials(m, hs[i], found);
      if i in longest { SettledPartials(m, hs[i], found, unique); }
      partials := partials + [unique];
    }
  }

  ghost predicate AllSettled<S, V>(m: Model<S, V>, hs: seq<History<V>>, computeInfo: bool, longest: map<int, Longest>)
    requires forall i :: 0 <= i < |hs| ==> hs[i].Valid()
  {
    forall i <- longest :: 0 <= i < |hs| && Settled(m, hs[i], computeInfo, longest[i])
  }

  lemma SettledOk<S, V>(m: Model<S, V>, h: History<V>, computeInfo: bool, longest: Longest)
    requires h.Valid() && Settled(m, h, computeInfo, longest)
    ensures PartialsOk(m, h, longest)
  {
  }

  /** One goroutine that is never told to stop. */
  method Search<S(!new, ==), V>(m: Model<S, V>, entries: seq<Entry<V>>, computeInfo: bool, ghost h: History<V>)
    returns (ok: bool, longest: Longest)
    requires h.Valid() && LaidOut(entries, h)
    ensures (ok <==> Linearizable(m, h)) && Settled(m, h, computeInfo, longest)
  {
    hide LaidOut, Linearizable, Linearization, Maximal, PartialsOk;
    var found;
    ok, found := CheckSingle(m, entries, computeInfo, _ => false, h);
    longest := found[..];
    if ok { SettledWhole(m, h, longest); }
  }

  /** `ok` says whether everything searched so far, `pending` being left, is linearizable. */
  ghost predicate SoFar<S, V>(m: Model<S, V>, hs: seq<History<V>>, pending: set<int>, ok: bool)
    requires forall i :: 0 <= i < |hs| ==> hs[i].Valid()
  {
    ok <==> forall i :: 0 <= i < |hs| && i !in pending ==> Linearizable(m, hs[i])
  }

  lemma SoFarNext<S, V>(m: Model<S, V>, hs: seq<History<V>>, pending: set<int>, ok: bool, i: int)
    requires (forall i :: 0 <= i < |hs| ==> hs[i].Valid()) && 0 <= i < |hs| && SoFar(m, hs, pending, ok)
    ensures SoFar(m, hs, pending - {i}, ok && Linearizable(m, hs[i]))
  {
    hide Linearizable;
  }

  /**
   The waiting loop. A result counted here comes from a search that was never
   killed: `kill` is only set when the loop ends. Which result arrives next is
   arbitrary, and `timeout` says before which one the timer fires.
   */
  method Await<S(!new, ==), V>(m: Model<S, V>, history: seq<seq<Entry<V>>>, computeInfo: bool, timeout: nat -> bool,
                               ghost hs: seq<History<V>>)
    returns (ok: bool, timedOut: bool, longest: map<int, Longest>)
    requires |history| == |hs| > 0 && forall i :: 0 <= i < |hs| ==> hs[i].Valid() && LaidOut(history[i], hs[i])
    ensures ok && !timedOut ==> forall i :: 0 <= i < |hs| ==> Linearizable(m, hs[i])
    ensures !ok ==> exists i :: 0 <= i < |hs| && !Linearizable(m, hs[i])
    ensures timedOut ==> exists t: nat :: t < |hs| && timeout(t)
    ensures !timedOut && (ok || computeInfo) ==>
              longest.Keys == Below(|hs|) && forall t: nat :: t < |hs| ==> !timeout(t)
    ensures AllSettled(m, hs, computeInfo, longest)
  {
    hide *;
    assert forall i :: 0 <= i < |hs| ==> hs[i].Valid();
    ok, timedOut, longest := true, false, map[];
    var count: nat := 0;
    var pending := Below(|history|);
    NothingYet(m, hs, computeInfo, timeout);
    while true
      invariant count < |history| == |hs| && !timedOut
                && Awaiting(m, hs, computeInfo, timeout, ok, longest, pending, count)
      decreases |history| - count
    {
      if timeout(count) {
        timedOut := true;
        break;
      }
      AwaitFacts(m, hs, computeInfo, timeout, ok, longest, pending, count);
      var i := Pick(pending);
      var result, l := Search(m, history[i], computeInfo, hs[i]);
      AwaitNext(m, hs, computeInfo, timeout, ok, longest, pending, count, i, l);
      pending, longest := pending - {i}, longest[i := l];
      count := count + 1;
      ok := ok && result;
      if !ok && !computeInfo { break; }
      if count >= |history| { break; }
    }
    AwaitFacts(m, hs, computeInfo, timeout, ok, longest, pending, count);
  }

  /** What the waiting loop keeps. */
  ghost predicate Awaiting<S, V>(m: Model<S, V>, hs: seq<History<V>>, computeInfo: bool, timeout: nat -> bool,
                                 ok: bool, longest: map<int, Longest>, pending: set<int>, count: nat)
    requires forall i :: 0 <= i < |hs| ==> hs[i].Valid()
  {
    && pending <= Below(|hs|) && |pending| + count == |hs| && longest.Keys == Below(|hs|) - pending
    && AllSettled(m, hs, computeInfo, longest)
    && SoFar(m, hs, pending, ok)
    && (forall t: nat :: t < count ==> !timeout(t))
  }

  lemma NothingYet<S, V>(m: Model<S, V>, hs: seq<History<V>>, computeInfo: bool, timeout: nat -> bool)
    requires forall i :: 0 <= i < |hs| ==> hs[i].Valid()
    ensures Awaiting(m, hs, computeInfo, timeout, true, map[], Below(|hs|), 0)
  {
  }

  lemma AwaitFacts<S, V>(m: Model<S, V>, hs: seq<History<V>>, computeInfo: bool, timeout: nat -> bool,
                         ok: bool, longest: map<int, Longest>, pending: set<int>, count: nat)
    requires (forall i :: 0 <= i < |hs| ==> hs[i].Valid())
             && Awaiting(m, hs, computeInfo, timeout, ok, longest, pending, count)
    ensures |pending| == |hs| - count && (forall i <- pending :: 0 <= i < |hs|)
            && AllSettled(m, hs, computeInfo, longest)
    ensures count == |hs| ==> longest.Keys == Below(|hs|) && forall t: nat :: t < |hs| ==> !timeout(t)
    ensures count == |hs| && ok ==> forall i :: 0 <= i < |hs| ==> Linearizable(m, hs[i])
    ensures !ok ==> exists i :: 0 <= i < |hs| && !Linearizable(m, hs[i])
  {
    hide Linearizable, AllSettled;
    if count == |hs| { assert pending == {}; }
  }

  lemma AwaitNext<S, V>(m: Model<S, V>, hs: seq<History<V>>, computeInfo: bool, timeout: nat -> bool,
                        ok: bool, longest: map<int, Longest>, pending: set<int>, count: nat, i: int, found: Longest)
    requires (forall i :: 0 <= i < |hs| ==> hs[i].Valid())
             && Awaiting(m, hs, computeInfo, timeout, ok, longest, pending, count)
    requires i in pending && 0 <= i < |hs| && Settled(m, hs[i], computeInfo, found) && !timeout(count)
    ensures Awaiting(m, hs, computeInfo, timeout, ok && Linearizable(m, hs[i]), longest[i := found], pending - {i},
                     count + 1)
  {
    hide SoFar, Settled, Linearizable;
    SoFarNext(m, hs, pending, ok, i);
  }

  /**
   `kill` says when the searches that are still running at the end notice. Without partitions the
   original waits for ever.
   */
  method CheckParallel<S(!new, ==), V>(m: Model<S, V>, history: seq<seq<Entry<V>>>, computeInfo: bool,
                                       timeout: nat -> bool,
                                       kill: (nat, nat) -> bool, ghost hs: seq<History<V>>)
    returns (result: CheckResult, info: Info<V>)
    requires |history| == |hs| > 0 && forall i :: 0 <= i < |hs| ==> hs[i].Valid() && LaidOut(history[i], hs[i])
    ensures VerdictRight(m, hs, timeout, result)
    ensures computeInfo ==> info.history == history && InfoOk(m, hs, info.partials)
    ensures computeInfo && (forall t: nat :: t < |hs| ==> !timeout(t)) ==> InfoComplete(m, hs, info.partials)
    ensures !computeInfo ==> info == Info([], [])
  {
    hide LaidOut, Linearizable, Settled, InfoOk, InfoComplete;
    assert forall i :: 0 <= i < |hs| ==> hs[i].Valid();
    var ok, timedOut, longest := Await(m, history, computeInfo, timeout, hs);
    info := Info([], []);
    if computeInfo {
      var partials := CollectAll(m, history, longest, kill, hs);
      info := Info(history, partials);
    }
    result := if !ok then Illegal else if timedOut then Unknown else Ok;
  }

  // ---- checkOperations

  /** The entries lay out these histories. */
  ghost predicate InfoFor<V>(info: Info<V>, hs: seq<History<V>>) {
    |info.history| == |hs| && forall i :: 0 <= i < |hs| ==> LaidOut(info.history[i], hs[i])
  }

  lemma InfoIsFor<V>(l: seq<seq<Entry<V>>>, hs: seq<History<V>>)
    requires |l| == |hs| && forall i :: 0 <= i < |hs| ==> LaidOut(l[i], hs[i])
    ensures forall partials :: InfoFor(Info(l, partials), hs)
  {
    hide LaidOut;
  }

  /** With the timer off, the verdict on a key/value history is exact; with it, a definite verdict is. */
  method CheckKvOperations(history: seq<KvOperation>, computeInfo: bool, timeout: nat -> bool, kill: (nat, nat) -> bool)
    returns (result: CheckResult, info: Info<KvValue>, ghost hs: seq<History<KvValue>>)
    requires Typed(history) && Timely(history) && history != []
    ensures Recorded(history).Valid()
    ensures result == Ok ==> Linearizable(STORE_MODEL, Recorded(history))
    ensures result == Illegal ==> !Linearizable(STORE_MODEL, Recorded(history))
    ensures result == Unknown ==> exists t :: timeout(t)
    ensures forall i :: 0 <= i < |hs| ==> hs[i].Valid()
    ensures computeInfo ==> InfoFor(info, hs) && InfoOk(KEY_MODEL, hs, info.partials)
    ensures computeInfo && (forall t :: !timeout(t)) ==> InfoComplete(KEY_MODEL, hs, info.partials)
  {
    hide *;
    var partitions, keys := Partition(history);
    PartitionExact(history, partitions, keys);
    SomeKey(history, keys);
    var l: seq<seq<Entry<KvValue>>> := [];
    hs := [];
    for i := 0 to |partitions|
      invariant |l| == |hs| == i
      invariant forall k :: 0 <= k < i ==> hs[k].Valid() && LaidOut(l[k], hs[k])
      invariant forall k :: 0 <= k < i ==> (Linearizable(KEY_MODEL, hs[k]) <==>
                                            Linearizable(KEY_MODEL, Recorded(partitions[k])))
    {
      var entries, h := MakeEntries(KEY_MODEL, partitions[i]);
      LaidOutFacts(entries, h);
      l, hs := l + [entries], hs + [h];
    }
    result, info := CheckParallel(KEY_MODEL, l, computeInfo, timeout, kill, hs);
    InfoIsFor(l, hs);
    VerdictMeans(KEY_MODEL, hs, timeout, result);
  }

  lemma SomeKey(history: seq<KvOperation>, keys: seq<string>)
    requires Typed(history) && history != [] && forall k :: k in keys <==> HasKey(history, k)
    ensures keys != []
  {
    assert HasKey(history, history[0].input.key);
  }

  lemma VerdictMeans<S, V>(m: Model<S, V>, hs: seq<History<V>>, timeout: nat -> bool, result: CheckResult)
    requires (forall i :: 0 <= i < |hs| ==> hs[i].Valid()) && VerdictRight(m, hs, timeout, result)
    ensures result == Ok ==> forall i :: 0 <= i < |hs| ==> Linearizable(m, hs[i])
    ensures result == Illegal ==> exists i :: 0 <= i < |hs| && !Linearizable(m, hs[i])
    ensures result == Unknown ==> exists t :: timeout(t)
  {
  }
}
