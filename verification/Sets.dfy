/** Small facts about finite sets, maps and lists. */
module Sets {

  /** The numbers from 0 up to, not including, `n`. */
  function Below(n: nat): (r: set<int>)
    ensures |r| == n
    ensures forall k :: k in r <==> 0 <= k < n
  {
    if n == 0 then {} else {n - 1} + Below(n - 1)
  }

  lemma {:induction false} SubsetSize<T>(a: set<T>, b: set<T>)
    requires a <= b
    ensures |a| <= |b|
  {
    if a != {} {
      var x :| x in a;
      SubsetSize(a - {x}, b - {x});
    }
  }

  lemma {:induction false} SubsetSame<T>(a: set<T>, b: set<T>)
    requires a <= b && |a| >= |b|
    ensures a == b
  {
    if a != {} {
      var x :| x in a;
      SubsetSame(a - {x}, b - {x});
    }
  }

  lemma SomeElement<T>(a: set<T>) returns (x: T)
    requires |a| > 0
    ensures x in a
  {
    x :| x in a;
  }

  /** Where iteration over a map goes next is up to the runtime. */
  method Pick<T(==)>(rest: set<T>) returns (x: T)
    requires |rest| > 0
    ensures x in rest
  {
    x :| x in rest;
  }

  /** The entries of a map outside `rest`. */
  ghost function Beyond<K, T>(data: map<K, T>, rest: set<K>): map<K, T> {
    map k | k in data && k !in rest :: data[k]
  }

  lemma BeyondNext<K, T>(data: map<K, T>, rest: set<K>, k: K)
    requires k in rest && k in data
    ensures Beyond(data, rest - {k}) == Beyond(data, rest)[k := data[k]] && k !in Beyond(data, rest)
  {
  }

  lemma BeyondEnds<K, T>(data: map<K, T>)
    ensures Beyond(data, data.Keys) == map[] && Beyond(data, {}) == data
  {
  }

  ghost predicate Distinct(l: seq<int>) {
    forall i, j :: 0 <= i < j < |l| ==> l[i] != l[j]
  }

  ghost function Elems(l: seq<int>): set<int> {
    set x | x in l
  }

  lemma {:induction false} ElemsSize(order: seq<int>)
    requires Distinct(order)
    ensures |Elems(order)| == |order|
  {
    if |order| == 0 {
      assert Elems(order) == {};
    } else {
      var front, x := order[..|order| - 1], order[|order| - 1];
      ElemsSize(front);
      assert Elems(order) == Elems(front) + {x} by {
        assert order == front + [x];
      }
      assert x !in Elems(front);
    }
  }
}
