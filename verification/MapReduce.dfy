/**
 The data path of the distributed MapReduce (src/mr/worker.go) and of the
 sequential program it must agree with (src/main/mrsequential.go).
 */
module MapReduce {
  import opened Strings

  datatype KeyValue = KeyValue(key: string, value: string)

  /** unicode.IsSpace. */
  predicate Space(c: char) {
    var x := c as int;
    || 9 <= x <= 13 || x == 32 || x == 0x85 || x == 0xA0 || x == 0x1680 || 0x2000 <= x <= 0x200A
    || x == 0x2028 || x == 0x2029 || x == 0x202F || x == 0x205F || x == 0x3000
  }

  /** strings.TrimSpace leaves nothing. */
  predicate AllSpace(s: string) {
    forall i :: 0 <= i < |s| ==> Space(s[i])
  }

  /** strings.Split on one character. */
  function Split(s: string, c: char): (r: seq<string>)
    ensures |r| > 0
  {
    if s == "" then [""]
    else
      var rest := Split(s[1..], c);
      if s[0] == c then [""] + rest else [[s[0]] + rest[0]] + rest[1..]
  }

  lemma {:induction false} SplitFirst(p: string, c: char, s: string)
    requires c !in p
    ensures Split(p + [c] + s, c) == [p] + Split(s, c)
  {
    if p == "" {
      assert (p + [c] + s)[1..] == s;
    } else {
      SplitFirst(p[1..], c, s);
      assert (p + [c] + s)[1..] == p[1..] + [c] + s;
      assert [p[0]] + p[1..] == p;
    }
  }

  lemma {:induction false} SplitWhole(p: string, c: char)
    requires c !in p
    ensures Split(p, c) == [p]
  {
    if p != "" {
      SplitWhole(p[1..], c);
      assert [p[0]] + p[1..] == p;
    }
  }

  lemma {:induction false} SplitMore(s: string, c: char)
    requires c in s
    ensures |Split(s, c)| > 1
  {
    if s[0] != c {
      assert c in s[1..];
      SplitMore(s[1..], c);
    }
  }

  // ---- Writing and reading back

  function Line(kv: KeyValue): string { kv.key + "\t" + kv.value }

  function Encode(kvs: seq<KeyValue>): string {
    if kvs == [] then "" else Encode(kvs[..|kvs| - 1]) + Line(kvs[|kvs| - 1]) + "\n"
  }

  function Lines(kvs: seq<KeyValue>): seq<string> {
    if kvs == [] then [] else [Line(kvs[0])] + Lines(kvs[1..])
  }

  /** What one line is read as: nothing if it is blank. */
  function ParseLine(line: string): seq<KeyValue>
    requires AllSpace(line) || '\t' in line
  {
    if AllSpace(line) then []
    else
      SplitMore(line, '\t');
      var sp := Split(line, '\t');
      [KeyValue(sp[0], sp[1])]
  }

  predicate Readable(lines: seq<string>) {
    forall i :: 0 <= i < |lines| ==> AllSpace(lines[i]) || '\t' in lines[i]
  }

  function Parse(lines: seq<string>): seq<KeyValue>
    requires Readable(lines)
  {
    if lines == [] then [] else Parse(lines[..|lines| - 1]) + ParseLine(lines[|lines| - 1])
  }

  /** No tabs or newlines. */
  predicate Plain(kv: KeyValue) {
    '\t' !in kv.key && '\n' !in kv.key && '\t' !in kv.value && '\n' !in kv.value
  }

  /** No tabs or newlines, and not blank as a whole. */
  predicate Clean(kv: KeyValue) {
    Plain(kv) && !(AllSpace(kv.key) && AllSpace(kv.value))
  }

  predicate AllPlain(kvs: seq<KeyValue>) {
    forall i :: 0 <= i < |kvs| ==> Plain(kvs[i])
  }

  predicate AllClean(kvs: seq<KeyValue>) {
    forall i :: 0 <= i < |kvs| ==> Clean(kvs[i])
  }

  /** A pair without newlines comes back from its line exactly when it is clean. */
  lemma LineRoundTrip(kv: KeyValue)
    requires '\n' !in kv.key && '\n' !in kv.value
    ensures '\t' in Line(kv)
    ensures ParseLine(Line(kv)) == [kv] <==> Clean(kv)
  {
    var line := Line(kv);
    assert line[|kv.key|] == '\t';
    LineBlank(kv);
    if '\t' !in kv.key {
      SplitFirst(kv.key, '\t', kv.value);
      assert line == kv.key + ['\t'] + kv.value;
      if '\t' !in kv.value {
        SplitWhole(kv.value, '\t');
      } else {
        SplitPieces(kv.value, '\t');
      }
    } else {
      SplitPieces(line, '\t');
    }
  }

  lemma LineBlank(kv: KeyValue)
    ensures AllSpace(Line(kv)) <==> AllSpace(kv.key) && AllSpace(kv.value)
  {
    var line := Line(kv);
    assert forall i :: 0 <= i < |kv.key| ==> line[i] == kv.key[i];
    assert forall i :: 0 <= i < |kv.value| ==> line[|kv.key| + 1 + i] == kv.value[i];
  }

  lemma {:induction false} SplitPieces(s: string, c: char)
    ensures forall i :: 0 <= i < |Split(s, c)| ==> c !in Split(s, c)[i]
  {
    if s != "" { SplitPieces(s[1..], c); }
  }

  // ---- Buckets

  /** The reduce task of a key. */
  function TaskOf(hash: string -> nat, nReduce: nat, key: string): (r: nat)
    requires nReduce > 0
    ensures r < nReduce
  {
    hash(key) % nReduce
  }

  /** The pairs of one reduce task. */
  function Bucket(kvs: seq<KeyValue>, hash: string -> nat, nReduce: nat, r: nat): seq<KeyValue>
    requires nReduce > 0
  {
    if kvs == [] then []
    else Bucket(kvs[..|kvs| - 1], hash, nReduce, r) + if TaskOf(hash, nReduce, kvs[|kvs| - 1].key) == r
         then [kvs[|kvs| - 1]] else []
  }

  lemma {:induction false} BucketConcat(a: seq<KeyValue>, b: seq<KeyValue>, hash: string -> nat, nReduce: nat, r: nat)
    requires nReduce > 0
    ensures Bucket(a + b, hash, nReduce, r) == Bucket(a, hash, nReduce, r) + Bucket(b, hash, nReduce, r)
    decreases |b|
  {
    if b == [] {
      assert a + b == a;
    } else {
      var front := b[..|b| - 1];
      assert (a + b)[..|a + b| - 1] == a + front;
      BucketConcat(a, front, hash, nReduce, r);
    }
  }

  lemma {:induction false} BucketClean(kvs: seq<KeyValue>, hash: string -> nat, nReduce: nat, r: nat)
    requires nReduce > 0 && AllClean(kvs)
    ensures AllClean(Bucket(kvs, hash, nReduce, r))
  {
    if kvs != [] { BucketClean(kvs[..|kvs| - 1], hash, nReduce, r); }
  }

  function Flatten(maps: seq<seq<KeyValue>>): seq<KeyValue> {
    if maps == [] then [] else Flatten(maps[..|maps| - 1]) + maps[|maps| - 1]
  }

  // ---- Reading a file back

  lemma {:induction false} EncodeCons(kv: KeyValue, kvs: seq<KeyValue>)
    ensures Encode([kv] + kvs) == Line(kv) + "\n" + Encode(kvs)
  {
    hide Line;
    if kvs == [] {
      EncodeLast([], kv);
    } else {
      var front, last := kvs[..|kvs| - 1], kvs[|kvs| - 1];
      EncodeCons(kv, front);
      EncodeLast([kv] + front, last);
      EncodeLast(front, last);
      assert [kv] + kvs == [kv] + front + [last] && kvs == front + [last];
    }
  }

  lemma EncodeLast(kvs: seq<KeyValue>, last: KeyValue)
    ensures Encode(kvs + [last]) == Encode(kvs) + Line(last) + "\n"
  {
    hide Line;
    assert (kvs + [last])[..|kvs|] == kvs;
  }

  lemma {:induction false} SplitEncoded(kvs: seq<KeyValue>)
    requires AllPlain(kvs)
    ensures Split(Encode(kvs), '\n') == Lines(kvs) + [""]
  {
    if kvs != [] {
      var kv, rest := kvs[0], kvs[1..];
      assert kvs == [kv] + rest;
      EncodeCons(kv, rest);
      SplitFirst(Line(kv), '\n', Encode(rest));
      assert Line(kv) + ['\n'] + Encode(rest) == Encode(kvs);
      SplitEncoded(rest);
    }
  }

  lemma {:induction false} ParseConcat(a: seq<string>, b: seq<string>)
    requires Readable(a) && Readable(b)
    ensures Readable(a + b) && Parse(a + b) == Parse(a) + Parse(b)
    decreases |b|
  {
    hide AllSpace, ParseLine;
    if b == [] {
      assert a + b == a;
    } else {
      var front, last := b[..|b| - 1], b[|b| - 1];
      ParseConcat(a, front);
      ParseSnoc(a + front, last);
      ParseSnoc(front, last);
      assert b == front + [last] && a + b == a + front + [last];
    }
  }

  lemma ParseSnoc(lines: seq<string>, last: string)
    requires Readable(lines) && (AllSpace(last) || '\t' in last)
    ensures Readable(lines + [last]) && Parse(lines + [last]) == Parse(lines) + ParseLine(last)
  {
    hide AllSpace, ParseLine;
    assert (lines + [last])[..|lines|] == lines;
  }

  lemma {:induction false} ParseLines(kvs: seq<KeyValue>)
    requires AllClean(kvs)
    ensures Readable(Lines(kvs)) && Parse(Lines(kvs)) == kvs
  {
    if kvs != [] {
      var kv, rest := kvs[0], kvs[1..];
      ParseLines(rest);
      LineRoundTrip(kv);
      assert Parse([Line(kv)]) == Parse([]) + ParseLine(Line(kv));
      ParseConcat([Line(kv)], Lines(rest));
      assert kvs == [kv] + rest;
    }
  }

  lemma {:induction false} SplitKeepsOut(s: string, c: char, d: char)
    requires d !in s
    ensures forall i :: 0 <= i < |Split(s, c)| ==> d !in Split(s, c)[i]
  {
    if s != "" { SplitKeepsOut(s[1..], c, d); }
  }

  /** Whatever was written, only plain pairs are read. */
  lemma {:induction false} ParsedPlain(lines: seq<string>)
    requires Readable(lines) && forall i :: 0 <= i < |lines| ==> '\n' !in lines[i]
    ensures AllPlain(Parse(lines))
  {
    if lines != [] {
      var front, line := lines[..|lines| - 1], lines[|lines| - 1];
      ParsedPlain(front);
      LinePlain(line);
      hide ParseLine, Plain;
    }
  }

  lemma LinePlain(line: string)
    requires (AllSpace(line) || '\t' in line) && '\n' !in line
    ensures AllPlain(ParseLine(line))
  {
    if !AllSpace(line) {
      SplitMore(line, '\t');
      SplitPieces(line, '\t');
      SplitKeepsOut(line, '\t', '\n');
      hide Split;
      var sp := Split(line, '\t');
      assert ParseLine(line) == [KeyValue(sp[0], sp[1])];
    }
  }

  /** A blank pair is lost, and nothing makes up for it. */
  lemma {:induction false} ParsedFewer(kvs: seq<KeyValue>)
    requires AllPlain(kvs)
    ensures Readable(Lines(kvs)) && |Parse(Lines(kvs))| <= |kvs| && (|Parse(Lines(kvs))| == |kvs| ==> AllClean(kvs))
  {
    if kvs != [] {
      var kv, rest := kvs[0], kvs[1..];
      ParsedFewer(rest);
      LineRoundTrip(kv);
      LineBlank(kv);
      assert Parse([Line(kv)]) == Parse([]) + ParseLine(Line(kv));
      ParseConcat([Line(kv)], Lines(rest));
      hide ParseLine, Line, Plain, AllSpace, Split;
      assert kvs == [kv] + rest;
    }
  }

  /** What was written to a file is what is read from it, exactly when every pair is clean. */
  lemma FileRoundTrip(kvs: seq<KeyValue>)
    ensures var lines := Split(Encode(kvs), '\n'); Readable(lines) && Parse(lines) == kvs <==> AllClean(kvs)
  {
    hide *;
    var lines := Split(Encode(kvs), '\n');
    if AllClean(kvs) {
      CleanIsPlain(kvs);
      SplitEncoded(kvs);
      ParseLines(kvs);
      ParseBlank();
      ParseConcat(Lines(kvs), [""]);
    } else if Readable(lines) && Parse(lines) == kvs {
      SplitPieces(Encode(kvs), '\n');
      ParsedPlain(lines);
      SplitEncoded(kvs);
      ParsedFewer(kvs);
      ParseBlank();
      ParseConcat(Lines(kvs), [""]);
    }
  }

  lemma CleanIsPlain(kvs: seq<KeyValue>)
    requires AllClean(kvs)
    ensures AllPlain(kvs)
  {
  }

  lemma ParseBlank()
    ensures Readable([""]) && Parse([""]) == []
  {
    assert Parse([""]) == Parse([]) + ParseLine("");
  }

  // ---- Reducing

  /** The values of one key, in order. */
  function Values(kvs: seq<KeyValue>, key: string): seq<string> {
    if kvs == [] then []
    else Values(kvs[..|kvs| - 1], key) + if kvs[|kvs| - 1].key == key then [kvs[|kvs| - 1].value] else []
  }

  predicate HasKey(kvs: seq<KeyValue>, key: string) {
    exists i :: 0 <= i < |kvs| && kvs[i].key == key
  }

  predicate DistinctKeys(out: seq<KeyValue>) {
    forall i, j :: 0 <= i < j < |out| ==> out[i].key != out[j].key
  }

  /** Each key once, reduced over all its values. */
  ghost predicate Reduced(kvs: seq<KeyValue>, reducef: (string, seq<string>) -> string, out: seq<KeyValue>) {
    && DistinctKeys(out)
    && (forall i :: 0 <= i < |out| ==> HasKey(kvs, out[i].key)
                                       && out[i].value == reducef(out[i].key, Values(kvs, out[i].key)))
    && (forall key :: HasKey(kvs, key) ==> HasKey(out, key))
  }

  /** The result does not depend on the order of the values. */
  ghost predicate OrderFree(reducef: (string, seq<string>) -> string) {
    forall key, vs, ws :: multiset(vs) == multiset(ws) ==> reducef(key, vs) == reducef(key, ws)
  }

  lemma {:induction false} ValuesCount(kvs: seq<KeyValue>, key: string, v: string)
    ensures multiset(Values(kvs, key))[v] == multiset(kvs)[KeyValue(key, v)]
  {
    if kvs != [] {
      var front, last := kvs[..|kvs| - 1], kvs[|kvs| - 1];
      assert kvs == front + [last];
      ValuesCount(front, key, v);
    }
  }

  lemma SameValues(a: seq<KeyValue>, b: seq<KeyValue>, key: string)
    requires multiset(a) == multiset(b)
    ensures multiset(Values(a, key)) == multiset(Values(b, key)) && (HasKey(a, key) <==> HasKey(b, key))
  {
    forall v ensures multiset(Values(a, key))[v] == multiset(Values(b, key))[v] {
      ValuesCount(a, key, v);
      ValuesCount(b, key, v);
    }
    if HasKey(a, key) { KeyMoves(a, b, key); }
    if HasKey(b, key) { KeyMoves(b, a, key); }
  }

  lemma KeyMoves(a: seq<KeyValue>, b: seq<KeyValue>, key: string)
    requires multiset(a) == multiset(b) && HasKey(a, key)
    ensures HasKey(b, key)
  {
    var i :| 0 <= i < |a| && a[i].key == key;
    assert a[i] in multiset(a);
    assert a[i] in b;
  }

  /** Rearranging the input changes nothing for an order-free reduce function. */
  lemma ReducedRearranged(a: seq<KeyValue>, b: seq<KeyValue>, reducef: (string, seq<string>) -> string,
                          out: seq<KeyValue>)
    requires multiset(a) == multiset(b) && OrderFree(reducef) && Reduced(a, reducef, out)
    ensures Reduced(b, reducef, out)
  {
    hide Values, HasKey;
    forall key ensures multiset(Values(a, key)) == multiset(Values(b, key))
                       && (HasKey(a, key) <==> HasKey(b, key)) { SameValues(a, b, key); }
  }

  /** Two outputs for the same input hold the same lines. */
  lemma ReducedUnique(kvs: seq<KeyValue>, reducef: (string, seq<string>) -> string, out: seq<KeyValue>,
                      out': seq<KeyValue>)
    requires Reduced(kvs, reducef, out) && Reduced(kvs, reducef, out')
    ensures multiset(out) == multiset(out')
  {
    forall kv ensures multiset(out)[kv] == multiset(out')[kv] {
      if kv in out { ReducedHas(kvs, reducef, out, out', kv); }
      if kv in out' { ReducedHas(kvs, reducef, out', out, kv); }
      CountOnce(out, kv);
      CountOnce(out', kv);
    }
  }

  lemma ReducedHas(kvs: seq<KeyValue>, reducef: (string, seq<string>) -> string, out: seq<KeyValue>,
                   out': seq<KeyValue>, kv: KeyValue)
    requires Reduced(kvs, reducef, out) && Reduced(kvs, reducef, out') && kv in out
    ensures kv in out'
  {
    hide Values;
    var i :| 0 <= i < |out| && out[i] == kv;
    assert HasKey(out', kv.key);
    var j :| 0 <= j < |out'| && out'[j].key == kv.key;
    assert out'[j] == kv;
  }

  lemma {:induction false} CountOnce(out: seq<KeyValue>, kv: KeyValue)
    requires DistinctKeys(out)
    ensures multiset(out)[kv] == if kv in out then 1 else 0
  {
    if out != [] {
      var front, last := out[..|out| - 1], out[|out| - 1];
      assert out == front + [last];
      CountOnce(front, kv);
    }
  }

  // ---- Sorting and grouping

  predicate SortedByKey(kvs: seq<KeyValue>) {
    forall i, j :: 0 <= i < j < |kvs| ==> !Before(kvs[j].key, kvs[i].key)
  }

  /** Stands for sort.Sort(ByKey), which may leave equal keys in any order. */
  method SortByKey(kvs: seq<KeyValue>) returns (sorted: seq<KeyValue>)
    ensures multiset(sorted) == multiset(kvs) && SortedByKey(sorted)
  {
    sorted := [];
    for k := 0 to |kvs|
      invariant multiset(sorted) == multiset(kvs[..k]) && SortedByKey(sorted)
    {
      var i := 0;
      while i < |sorted| && !Before(kvs[k].key, sorted[i].key)
        invariant 0 <= i <= |sorted| && forall j :: 0 <= j < i ==> !Before(kvs[k].key, sorted[j].key)
      {
        i := i + 1;
      }
      InsertedSorted(sorted, kvs[k], i);
      sorted := sorted[..i] + [kvs[k]] + sorted[i..];
      assert kvs[..k + 1] == kvs[..k] + [kvs[k]];
    }
    assert kvs[..|kvs|] == kvs;
  }

  lemma InsertedSorted(sorted: seq<KeyValue>, kv: KeyValue, i: int)
    requires SortedByKey(sorted) && 0 <= i <= |sorted|
    requires (forall j :: 0 <= j < i ==> !Before(kv.key, sorted[j].key))
             && (i < |sorted| ==> Before(kv.key, sorted[i].key))
    ensures var r := sorted[..i] + [kv] + sorted[i..]; SortedByKey(r) && multiset(r) == multiset(sorted) + multiset{kv}
  {
    hide Before;
    var r := sorted[..i] + [kv] + sorted[i..];
    forall j | i <= j < |sorted| ensures !Before(sorted[j].key, kv.key) {
      BeforeTotal(kv.key, sorted[i].key);
      if Before(sorted[j].key, kv.key) { BeforeTrans(sorted[j].key, kv.key, sorted[i].key); }
    }
    forall a, b | 0 <= a < b < |r| ensures !Before(r[b].key, r[a].key) {
      assert r[a] == (if a < i then sorted[a] else if a == i then kv else sorted[a - 1]);
      assert r[b] == (if b < i then sorted[b] else if b == i then kv else sorted[b - 1]);
    }
    InsertedCount(sorted, kv, i);
  }

  lemma InsertedCount(sorted: seq<KeyValue>, kv: KeyValue, i: int)
    requires 0 <= i <= |sorted|
    ensures multiset(sorted[..i] + [kv] + sorted[i..]) == multiset(sorted) + multiset{kv}
  {
    assert sorted == sorted[..i] + sorted[i..];
  }

  lemma {:induction false} ValuesConcat(a: seq<KeyValue>, b: seq<KeyValue>, key: string)
    ensures Values(a + b, key) == Values(a, key) + Values(b, key)
    decreases |b|
  {
    if b == [] {
      assert a + b == a;
    } else {
      assert (a + b)[..|a + b| - 1] == a + b[..|b| - 1];
      ValuesConcat(a, b[..|b| - 1], key);
    }
  }

  lemma {:induction false} ValuesNone(a: seq<KeyValue>, key: string)
    requires !HasKey(a, key)
    ensures Values(a, key) == []
  {
    if a != [] {
      var front := a[..|a| - 1];
      assert a[|a| - 1].key != key;
      forall i | 0 <= i < |front| ensures front[i].key != key { assert a[i].key != key; }
      ValuesNone(front, key);
    }
  }

  lemma {:induction false} ValuesAll(a: seq<KeyValue>, key: string)
    requires forall i :: 0 <= i < |a| ==> a[i].key == key
    ensures |Values(a, key)| == |a| && forall i :: 0 <= i < |a| ==> Values(a, key)[i] == a[i].value
  {
    if a != [] { ValuesAll(a[..|a| - 1], key); }
  }

  /** In a sorted sequence, a stretch of one key that ends where the key changes holds all its values. */
  lemma StretchValues(kvs: seq<KeyValue>, i: int, j: int, values: seq<string>)
    requires SortedByKey(kvs) && 0 <= i < j <= |kvs| && |values| == j - i
    requires forall k :: i <= k < j ==> kvs[k].key == kvs[i].key
    requires forall t :: 0 <= t < |values| ==> values[t] == kvs[i..j][t].value
    requires j < |kvs| ==> kvs[j].key != kvs[i].key
    requires forall k :: 0 <= k < i ==> kvs[k].key != kvs[i].key
    ensures values == Values(kvs, kvs[i].key)
    ensures forall k :: j <= k < |kvs| ==> kvs[k].key != kvs[i].key
  {
    hide SortedByKey, Values, HasKey;
    AfterStretch(kvs, i, j);
    var key := kvs[i].key;
    ThreeParts(kvs, i, j);
    assert !HasKey(kvs[..i], key) by { NoKeyIn(kvs[..i], key); }
    assert !HasKey(kvs[j..], key) by { NoKeyIn(kvs[j..], key); }
    assert forall t :: 0 <= t < j - i ==> kvs[i..j][t].key == key;
    PartsValues(kvs[..i], kvs[i..j], kvs[j..], key, values);
  }

  lemma NoKeyIn(s: seq<KeyValue>, key: string)
    requires forall k :: 0 <= k < |s| ==> s[k].key != key
    ensures !HasKey(s, key)
  {
  }

  lemma PartsValues(a: seq<KeyValue>, b: seq<KeyValue>, c: seq<KeyValue>, key: string, values: seq<string>)
    requires !HasKey(a, key) && !HasKey(c, key) && |values| == |b|
    requires forall t :: 0 <= t < |b| ==> b[t].key == key && values[t] == b[t].value
    ensures Values(a + (b + c), key) == values
  {
    hide Values, HasKey;
    ValuesConcat(a, b + c, key);
    ValuesConcat(b, c, key);
    ValuesNone(a, key);
    ValuesNone(c, key);
    ValuesAll(b, key);
    assert values == Values(b, key);
  }

  lemma ThreeParts<T>(s: seq<T>, i: int, j: int)
    requires 0 <= i <= j <= |s|
    ensures s == s[..i] + (s[i..j] + s[j..])
  {
  }

  lemma AfterStretch(kvs: seq<KeyValue>, i: int, j: int)
    requires SortedByKey(kvs) && 0 <= i < j <= |kvs| && (j < |kvs| ==> kvs[j].key != kvs[i].key)
    ensures forall k :: j <= k < |kvs| ==> kvs[k].key != kvs[i].key
  {
    hide Before;
    forall k | j <= k < |kvs| ensures kvs[k].key != kvs[i].key {
      BeforeTotal(kvs[i].key, kvs[j].key);
      assert !Before(kvs[j].key, kvs[i].key) && (k > j ==> !Before(kvs[k].key, kvs[j].key));
    }
  }

  /** The grouping loop, the same in both programs. */
  method GroupReduce(kva: seq<KeyValue>, reducef: (string, seq<string>) -> string) returns (out: seq<KeyValue>)
    requires SortedByKey(kva)
    ensures Reduced(kva, reducef, out)
  {
    hide Values, SortedByKey;
    out := [];
    var i := 0;
    while i < |kva|
      invariant 0 <= i <= |kva|
      invariant i < |kva| ==> forall k :: 0 <= k < i ==> kva[k].key != kva[i].key
      invariant ReducedTo(kva, reducef, out, i)
    {
      var j := i + 1;
      while j < |kva| && kva[j].key == kva[i].key
        invariant i < j <= |kva| && forall k :: i <= k < j ==> kva[k].key == kva[i].key
      {
        j := j + 1;
      }
      var values: seq<string> := [];
      for k := i to j
        invariant |values| == k - i && forall t :: 0 <= t < |values| ==> values[t] == kva[i..j][t].value
      {
        values := values + [kva[k].value];
      }
      StretchValues(kva, i, j, values);
      var output := reducef(kva[i].key, values);
      ReducedNext(kva, reducef, out, i, j);
      out := out + [KeyValue(kva[i].key, output)];
      NewStretch(kva, i, j);
      i := j;
    }
    ReducedEnd(kva, reducef, out);
  }

  lemma NewStretch(kva: seq<KeyValue>, i: int, j: int)
    requires SortedByKey(kva) && 0 <= i < j <= |kva| && (forall k :: i <= k < j ==> kva[k].key == kva[i].key)
    requires forall k :: j <= k < |kva| ==> kva[k].key != kva[i].key
    ensures j < |kva| ==> forall k :: 0 <= k < j ==> kva[k].key != kva[j].key
  {
    hide Before;
    if j < |kva| {
      forall k | 0 <= k < j ensures kva[k].key != kva[j].key {
        BeforeTotal(kva[i].key, kva[j].key);
        assert k < i ==> !Before(kva[i].key, kva[k].key);
        assert !Before(kva[j].key, kva[i].key);
      }
    }
  }

  /** The keys of the first `n` pairs are done. */
  ghost predicate ReducedTo(kvs: seq<KeyValue>, reducef: (string, seq<string>) -> string, out: seq<KeyValue>, n: int) {
    && 0 <= n <= |kvs|
    && DistinctKeys(out)
    && (forall i :: 0 <= i < |out| ==> HasKey(kvs[..n], out[i].key)
                                       && out[i].value == reducef(out[i].key, Values(kvs, out[i].key)))
    && (forall k :: 0 <= k < n ==> HasKey(out, kvs[k].key))
  }

  lemma ReducedNext(kvs: seq<KeyValue>, reducef: (string, seq<string>) -> string, out: seq<KeyValue>, i: int, j: int)
    requires ReducedTo(kvs, reducef, out, i) && i < j <= |kvs| && (forall k :: i <= k < j ==> kvs[k].key == kvs[i].key)
    requires forall k :: 0 <= k < i ==> kvs[k].key != kvs[i].key
    ensures ReducedTo(kvs, reducef, out + [KeyValue(kvs[i].key, reducef(kvs[i].key, Values(kvs, kvs[i].key)))], j)
  {
    hide Values, HasKey, DistinctKeys;
    var kv := KeyValue(kvs[i].key, reducef(kvs[i].key, Values(kvs, kvs[i].key)));
    var out' := out + [kv];
    forall k | 0 <= k < |out| ensures HasKey(kvs[..j], out[k].key)
                                      && out[k].key != kv.key { EarlierKey(kvs, i, j, out[k].key); }
    DistinctSnoc(out, kv);
    assert HasKey(kvs[..j], kv.key) by { KeyAt(kvs[..j], i); }
    NextCovered(kvs, out, kv, i, j);
  }

  lemma DistinctSnoc(out: seq<KeyValue>, kv: KeyValue)
    requires DistinctKeys(out) && forall k :: 0 <= k < |out| ==> out[k].key != kv.key
    ensures DistinctKeys(out + [kv])
  {
  }

  lemma NextCovered(kvs: seq<KeyValue>, out: seq<KeyValue>, kv: KeyValue, i: int, j: int)
    requires 0 <= i < j <= |kvs| && (forall k :: i <= k < j ==> kvs[k].key == kv.key)
             && forall k :: 0 <= k < i ==> HasKey(out, kvs[k].key)
    ensures forall k :: 0 <= k < j ==> HasKey(out + [kv], kvs[k].key)
  {
    hide HasKey;
    forall k | 0 <= k < j ensures HasKey(out + [kv], kvs[k].key) {
      if k < i { KeyKept(out, kv, kvs[k].key); } else { KeyAt(out + [kv], |out|); }
    }
  }

  lemma KeyAt(kvs: seq<KeyValue>, i: int)
    requires 0 <= i < |kvs|
    ensures HasKey(kvs, kvs[i].key)
  {
  }

  lemma KeyKept(out: seq<KeyValue>, kv: KeyValue, key: string)
    requires HasKey(out, key)
    ensures HasKey(out + [kv], key)
  {
    var l :| 0 <= l < |out| && out[l].key == key;
    assert (out + [kv])[l].key == key;
  }

  lemma EarlierKey(kvs: seq<KeyValue>, i: int, j: int, key: string)
    requires 0 <= i < j <= |kvs| && HasKey(kvs[..i], key) && forall k :: 0 <= k < i ==> kvs[k].key != kvs[i].key
    ensures HasKey(kvs[..j], key) && key != kvs[i].key
  {
    var l :| 0 <= l < i && kvs[..i][l].key == key;
    assert kvs[..j][l].key == key;
  }

  lemma ReducedEnd(kvs: seq<KeyValue>, reducef: (string, seq<string>) -> string, out: seq<KeyValue>)
    requires ReducedTo(kvs, reducef, out, |kvs|)
    ensures Reduced(kvs, reducef, out)
  {
    hide Values;
    assert kvs[..|kvs|] == kvs;
  }

  // ---- The two programs

  /** One map task: the pairs of each reduce task go to a file of its own. */
  method WriteToFile(intermediate: seq<KeyValue>, hash: string -> nat, nReduce: nat) returns (files: seq<string>)
    requires nReduce > 0
    ensures |files| == nReduce && forall r :: 0 <= r < nReduce ==>
                                              files[r] == Encode(Bucket(intermediate, hash, nReduce, r))
  {
    hide Bucket, Encode;
    var hashed := HashPairs(intermediate, hash, nReduce);
    files := [];
    for r := 0 to nReduce
      invariant |files| == r && forall q :: 0 <= q < r ==> files[q] == Encode(Bucket(intermediate, hash, nReduce, q))
    {
      var content := WriteLines(At(hashed, r));
      files := files + [content];
    }
  }

  function At(hashed: map<nat, seq<KeyValue>>, r: nat): seq<KeyValue> {
    if r in hashed then hashed[r] else []
  }

  method HashPairs(intermediate: seq<KeyValue>, hash: string -> nat, nReduce: nat)
    returns (hashed: map<nat, seq<KeyValue>>)
    requires nReduce > 0
    ensures forall r: nat :: At(hashed, r) == Bucket(intermediate, hash, nReduce, r)
  {
    hide TaskOf;
    hashed := map[];
    for k := 0 to |intermediate|
      invariant forall r: nat :: At(hashed, r) == Bucket(intermediate[..k], hash, nReduce, r)
    {
      var kv := intermediate[k];
      var hashedIndex := TaskOf(hash, nReduce, kv.key);
      ghost var before := hashed;
      hashed := hashed[hashedIndex := At(hashed, hashedIndex) + [kv]];
      forall r: nat ensures At(hashed, r) == Bucket(intermediate[..k + 1], hash, nReduce, r) {
        assert At(before, r) == Bucket(intermediate[..k], hash, nReduce, r);
        assert intermediate[..k + 1][..k] == intermediate[..k];
      }
    }
    assert intermediate[..|intermediate|] == intermediate;
  }

  method WriteLines(bucket: seq<KeyValue>) returns (content: string)
    ensures content == Encode(bucket)
  {
    content := "";
    for k := 0 to |bucket|
      invariant content == Encode(bucket[..k])
    {
      content := content + bucket[k].key + "\t" + bucket[k].value + "\n";
      EncodeSnoc(bucket, k);
    }
    assert bucket[..|bucket|] == bucket;
  }

  lemma EncodeSnoc(bucket: seq<KeyValue>, k: nat)
    requires k < |bucket|
    ensures Encode(bucket[..k]) + bucket[k].key + "\t" + bucket[k].value + "\n" == Encode(bucket[..k + 1])
  {
    assert bucket[..k + 1][..k] == bucket[..k];
  }

  function AllLines(files: seq<string>): seq<string> {
    if files == [] then [] else AllLines(files[..|files| - 1]) + Split(files[|files| - 1], '\n')
  }

  method ReadIntermediate(files: seq<string>) returns (lines: seq<string>)
    ensures lines == AllLines(files)
  {
    lines := [];
    for i := 0 to |files|
      invariant lines == AllLines(files[..i])
    {
      lines := lines + Split(files[i], '\n');
      assert files[..i + 1][..i] == files[..i];
    }
    assert files[..|files|] == files;
  }

  /** Not `ok` where the original indexes past what it split: a line that is not blank and has no tab. */
  method ParseAll(lines: seq<string>) returns (ok: bool, kva: seq<KeyValue>)
    ensures ok <==> Readable(lines)
    ensures ok ==> kva == Parse(lines)
  {
    kva := [];
    for i := 0 to |lines|
      invariant Readable(lines[..i]) && kva == Parse(lines[..i])
    {
      if AllSpace(lines[i]) || '\t' in lines[i] {
        assert lines[..i + 1][..i] == lines[..i];
        kva := kva + ParseLine(lines[i]);
      } else {
        return false, kva;
      }
    }
    assert lines[..|lines|] == lines;
    ok := true;
  }

  /** Reduced after a sort, which may leave the values of a key in any order. */
  ghost predicate SortReduced(kvs: seq<KeyValue>, reducef: (string, seq<string>) -> string, out: seq<KeyValue>) {
    exists sorted :: multiset(sorted) == multiset(kvs) && SortedByKey(sorted) && Reduced(sorted, reducef, out)
  }

  lemma SortShows(kvs: seq<KeyValue>, sorted: seq<KeyValue>, reducef: (string, seq<string>) -> string,
                  out: seq<KeyValue>)
    requires multiset(sorted) == multiset(kvs) && SortedByKey(sorted) && Reduced(sorted, reducef, out)
    ensures SortReduced(kvs, reducef, out)
  {
    hide SortedByKey, Reduced;
  }

  /** For an order-free reduce function the sort does not show. */
  lemma SortHidden(kvs: seq<KeyValue>, reducef: (string, seq<string>) -> string, out: seq<KeyValue>)
    requires SortReduced(kvs, reducef, out) && OrderFree(reducef)
    ensures Reduced(kvs, reducef, out)
  {
    hide SortedByKey, Reduced, OrderFree;
    var sorted :| multiset(sorted) == multiset(kvs) && SortedByKey(sorted) && Reduced(sorted, reducef, out);
    ReducedRearranged(sorted, kvs, reducef, out);
  }

  /** One reduce task over the files the map tasks wrote for it. */
  method DoReduceTask(files: seq<string>, reducef: (string, seq<string>) -> string)
    returns (ok: bool, out: seq<KeyValue>)
    ensures ok <==> Readable(AllLines(files))
    ensures ok ==> SortReduced(Parse(AllLines(files)), reducef, out)
  {
    hide *;
    var lines := ReadIntermediate(files);
    var kva;
    ok, kva := ParseAll(lines);
    out := [];
    if ok {
      var sorted := SortByKey(kva);
      out := GroupReduce(sorted, reducef);
      SortShows(kva, sorted, reducef, out);
    }
  }

  /** The sequential program on the pairs all map calls produced. */
  method Sequential(maps: seq<seq<KeyValue>>, reducef: (string, seq<string>) -> string) returns (out: seq<KeyValue>)
    ensures SortReduced(Flatten(maps), reducef, out)
  {
    var intermediate: seq<KeyValue> := [];
    for i := 0 to |maps|
      invariant intermediate == Flatten(maps[..i])
    {
      intermediate := intermediate + maps[i];
      assert maps[..i + 1][..i] == maps[..i];
    }
    assert maps[..|maps|] == maps;
    hide *;
    var sorted := SortByKey(intermediate);
    out := GroupReduce(sorted, reducef);
    SortShows(intermediate, sorted, reducef, out);
  }

  predicate MapsClean(maps: seq<seq<KeyValue>>) {
    forall i :: 0 <= i < |maps| ==> AllClean(maps[i])
  }

  /** The files of reduce task `r`, one per map task. */
  ghost function FilesOf(maps: seq<seq<KeyValue>>, hash: string -> nat, nReduce: nat, r: nat): seq<string>
    requires nReduce > 0
  {
    seq(|maps|, i requires 0 <= i < |maps| => Encode(Bucket(maps[i], hash, nReduce, r)))
  }

  /** What a reduce task reads is its bucket of everything. */
  lemma {:induction false} BucketRead(maps: seq<seq<KeyValue>>, hash: string -> nat, nReduce: nat, r: nat)
    requires nReduce > 0 && MapsClean(maps)
    ensures var lines := AllLines(FilesOf(maps, hash, nReduce, r));
            Readable(lines) && Parse(lines) == Bucket(Flatten(maps), hash, nReduce, r)
  {
    if maps != [] {
      var front, last := maps[..|maps| - 1], maps[|maps| - 1];
      var files, bucket := FilesOf(maps, hash, nReduce, r), Bucket(last, hash, nReduce, r);
      assert files[..|files| - 1] == FilesOf(front, hash, nReduce, r);
      BucketRead(front, hash, nReduce, r);
      BucketClean(last, hash, nReduce, r);
      FileRoundTrip(bucket);
      ParseConcat(AllLines(FilesOf(front, hash, nReduce, r)), Split(Encode(bucket), '\n'));
      BucketConcat(Flatten(front), last, hash, nReduce, r);
    }
  }

  lemma {:induction false} BucketValues(kvs: seq<KeyValue>, hash: string -> nat, nReduce: nat, r: nat, key: string)
    requires nReduce > 0
    ensures TaskOf(hash, nReduce, key) == r ==> Values(Bucket(kvs, hash, nReduce, r), key) == Values(kvs, key)
    ensures HasKey(Bucket(kvs, hash, nReduce, r), key) <==> HasKey(kvs, key) && TaskOf(hash, nReduce, key) == r
  {
    hide TaskOf, HasKey;
    if kvs == [] {
      NoKey(key);
    } else {
      var front, last := kvs[..|kvs| - 1], kvs[|kvs| - 1];
      var b := Bucket(front, hash, nReduce, r);
      BucketValues(front, hash, nReduce, r, key);
      assert kvs == front + [last];
      HasKeySnoc(front, last, key);
      if TaskOf(hash, nReduce, last.key) == r {
        HasKeySnoc(b, last, key);
        ValuesSnoc(b, last, key);
        assert Bucket(kvs, hash, nReduce, r) == b + [last];
      } else {
        assert Bucket(kvs, hash, nReduce, r) == b;
      }
    }
  }

  lemma NoKey(key: string)
    ensures !HasKey([], key)
  {
  }

  lemma ValuesSnoc(kvs: seq<KeyValue>, last: KeyValue, key: string)
    ensures Values(kvs + [last], key) == Values(kvs, key) + if last.key == key then [last.value] else []
  {
    assert (kvs + [last])[..|kvs|] == kvs;
  }

  lemma HasKeySnoc(kvs: seq<KeyValue>, last: KeyValue, key: string)
    ensures HasKey(kvs + [last], key) <==> HasKey(kvs, key) || last.key == key
  {
    if HasKey(kvs, key) { KeyKept(kvs, last, key); }
    if last.key == key { KeyAt(kvs + [last], |kvs|); }
  }

  /** The outputs of the first `n` reduce tasks together. */
  ghost predicate ReducedBelow(kvs: seq<KeyValue>, hash: string -> nat, nReduce: nat,
                               reducef: (string, seq<string>) -> string, out: seq<KeyValue>, n: nat)
    requires nReduce > 0
  {
    && DistinctKeys(out)
    && (forall i :: 0 <= i < |out| ==>
          HasKey(kvs, out[i].key) && TaskOf(hash, nReduce, out[i].key) < n
            && out[i].value == reducef(out[i].key, Values(kvs, out[i].key)))
    && (forall key :: HasKey(kvs, key) && TaskOf(hash, nReduce, key) < n ==> HasKey(out, key))
  }

  lemma OneMoreTask(kvs: seq<KeyValue>, hash: string -> nat, nReduce: nat, reducef: (string, seq<string>) -> string,
                    out: seq<KeyValue>, n: nat, more: seq<KeyValue>)
    requires nReduce > 0 && ReducedBelow(kvs, hash, nReduce, reducef, out, n)
             && Reduced(Bucket(kvs, hash, nReduce, n), reducef, more)
    ensures ReducedBelow(kvs, hash, nReduce, reducef, out + more, n + 1)
  {
    hide Values, HasKey, Bucket;
    forall key
      ensures TaskOf(hash, nReduce, key) == n ==> Values(Bucket(kvs, hash, nReduce, n), key) == Values(kvs, key)
      ensures HasKey(Bucket(kvs, hash, nReduce, n), key) <==> HasKey(kvs, key) && TaskOf(hash, nReduce, key) == n
    {
      BucketValues(kvs, hash, nReduce, n, key);
    }
    forall key ensures HasKey(out + more, key) <==>
                       HasKey(out, key) || HasKey(more, key) { HasKeyConcat(out, more, key); }
  }

  lemma HasKeyConcat(a: seq<KeyValue>, b: seq<KeyValue>, key: string)
    ensures HasKey(a + b, key) <==> HasKey(a, key) || HasKey(b, key)
  {
    if HasKey(a, key) {
      var i :| 0 <= i < |a| && a[i].key == key;
      assert (a + b)[i].key == key;
    }
    if HasKey(b, key) {
      var i :| 0 <= i < |b| && b[i].key == key;
      assert (a + b)[|a| + i].key == key;
    }
  }

  ghost predicate TaskReadable(maps: seq<seq<KeyValue>>, hash: string -> nat, nReduce: nat, r: nat)
    requires nReduce > 0
  {
    Readable(AllLines(FilesOf(maps, hash, nReduce, r)))
  }

  /** What reduce task `r` puts out. */
  ghost predicate TaskReduced(maps: seq<seq<KeyValue>>, hash: string -> nat, nReduce: nat,
                              reducef: (string, seq<string>) -> string, r: nat, out: seq<KeyValue>)
    requires nReduce > 0
  {
    TaskReadable(maps, hash, nReduce, r) && SortReduced(Parse(AllLines(FilesOf(maps, hash, nReduce, r))), reducef, out)
  }

  ghost predicate AllReduced(maps: seq<seq<KeyValue>>, hash: string -> nat, nReduce: nat,
                             reducef: (string, seq<string>) -> string, outs: seq<seq<KeyValue>>)
    requires nReduce > 0
  {
    |outs| == nReduce && forall r: nat :: r < nReduce ==> TaskReduced(maps, hash, nReduce, reducef, r, outs[r])
  }

  /** All map tasks, then all reduce tasks, with an output for each; not `ok` where a task cannot read its files. */
  method Distributed(maps: seq<seq<KeyValue>>, hash: string -> nat, nReduce: nat,
                     reducef: (string, seq<string>) -> string)
    returns (ok: bool, outs: seq<seq<KeyValue>>)
    requires nReduce > 0
    ensures ok <==> forall r: nat :: r < nReduce ==> TaskReadable(maps, hash, nReduce, r)
    ensures ok ==> AllReduced(maps, hash, nReduce, reducef, outs)
  {
    hide Readable, AllLines, FilesOf, Encode, Bucket, SortReduced, Parse;
    var written: seq<seq<string>> := [];
    for i := 0 to |maps|
      invariant |written| == i && forall k :: 0 <= k < i ==> |written[k]| == nReduce
      invariant forall k, r :: 0 <= k < i && 0 <= r < nReduce ==>
                               written[k][r] == Encode(Bucket(maps[k], hash, nReduce, r))
    {
      var files := WriteToFile(maps[i], hash, nReduce);
      written := written + [files];
    }
    outs := [];
    for r := 0 to nReduce
      invariant |outs| == r && forall q: nat :: q < r ==> TaskReduced(maps, hash, nReduce, reducef, q, outs[q])
    {
      var files: seq<string> := [];
      for i := 0 to |maps|
        invariant |files| == i && forall k :: 0 <= k < i ==> files[k] == Encode(Bucket(maps[k], hash, nReduce, r))
      {
        files := files + [written[i][r]];
      }
      FilesAre(maps, hash, nReduce, r, files);
      var read, out := DoReduceTask(files, reducef);
      assert read <==> TaskReadable(maps, hash, nReduce, r);
      if !read { return false, outs; }
      outs := outs + [out];
    }
    forall r: nat | r < nReduce ensures TaskReadable(maps, hash, nReduce, r) {
      assert TaskReduced(maps, hash, nReduce, reducef, r, outs[r]);
    }
    ok := true;
  }

  /** For clean pairs and an order-free reduce function, no task fails and together they reduce everything. */
  lemma DistributedReduces(maps: seq<seq<KeyValue>>, hash: string -> nat, nReduce: nat,
                           reducef: (string, seq<string>) -> string, outs: seq<seq<KeyValue>>)
    requires nReduce > 0 && MapsClean(maps) && OrderFree(reducef)
    ensures forall r: nat :: r < nReduce ==> TaskReadable(maps, hash, nReduce, r)
    ensures AllReduced(maps, hash, nReduce, reducef, outs) ==>
              Reduced(Flatten(maps), reducef, Flatten(outs))
  {
    hide TaskReadable, TaskReduced, MapsClean, OrderFree, Reduced, Flatten;
    forall r: nat | r < nReduce ensures TaskReadable(maps, hash, nReduce, r) { TaskReads(maps, hash, nReduce, r); }
    if AllReduced(maps, hash, nReduce, reducef, outs) {
      TasksReduce(maps, hash, nReduce, reducef, outs, nReduce);
      assert outs[..nReduce] == outs;
      AllBelow(Flatten(maps), hash, nReduce, reducef, Flatten(outs));
    }
  }

  lemma TaskReads(maps: seq<seq<KeyValue>>, hash: string -> nat, nReduce: nat, r: nat)
    requires nReduce > 0 && MapsClean(maps)
    ensures TaskReadable(maps, hash, nReduce, r)
  {
    BucketRead(maps, hash, nReduce, r);
  }

  lemma {:induction false} TasksReduce(maps: seq<seq<KeyValue>>, hash: string -> nat, nReduce: nat,
                                       reducef: (string, seq<string>) -> string, outs: seq<seq<KeyValue>>, n: nat)
    requires nReduce > 0 && MapsClean(maps) && OrderFree(reducef) && n <= |outs|
    requires forall r: nat :: r < n ==> TaskReduced(maps, hash, nReduce, reducef, r, outs[r])
    ensures ReducedBelow(Flatten(maps), hash, nReduce, reducef, Flatten(outs[..n]), n)
  {
    if n == 0 {
      NothingBelow(Flatten(maps), hash, nReduce, reducef);
      assert Flatten(outs[..0]) == [];
    } else {
      TasksReduce(maps, hash, nReduce, reducef, outs, n - 1);
      assert TaskReduced(maps, hash, nReduce, reducef, n - 1, outs[n - 1]);
      BucketRead(maps, hash, nReduce, n - 1);
      hide ReducedBelow, Reduced, SortReduced, OrderFree, Parse, Bucket, Readable, AllLines, FilesOf, MapsClean;
      SortHidden(Bucket(Flatten(maps), hash, nReduce, n - 1), reducef, outs[n - 1]);
      OneMoreTask(Flatten(maps), hash, nReduce, reducef, Flatten(outs[..n - 1]), n - 1, outs[n - 1]);
      assert outs[..n][..n - 1] == outs[..n - 1];
    }
  }

  lemma NothingBelow(kvs: seq<KeyValue>, hash: string -> nat, nReduce: nat, reducef: (string, seq<string>) -> string)
    requires nReduce > 0
    ensures ReducedBelow(kvs, hash, nReduce, reducef, [], 0)
  {
  }

  lemma AllBelow(kvs: seq<KeyValue>, hash: string -> nat, nReduce: nat, reducef: (string, seq<string>) -> string,
                 out: seq<KeyValue>)
    requires nReduce > 0 && ReducedBelow(kvs, hash, nReduce, reducef, out, nReduce)
    ensures Reduced(kvs, reducef, out)
  {
    hide Values, HasKey;
  }

  lemma FilesAre(maps: seq<seq<KeyValue>>, hash: string -> nat, nReduce: nat, r: nat, files: seq<string>)
    requires nReduce > 0 && |files| == |maps| && forall k :: 0 <= k < |maps| ==>
                                                             files[k] == Encode(Bucket(maps[k], hash, nReduce, r))
    ensures files == FilesOf(maps, hash, nReduce, r)
  {
  }

  /**
   The distributed program produces the lines of the sequential one, whatever the hash function and
   the number of tasks.
   */
  method Agree(maps: seq<seq<KeyValue>>, hash: string -> nat, nReduce: nat, reducef: (string, seq<string>) -> string)
    returns (distributed: seq<seq<KeyValue>>, sequential: seq<KeyValue>)
    requires nReduce > 0 && MapsClean(maps) && OrderFree(reducef)
    ensures multiset(Flatten(distributed)) == multiset(sequential)
  {
    hide *;
    var ok;
    ok, distributed := Distributed(maps, hash, nReduce, reducef);
    DistributedReduces(maps, hash, nReduce, reducef, distributed);
    // where the original panics
    assert ok;
    sequential := Sequential(maps, reducef);
    SortHidden(Flatten(maps), reducef, sequential);
    ReducedUnique(Flatten(maps), reducef, Flatten(distributed), sequential);
  }
}
