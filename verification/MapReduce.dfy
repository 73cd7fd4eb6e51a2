/** Key/value pairs, sorting, grouping and reducing: what a MapReduce job computes. */
module MapReduce {

  datatype KeyValue = KeyValue(key: string, value: string)

  type MapFn = (string, string) -> seq<KeyValue>
  type ReduceFn = (string, seq<string>) -> string

  /** Order of strings, character by character. */
  predicate LexLe(a: string, b: string) {
    a == "" || (b != "" && (a[0] < b[0] || (a[0] == b[0] && LexLe(a[1..], b[1..]))))
  }

  lemma {:induction false} LexAntisymmetric(a: string, b: string)
    requires LexLe(a, b) && LexLe(b, a)
    ensures a == b
  {
    if a != "" {
      LexAntisymmetric(a[1..], b[1..]);
      assert a == [a[0]] + a[1..] && b == [b[0]] + b[1..];
    }
  }

  ghost predicate SortedByKey(kva: seq<KeyValue>) {
    forall i, j | 0 <= i < j < |kva| :: LexLe(kva[i].key, kva[j].key)
  }

  /** Any outcome of the library sort, which need not be stable. */
  ghost predicate IsSortOf(sorted: seq<KeyValue>, kva: seq<KeyValue>) {
    SortedByKey(sorted) && multiset(sorted) == multiset(kva)
  }

  /** A Reduce that does not depend on the order of the values. */
  ghost predicate OrderInsensitive(reducef: ReduceFn) {
    forall k, a, b {:trigger reducef(k, a), reducef(k, b)} | multiset(a) == multiset(b) :: reducef(k, a) == reducef(k, b)
  }

  function Line(key: string, output: string): string {
    key + " " + output + "\n"
  }

  /** A line can be read back: what stands before its first space is the key, if keys have no
      spaces, and what stands between that space and the final newline is the output. */
  lemma LineReadsBack(key: string, output: string, n: nat)
    requires ' ' !in key
    requires n < |Line(key, output)| && Line(key, output)[n] == ' ' && ' ' !in Line(key, output)[..n]
    ensures Line(key, output)[..n] == key
    ensures |Line(key, output)| > n + 1 && Line(key, output)[n + 1..|Line(key, output)| - 1] == output
    ensures Line(key, output)[|Line(key, output)| - 1] == '\n'
  {
    var line := Line(key, output);
    assert line[|key|] == ' ' && line[..|key|] == key;
  }

  function Values(kva: seq<KeyValue>): (r: seq<string>)
    ensures |r| == |kva|
  {
    seq(|kva|, i requires 0 <= i < |kva| => kva[i].value)
  }

  /** Length of the run of equal keys at the front. */
  function RunLength(kva: seq<KeyValue>): (n: nat)
    requires kva != []
    ensures 1 <= n <= |kva|
    ensures forall i | 0 <= i < n :: kva[i].key == kva[0].key
    ensures n < |kva| ==> kva[n].key != kva[0].key
  {
    RunFrom(kva, 1)
  }

  function RunFrom(kva: seq<KeyValue>, j: nat): (n: nat)
    requires 1 <= j <= |kva| && forall i | 0 <= i < j :: kva[i].key == kva[0].key
    ensures j <= n <= |kva|
    ensures forall i | 0 <= i < n :: kva[i].key == kva[0].key
    ensures n < |kva| ==> kva[n].key != kva[0].key
    decreases |kva| - j
  {
    if j < |kva| && kva[j].key == kva[0].key then RunFrom(kva, j + 1) else j
  }

  /** Reduce each run of equal keys to one line. */
  function Lines(kva: seq<KeyValue>, reducef: ReduceFn): seq<string>
    decreases |kva|
  {
    if kva == [] then []
    else
      var n := RunLength(kva);
      [Line(kva[0].key, reducef(kva[0].key, Values(kva[..n])))] + Lines(kva[n..], reducef)
  }

  // ---------------------------------------------------------------- meaning: one line per key

  function Vals(kva: seq<KeyValue>, k: string): seq<string> {
    if kva == [] then []
    else (if kva[0].key == k then [kva[0].value] else []) + Vals(kva[1..], k)
  }

  function Keys(kva: seq<KeyValue>): set<string> {
    set i | 0 <= i < |kva| :: kva[i].key
  }

  /** The lines of a set of keys, whatever order they are written in. */
  ghost function KeyLines(keys: set<string>, kva: seq<KeyValue>, reducef: ReduceFn): multiset<string>
    decreases |keys|
  {
    if keys == {} then multiset{}
    else
      SomeKey(keys);
      var k :| k in keys;
      multiset{Line(k, reducef(k, Vals(kva, k)))} + KeyLines(keys - {k}, kva, reducef)
  }

  lemma SomeKey(keys: set<string>)
    ensures keys == {} || exists k :: k in keys
  {
    assert (forall k :: k !in keys) ==> keys == {};
  }

  lemma {:induction false} KeyLinesTake(keys: set<string>, kva: seq<KeyValue>, reducef: ReduceFn, x: string)
    requires x in keys
    ensures KeyLines(keys, kva, reducef)
         == multiset{Line(x, reducef(x, Vals(kva, x)))} + KeyLines(keys - {x}, kva, reducef)
    decreases |keys|
  {
    var k :| k in keys && KeyLines(keys, kva, reducef)
              == multiset{Line(k, reducef(k, Vals(kva, k)))} + KeyLines(keys - {k}, kva, reducef);
    if k != x {
      KeyLinesTake(keys - {k}, kva, reducef, x);
      KeyLinesTake(keys - {x}, kva, reducef, k);
      assert keys - {k} - {x} == keys - {x} - {k};
    }
  }

  lemma {:induction false} KeyLinesSame(keys: set<string>, a: seq<KeyValue>, b: seq<KeyValue>, reducef: ReduceFn)
    requires OrderInsensitive(reducef)
    requires forall k | k in keys :: multiset(Vals(a, k)) == multiset(Vals(b, k))
    ensures KeyLines(keys, a, reducef) == KeyLines(keys, b, reducef)
    decreases |keys|
  {
    if keys != {} {
      SomeKey(keys);
      var k :| k in keys;
      KeyLinesTake(keys, a, reducef, k);
      KeyLinesTake(keys, b, reducef, k);
      KeyLinesSame(keys - {k}, a, b, reducef);
      assert reducef(k, Vals(a, k)) == reducef(k, Vals(b, k));
    }
  }

  lemma KeyLinesNone(kva: seq<KeyValue>, reducef: ReduceFn)
    ensures KeyLines({}, kva, reducef) == multiset{}
  {
  }

  lemma {:induction false} KeyLinesUnion(a: set<string>, b: set<string>, kva: seq<KeyValue>, reducef: ReduceFn)
    requires a !! b
    ensures KeyLines(a + b, kva, reducef) == KeyLines(a, kva, reducef) + KeyLines(b, kva, reducef)
    decreases |a|
  {
    hide KeyLines, Vals;
    if a == {} {
      assert a + b == b;
      KeyLinesNone(kva, reducef);
    } else {
      SomeKey(a);
      var k :| k in a;
      KeyLinesTake(a, kva, reducef, k);
      KeyLinesTake(a + b, kva, reducef, k);
      var c := a - {k};
      assert a + b - {k} == c + b;
      KeyLinesUnion(c, b, kva, reducef);
      var x, y, z := multiset{Line(k, reducef(k, Vals(kva, k)))}, KeyLines(c, kva, reducef), KeyLines(b, kva, reducef);
      assert x + (y + z) == (x + y) + z;
    }
  }

  lemma {:induction false} ValsSplit(a: seq<KeyValue>, b: seq<KeyValue>, k: string)
    ensures Vals(a + b, k) == Vals(a, k) + Vals(b, k)
  {
    if a == [] {
      assert a + b == b;
    } else {
      ValsSplit(a[1..], b, k);
      assert (a + b)[1..] == a[1..] + b;
      Regroup(if a[0].key == k then [a[0].value] else [], Vals(a[1..], k), Vals(b, k));
    }
  }

  lemma Regroup(x: seq<string>, y: seq<string>, z: seq<string>)
    ensures x + (y + z) == (x + y) + z
  {
  }

  lemma {:induction false} ValsAll(kva: seq<KeyValue>, k: string)
    requires forall i | 0 <= i < |kva| :: kva[i].key == k
    ensures Vals(kva, k) == Values(kva)
  {
    if kva != [] {
      ValsAll(kva[1..], k);
      assert Values(kva) == [kva[0].value] + Values(kva[1..]);
    }
  }

  lemma {:induction false} ValsNone(kva: seq<KeyValue>, k: string)
    requires forall i | 0 <= i < |kva| :: kva[i].key != k
    ensures Vals(kva, k) == []
  {
    if kva != [] {
      ValsNone(kva[1..], k);
    }
  }

  lemma {:induction false} ValsCount(kva: seq<KeyValue>, k: string, v: string)
    ensures multiset(Vals(kva, k))[v] == multiset(kva)[KeyValue(k, v)]
  {
    if kva != [] {
      ValsCount(kva[1..], k, v);
      assert kva == [kva[0]] + kva[1..];
    }
  }

  /** Equal multisets of pairs give each key the same multiset of values. */
  lemma ValsPermuted(a: seq<KeyValue>, b: seq<KeyValue>, k: string)
    requires multiset(a) == multiset(b)
    ensures multiset(Vals(a, k)) == multiset(Vals(b, k))
  {
    forall v ensures multiset(Vals(a, k))[v] == multiset(Vals(b, k))[v] {
      ValsCount(a, k, v);
      ValsCount(b, k, v);
    }
  }

  lemma KeysPermuted(a: seq<KeyValue>, b: seq<KeyValue>)
    requires multiset(a) == multiset(b)
    ensures Keys(a) == Keys(b)
  {
    KeysWithin(a, b);
    KeysWithin(b, a);
  }

  lemma KeysWithin(a: seq<KeyValue>, b: seq<KeyValue>)
    requires multiset(a) == multiset(b)
    ensures Keys(a) <= Keys(b)
  {
    forall k | k in Keys(a) ensures k in Keys(b) {
      var i :| 0 <= i < |a| && a[i].key == k;
      assert a[i] in multiset(a);
      assert a[i] in b;
      var j :| 0 <= j < |b| && b[j] == a[i];
    }
  }

  /** In a sorted sequence the first run holds every occurrence of its key. */
  lemma RunComplete(kva: seq<KeyValue>, i: nat)
    requires kva != [] && SortedByKey(kva) && RunLength(kva) <= i < |kva|
    ensures kva[i].key != kva[0].key
  {
    var n := RunLength(kva);
    if n < i && LexLe(kva[i].key, kva[0].key) {
      assert LexLe(kva[0].key, kva[n].key) && LexLe(kva[n].key, kva[i].key);
      if kva[i].key == kva[0].key {
        LexAntisymmetric(kva[n].key, kva[0].key);
      }
    } else if kva[i].key == kva[0].key {
      LexReflexive(kva[i].key);
    }
  }

  lemma {:induction false} LexReflexive(a: string)
    ensures LexLe(a, a)
  {
    if a != "" {
      LexReflexive(a[1..]);
    }
  }

  /** The first run has the values of its key, the rest those of all others. */
  lemma RunVals(kva: seq<KeyValue>, n: nat, k: string)
    requires 0 < n <= |kva| && forall i | 0 <= i < n :: kva[i].key == kva[0].key
    requires forall i | n <= i < |kva| :: kva[i].key != kva[0].key
    ensures Vals(kva, k) == if k == kva[0].key then Values(kva[..n]) else Vals(kva[n..], k)
  {
    var a, b := kva[..n], kva[n..];
    assert kva == a + b;
    ValsSplit(a, b, k);
    if k == kva[0].key {
      ValsAll(a, k);
      ValsNone(b, k);
    } else {
      ValsNone(a, k);
    }
  }

  lemma FirstRun(kva: seq<KeyValue>)
    requires kva != [] && SortedByKey(kva)
    ensures var n := RunLength(kva);
      && Vals(kva, kva[0].key) == Values(kva[..n])
      && SortedByKey(kva[n..]) && Keys(kva) == {kva[0].key} + Keys(kva[n..]) && kva[0].key !in Keys(kva[n..])
      && (forall k | k != kva[0].key :: Vals(kva, k) == Vals(kva[n..], k))
  {
    hide Vals, LexLe, RunFrom;
    var n := RunLength(kva);
    forall i | n <= i < |kva| ensures kva[i].key != kva[0].key {
      RunComplete(kva, i);
    }
    forall k ensures Vals(kva, k) == if k == kva[0].key then Values(kva[..n]) else Vals(kva[n..], k) {
      RunVals(kva, n, k);
    }
    RunKeys(kva, n);
  }

  lemma RunKeys(kva: seq<KeyValue>, n: nat)
    requires 0 < n <= |kva| && forall i | 0 <= i < n :: kva[i].key == kva[0].key
    ensures Keys(kva) == {kva[0].key} + Keys(kva[n..])
  {
    forall k | k in Keys(kva) ensures k in {kva[0].key} + Keys(kva[n..]) {
      var i :| 0 <= i < |kva| && kva[i].key == k;
      if i >= n {
        assert kva[n..][i - n].key == k;
      }
    }
    forall k | k in Keys(kva[n..]) ensures k in Keys(kva) {
      var i :| 0 <= i < |kva[n..]| && kva[n..][i].key == k;
      assert kva[i + n].key == k;
    }
  }

  /** Grouping a sorted sequence gives exactly one line per key, from all its values. */
  lemma {:induction false} LinesPerKey(kva: seq<KeyValue>, reducef: ReduceFn)
    requires SortedByKey(kva) && OrderInsensitive(reducef)
    ensures multiset(Lines(kva, reducef)) == KeyLines(Keys(kva), kva, reducef)
    decreases |kva|
  {
    if kva != [] {
      var n := RunLength(kva);
      var k0 := kva[0].key;
      FirstRun(kva);
      LinesPerKey(kva[n..], reducef);
      KeyLinesTake(Keys(kva), kva, reducef, k0);
      assert Keys(kva) - {k0} == Keys(kva[n..]);
      KeyLinesSame(Keys(kva[n..]), kva, kva[n..], reducef);
    }
  }

  /** Whatever the sort does with equal keys, the lines are the same. */
  lemma SortedLines(sorted: seq<KeyValue>, kva: seq<KeyValue>, reducef: ReduceFn)
    requires IsSortOf(sorted, kva) && OrderInsensitive(reducef)
    ensures multiset(Lines(sorted, reducef)) == KeyLines(Keys(kva), kva, reducef)
  {
    LinesPerKey(sorted, reducef);
    KeysPermuted(sorted, kva);
    forall k | k in Keys(kva) ensures multiset(Vals(sorted, k)) == multiset(Vals(kva, k)) {
      ValsPermuted(sorted, kva, k);
    }
    KeyLinesSame(Keys(kva), sorted, kva, reducef);
  }

  // ---------------------------------------------------------------- loops

  /** End of the run of equal keys that starts at `i`. */
  method FindRunEnd(kva: seq<KeyValue>, i: nat) returns (j: nat)
    requires i < |kva|
    ensures i < j <= |kva| && j - i == RunLength(kva[i..])
  {
    j := i + 1;
    while j < |kva| && kva[j].key == kva[i].key
      invariant i < j <= |kva| && forall k | i <= k < j :: kva[k].key == kva[i].key
      invariant RunFrom(kva[i..], 1) == RunFrom(kva[i..], j - i)
    {
      j := j + 1;
    }
  }

  method CollectValues(kva: seq<KeyValue>, i: nat, j: nat) returns (values: seq<string>)
    requires i <= j <= |kva|
    ensures values == Values(kva[i..j])
  {
    values := [];
    for k := i to j
      invariant values == Values(kva[i..k])
    {
      values := values + [kva[k].value];
    }
  }

  /** The loop over the groups of a sorted sequence, as both programs write it. */
  method ReduceGroups(kva: seq<KeyValue>, reducef: ReduceFn) returns (lines: seq<string>)
    ensures lines == Lines(kva, reducef)
  {
    lines := [];
    var i := 0;
    while i < |kva|
      invariant i <= |kva| && lines + Lines(kva[i..], reducef) == Lines(kva, reducef)
    {
      var j := FindRunEnd(kva, i);
      var values := CollectValues(kva, i, j);
      LinesUnfold(kva, i, j, reducef);
      lines := lines + [Line(kva[i].key, reducef(kva[i].key, values))];
      i := j;
    }
    assert kva[i..] == [];
  }

  lemma LinesUnfold(kva: seq<KeyValue>, i: nat, j: nat, reducef: ReduceFn)
    requires i < j <= |kva| && j - i == RunLength(kva[i..])
    ensures Lines(kva[i..], reducef) ==
      [Line(kva[i].key, reducef(kva[i].key, Values(kva[i..j])))] + Lines(kva[j..], reducef)
  {
    assert kva[i..][..j - i] == kva[i..j] && kva[i..][j - i..] == kva[j..];
  }
}
