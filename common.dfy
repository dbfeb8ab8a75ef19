/** Helpers shared by the ecosystem model: an option type, the `Math.min` /
    `Math.max` / `Math.floor` arithmetic of the simulation, decimal rendering
    of numbers inside template-literal ids, and the array operations the
    simulation relies on (`filter`, `find`, `new Set(...)`). */
module Common {

  datatype Option<+T> = None | Some(value: T)

  function Min(a: real, b: real): real { if a <= b then a else b }

  function Max(a: real, b: real): real { if a >= b then a else b }

  /** `Math.max(lo, Math.min(hi, x))`: x clamped to [lo, hi]. */
  function Clamp(x: real, lo: real, hi: real): (r: real)
    requires lo <= hi
    ensures lo <= r <= hi
    ensures lo <= x <= hi ==> r == x
  {
    Max(lo, Min(hi, x))
  }

  /** A value returned by `Math.random()`. */
  predicate Unit(r: real) { 0.0 <= r < 1.0 }

  /** `Math.floor(r * n)` for a draw r: an index into a list of n options. */
  function Pick(r: real, n: nat): (i: int)
    requires Unit(r) && n > 0
    ensures 0 <= i < n
  {
    var i := (r * n as real).Floor;
    assert i as real <= r * n as real < n as real;
    i
  }

  lemma MulNonNeg(a: real, b: real)
    requires a >= 0.0 && b >= 0.0
    ensures a * b >= 0.0
  {
  }

  /** `s.map(x => key(x))`: the key of each entry, position by position. */
  function KeysOf<T, K>(key: T -> K, s: seq<T>): (r: seq<K>)
    ensures |r| == |s| && forall i :: 0 <= i < |s| ==> r[i] == key(s[i])
  {
    seq(|s|, i requires 0 <= i < |s| => key(s[i]))
  }

  lemma KeysOfSnoc<T, K>(key: T -> K, s: seq<T>, x: T)
    ensures KeysOf(key, s + [x]) == KeysOf(key, s) + [key(x)]
  {
  }

  /** Squaring keeps the bounds of a non-negative number. */
  lemma SquareBounds(x: real, lo: real, hi: real)
    requires 0.0 <= lo <= x < hi
    ensures lo * lo <= x * x < hi * hi
  {
    var d, e := hi - x, hi + x;
    assert d * e > 0.0;
    assert hi * hi - x * x == d * e;
    var f, g := x - lo, x + lo;
    assert f * g >= 0.0;
    assert x * x - lo * lo == f * g;
  }

  /** `Math.random() * k` for a span k > 0 lands in [0, k). */
  lemma ScaleBelow(r: real, k: real)
    requires Unit(r)
    ensures k > 0.0 ==> 0.0 <= r * k < k
  {
    if k > 0.0 {
      MulNonNeg(r, k);
      MulNonNeg(1.0 - r, k);
      assert (1.0 - r) * k != 0.0;
    }
  }

  /** `Math.random() * k`: a draw spread over a span of length k. */
  function Scale(r: real, k: real): (x: real)
    requires Unit(r)
    ensures k > 0.0 ==> 0.0 <= x < k
  {
    ScaleBelow(r, k);
    r * k
  }

  function DigitChar(d: nat): (c: char)
    requires d < 10
    ensures '0' <= c <= '9'
  {
    ('0' as int + d) as char
  }

  /** The decimal text of n, as `${n}` renders a non-negative integer. */
  function NatToString(n: nat): (s: string)
    ensures |s| >= 1
    ensures forall i :: 0 <= i < |s| ==> '0' <= s[i] <= '9'
  {
    if n < 10 then [DigitChar(n)] else NatToString(n / 10) + [DigitChar(n % 10)]
  }

  predicate NoDup<T(==)>(s: seq<T>) {
    forall i, j :: 0 <= i < j < |s| ==> s[i] != s[j]
  }

  /** `s.filter(p)`: the elements of s that satisfy p, in their order. */
  function Filter<T(!new)>(p: T -> bool, s: seq<T>): (r: seq<T>)
    ensures |r| <= |s|
  {
    if s == [] then []
    else Filter(p, s[..|s| - 1]) + (if p(s[|s| - 1]) then [s[|s| - 1]] else [])
  }

  /** `filter` keeps exactly the elements that satisfy p. */
  lemma {:induction false} FilterIn<T(!new)>(p: T -> bool, s: seq<T>)
    ensures forall x :: x in Filter(p, s) <==> x in s && p(x)
  {
    if s != [] {
      var s' := s[..|s| - 1];
      FilterIn(p, s');
      assert s == s' + [s[|s| - 1]];
    }
  }

  /** Deleting, or passing over, the element at the head of the unvisited
      part `s[i..]` of a list being scanned as `a + s[i..]`. */
  lemma ScanStep<T>(a: seq<T>, s: seq<T>, i: int)
    requires 0 <= i < |s|
    ensures (a + s[i..])[|a|] == s[i]
    ensures (a + s[i..])[..|a|] + (a + s[i..])[|a| + 1..] == a + s[i + 1..]
    ensures a + s[i..] == (a + [s[i]]) + s[i + 1..]
  {
    assert (a + s[i..])[..|a|] == a;
    assert (a + s[i..])[|a| + 1..] == s[i + 1..];
  }

  /** One more element of s examined by `filter`. */
  lemma FilterSnoc<T(!new)>(p: T -> bool, s: seq<T>, i: int)
    requires 0 <= i < |s|
    ensures Filter(p, s[..i + 1]) == Filter(p, s[..i]) + if p(s[i]) then [s[i]] else []
  {
    assert s[..i + 1][..i] == s[..i];
  }

  /** Filtering distributes over concatenation, so it keeps the order of s. */
  lemma {:induction false} FilterConcat<T(!new)>(p: T -> bool, a: seq<T>, b: seq<T>)
    ensures Filter(p, a + b) == Filter(p, a) + Filter(p, b)
    decreases |b|
  {
    if b == [] {
      assert a + b == a;
    } else {
      var b' := b[..|b| - 1];
      assert (a + b)[..|a + b| - 1] == a + b';
      FilterConcat(p, a, b');
    }
  }

  /** No two elements of s share a key: s is the entry list of a Map. */
  predicate UniqueKeys<T, K(==)>(key: T -> K, s: seq<T>) {
    forall i, j :: 0 <= i < j < |s| ==> key(s[i]) != key(s[j])
  }

  /** Dropping entries from a Map's entry list keeps its keys unique. */
  lemma {:induction false} FilterUnique<T(!new), K>(key: T -> K, p: T -> bool, s: seq<T>)
    requires UniqueKeys(key, s)
    ensures UniqueKeys(key, Filter(p, s))
  {
    if s != [] {
      var s' := s[..|s| - 1];
      var x := s[|s| - 1];
      assert UniqueKeys(key, s');
      FilterUnique(key, p, s');
      FilterIn(p, s');
      var f' := Filter(p, s');
      assert forall y :: y in f' ==> y in s';
      assert forall y :: y in s' ==> key(y) != key(x);
    }
  }

  /** `s.findIndex(p)`: the first index whose element satisfies p, or -1. */
  function FirstIndex<T>(p: T -> bool, s: seq<T>): (j: int)
    ensures -1 <= j < |s|
    ensures 0 <= j ==> p(s[j]) && forall i :: 0 <= i < j ==> !p(s[i])
    ensures j == -1 <==> forall i :: 0 <= i < |s| ==> !p(s[i])
  {
    if s == [] then -1
    else if p(s[0]) then 0
    else
      var k := FirstIndex(p, s[1..]);
      if k == -1 then -1 else k + 1
  }

  /** Where `Map.get(k)` finds its entry in the entry list, or -1. */
  function IndexOfKey<T, K(==)>(key: T -> K, s: seq<T>, k: K): (j: int)
    ensures -1 <= j < |s|
    ensures 0 <= j ==> key(s[j]) == k
    ensures j == -1 <==> forall i :: 0 <= i < |s| ==> key(s[i]) != k
  {
    FirstIndex((x: T) => key(x) == k, s)
  }

  /** `Map.set(key(x), x)` on the entry list: a present key keeps its place
      and gets the new value, a new key is appended. */
  function MapSet<T, K(==)>(key: T -> K, s: seq<T>, x: T): (s': seq<T>)
    requires UniqueKeys(key, s)
    ensures UniqueKeys(key, s')
    ensures IndexOfKey(key, s, key(x)) == -1 ==> s' == s + [x]
    ensures IndexOfKey(key, s, key(x)) != -1 ==> s' == s[IndexOfKey(key, s, key(x)) := x]
    ensures |s| <= |s'| && forall k :: 0 <= k < |s| ==> key(s'[k]) == key(s[k])
    ensures x in s' && forall y :: y in s' ==> y == x || y in s
  {
    var j := IndexOfKey(key, s, key(x));
    if j == -1 then s + [x] else s[j := x]
  }

  /** `Map.delete` of the entry at position i. */
  function RemoveAt<T>(s: seq<T>, i: int): (s': seq<T>)
    requires 0 <= i < |s|
    ensures |s'| == |s| - 1
    ensures forall k :: 0 <= k < i ==> s'[k] == s[k]
    ensures forall k :: i <= k < |s'| ==> s'[k] == s[k + 1]
  {
    s[..i] + s[i + 1..]
  }

  /** Deleting the entry at i keeps every other element and adds none. */
  lemma RemoveAtMembers<T>(s: seq<T>, i: int)
    requires 0 <= i < |s|
    ensures forall x :: x in RemoveAt(s, i) ==> x in s
    ensures forall x :: x in s && x != s[i] ==> x in RemoveAt(s, i)
  {
    var s' := RemoveAt(s, i);
    forall x | x in s' ensures x in s {
      var k :| 0 <= k < |s'| && s'[k] == x;
      assert s[if k < i then k else k + 1] == x;
    }
    forall x | x in s && x != s[i] ensures x in s' {
      var k :| 0 <= k < |s| && s[k] == x;
      assert s'[if k < i then k else k - 1] == x;
    }
  }

  /** Deleting an entry keeps the keys of a Map's entry list unique. */
  lemma RemoveAtUnique<T, K>(key: T -> K, s: seq<T>, i: int)
    requires 0 <= i < |s| && UniqueKeys(key, s)
    ensures UniqueKeys(key, RemoveAt(s, i))
  {
    var s' := RemoveAt(s, i);
    forall a, b | 0 <= a < b < |s'| ensures key(s'[a]) != key(s'[b]) {
      var a' := if a < i then a else a + 1;
      var b' := if b < i then b else b + 1;
      assert s'[a] == s[a'] && s'[b] == s[b'];
    }
  }

  /** `Array.from(new Set(s))`: each element once, at its first occurrence. */
  function Dedup<T(==,!new)>(s: seq<T>): (r: seq<T>)
    ensures NoDup(r)
    ensures forall x :: x in r <==> x in s
  {
    if s == [] then []
    else
      var d := Dedup(s[..|s| - 1]);
      if s[|s| - 1] in d then d else d + [s[|s| - 1]]
  }

  /** A list without repetitions is its own set. */
  lemma {:induction false} DedupOfNoDup<T(!new)>(s: seq<T>)
    requires NoDup(s)
    ensures Dedup(s) == s
  {
    if s != [] {
      var s' := s[..|s| - 1];
      assert NoDup(s');
      DedupOfNoDup(s');
      assert s[|s| - 1] !in s';
    }
  }

  /** The size of `new Set(s)` is the number of distinct elements of s. */
  lemma {:induction false} DedupSize<T(!new)>(s: seq<T>)
    ensures |Dedup(s)| == |set x | x in s|
  {
    if s != [] {
      var s' := s[..|s| - 1];
      var x := s[|s| - 1];
      DedupSize(s');
      assert (set y | y in s) == (set y | y in s') + {x} by {
        assert s == s' + [x];
      }
      if x in Dedup(s') {
        assert x in s';
        assert (set y | y in s) == (set y | y in s');
      } else {
        assert x !in (set y | y in s');
      }
    }
  }
}
