// Shared vocabulary of the risk-quantification engine: optional values, sums over
// record lists, Python's stable `sorted(..., reverse=True)`, Python prefix slicing
// the transcendental functions the models take as parameters, and JSON-shaped values.
module Common {

  datatype Option<T> = None | Some(value: T)

  function AbsInt(x: int): int { if x < 0 then -x else x }
  function AbsReal(x: real): real { if x < 0.0 then -x else x }
  function MaxInt(a: int, b: int): int { if a >= b then a else b }
  function MinInt(a: int, b: int): int { if a <= b then a else b }
  function MaxReal(a: real, b: real): real { if a >= b then a else b }
  function MinReal(a: real, b: real): real { if a <= b then a else b }

  /** Python's `max(lo, min(hi, x))`. */
  function Clamp(x: int, lo: int, hi: int): int { MaxInt(lo, MinInt(hi, x)) }

  lemma ClampInRange(x: int, lo: int, hi: int)
    requires lo <= hi
    ensures lo <= Clamp(x, lo, hi) <= hi
    ensures lo <= x <= hi ==> Clamp(x, lo, hi) == x
  {
  }

  // ---------------------------------------------------------------------------
  // Sums and counts over record lists (left folds, so that a loop that appends one
  // record at a time keeps `acc == SumBy(s[..k], f)` for free).

  function SumBy<T>(s: seq<T>, f: T -> int): int
  {
    if s == [] then 0 else SumBy(s[..|s| - 1], f) + f(s[|s| - 1])
  }

  function SumByReal<T>(s: seq<T>, f: T -> real): real
  {
    if s == [] then 0.0 else SumByReal(s[..|s| - 1], f) + f(s[|s| - 1])
  }

  function SumReals(s: seq<real>): real
  {
    if s == [] then 0.0 else SumReals(s[..|s| - 1]) + s[|s| - 1]
  }

  function CountBy<T>(s: seq<T>, p: T -> bool): nat
  {
    if s == [] then 0 else CountBy(s[..|s| - 1], p) + (if p(s[|s| - 1]) then 1 else 0)
  }

  lemma SumByAppend<T>(s: seq<T>, x: T, f: T -> int)
    ensures SumBy(s + [x], f) == SumBy(s, f) + f(x)
  {
    assert (s + [x])[..|s|] == s;
  }

  lemma SumByRealAppend<T>(s: seq<T>, x: T, f: T -> real)
    ensures SumByReal(s + [x], f) == SumByReal(s, f) + f(x)
  {
    assert (s + [x])[..|s|] == s;
  }

  lemma SumRealsAppend(s: seq<real>, x: real)
    ensures SumReals(s + [x]) == SumReals(s) + x
  {
    assert (s + [x])[..|s|] == s;
  }

  lemma CountByAppend<T>(s: seq<T>, x: T, p: T -> bool)
    ensures CountBy(s + [x], p) == CountBy(s, p) + (if p(x) then 1 else 0)
  {
    assert (s + [x])[..|s|] == s;
  }

  lemma {:induction false} CountByConcat<T>(a: seq<T>, b: seq<T>, p: T -> bool)
    ensures CountBy(a + b, p) == CountBy(a, p) + CountBy(b, p)
    decreases |b|
  {
    if b == [] {
      assert a + b == a;
    } else {
      var n := |b| - 1;
      assert (a + b)[..|a + b| - 1] == a + b[..n];
      CountByConcat(a, b[..n], p);
    }
  }

  lemma {:induction false} CountByZero<T>(s: seq<T>, p: T -> bool)
    ensures CountBy(s, p) == 0 <==> forall i :: 0 <= i < |s| ==> !p(s[i])
    decreases |s|
  {
    if s != [] {
      var n := |s| - 1;
      CountByZero(s[..n], p);
      assert forall i :: 0 <= i < n ==> s[..n][i] == s[i];
    }
  }

  lemma CountByBound<T>(s: seq<T>, p: T -> bool)
    ensures CountBy(s, p) <= |s|
  {
  }

  /** A weaker predicate counts at least as many elements. */
  lemma {:induction false} CountByImplies<T>(s: seq<T>, p: T -> bool, q: T -> bool)
    requires forall i :: 0 <= i < |s| ==> p(s[i]) ==> q(s[i])
    ensures CountBy(s, p) <= CountBy(s, q)
    decreases |s|
  {
    if s != [] {
      var n := |s| - 1;
      assert forall i :: 0 <= i < n ==> s[..n][i] == s[i];
      CountByImplies(s[..n], p, q);
    }
  }

  /** Every element satisfies the predicate exactly when all of them are counted. */
  lemma {:induction false} CountByAll<T>(s: seq<T>, p: T -> bool)
    ensures CountBy(s, p) == |s| <==> forall i :: 0 <= i < |s| ==> p(s[i])
    decreases |s|
  {
    if s != [] {
      var n := |s| - 1;
      assert forall i :: 0 <= i < n ==> s[..n][i] == s[i];
      CountByAll(s[..n], p);
      CountByBound(s[..n], p);
    }
  }

  /** Replacing one record changes a sum by exactly the difference of that record's term. */
  lemma {:induction false} SumByUpdate<T>(s: seq<T>, i: int, y: T, f: T -> int)
    requires 0 <= i < |s|
    ensures SumBy(s[i := y], f) == SumBy(s, f) - f(s[i]) + f(y)
    decreases |s|
  {
    var n := |s| - 1;
    var t := s[i := y];
    assert t[..n] == if i == n then s[..n] else s[..n][i := y];
    if i < n {
      SumByUpdate(s[..n], i, y, f);
    }
  }

  /** Division by a non-zero total distributes over a sum. */
  lemma DivAdd(u: real, w: real, t: real)
    requires t != 0.0
    ensures (u + w) / t == u / t + w / t
  {
  }

  lemma DivSelf(u: real, t: real)
    requires t != 0.0 && u == t
    ensures u / t == 1.0
  {
  }

  /** A sum of non-negative terms is non-negative. */
  lemma {:induction false} SumByRealNonNegative<T>(s: seq<T>, f: T -> real)
    requires forall i :: 0 <= i < |s| ==> f(s[i]) >= 0.0
    ensures SumByReal(s, f) >= 0.0
    decreases |s|
  {
    if s != [] {
      var n := |s| - 1;
      assert forall i :: 0 <= i < n ==> s[..n][i] == s[i];
      SumByRealNonNegative(s[..n], f);
    }
  }

  /** A sum of terms each below the matching term of another sum stays below it. */
  lemma {:induction false} SumByRealMonotone<T>(s: seq<T>, f: T -> real, g: T -> real)
    requires forall i :: 0 <= i < |s| ==> f(s[i]) <= g(s[i])
    ensures SumByReal(s, f) <= SumByReal(s, g)
    decreases |s|
  {
    if s != [] {
      var n := |s| - 1;
      assert forall i :: 0 <= i < n ==> s[..n][i] == s[i];
      SumByRealMonotone(s[..n], f, g);
    }
  }

  /** Two sums agree up to a factor when their terms do, position by position. */
  lemma {:induction false} SumByRealScaled<T, U>(s: seq<T>, t: seq<U>, f: T -> real, g: U -> real, c: real)
    requires |s| == |t| && forall i :: 0 <= i < |s| ==> f(s[i]) == c * g(t[i])
    ensures SumByReal(s, f) == c * SumByReal(t, g)
    decreases |s|
  {
    if s != [] {
      var n := |s| - 1;
      assert forall i :: 0 <= i < n ==> s[..n][i] == s[i] && t[..n][i] == t[i];
      SumByRealScaled(s[..n], t[..n], f, g, c);
      assert SumByReal(s, f) == SumByReal(s[..n], f) + f(s[n]);
      assert SumByReal(t, g) == SumByReal(t[..n], g) + g(t[n]);
      MulAddReal(c, SumByReal(t[..n], g), g(t[n]));
    }
  }

  lemma MulAddReal(c: real, a: real, b: real)
    ensures c * (a + b) == c * a + c * b
  {
  }

  /** A sum of non-negative terms that is not positive has only zero terms. */
  lemma {:induction false} SumByRealZero<T>(s: seq<T>, f: T -> real)
    requires forall i :: 0 <= i < |s| ==> f(s[i]) >= 0.0
    requires SumByReal(s, f) <= 0.0
    ensures forall i :: 0 <= i < |s| ==> f(s[i]) == 0.0
    decreases |s|
  {
    if s != [] {
      var n := |s| - 1;
      assert forall i :: 0 <= i < n ==> s[..n][i] == s[i];
      SumByRealNonNegative(s[..n], f);
      SumByRealZero(s[..n], f);
    }
  }

  /** A constant factor can be pulled out of a sum. */
  lemma {:induction false} SumByRealScale<T>(s: seq<T>, f: T -> real, g: T -> real, c: real)
    requires forall i :: 0 <= i < |s| ==> g(s[i]) == c * f(s[i])
    ensures SumByReal(s, g) == c * SumByReal(s, f)
    decreases |s|
  {
    if s != [] {
      var n := |s| - 1;
      assert forall i :: 0 <= i < n ==> s[..n][i] == s[i];
      SumByRealScale(s[..n], f, g, c);
    }
  }

  // ---------------------------------------------------------------------------
  // Python's `sorted(s, key=key, reverse=True)`: a stable sort, descending by key.

  predicate SortedDesc<T>(s: seq<T>, key: T -> real)
  {
    forall i, j :: 0 <= i < j < |s| ==> key(s[i]) >= key(s[j])
  }

  /** Inserts `x` after every element whose key is at least `x`'s key. */
  function InsertDesc<T>(x: T, s: seq<T>, key: T -> real): seq<T>
  {
    if s == [] then [x]
    else if key(s[0]) >= key(x) then [s[0]] + InsertDesc(x, s[1..], key)
    else [x] + s
  }

  /** Insertion sort taking the elements in input order, so ties keep input order. */
  function SortDesc<T>(s: seq<T>, key: T -> real): seq<T>
  {
    if s == [] then [] else InsertDesc(s[|s| - 1], SortDesc(s[..|s| - 1], key), key)
  }

  /** The elements of `s` whose key is `k`, in order. */
  function KeyFilter<T>(s: seq<T>, key: T -> real, k: real): seq<T>
  {
    if s == [] then []
    else (if key(s[0]) == k then [s[0]] else []) + KeyFilter(s[1..], key, k)
  }

  lemma {:induction false} InsertDescMultiset<T>(x: T, s: seq<T>, key: T -> real)
    ensures multiset(InsertDesc(x, s, key)) == multiset(s) + multiset{x}
    ensures |InsertDesc(x, s, key)| == |s| + 1
    decreases |s|
  {
    if s != [] && key(s[0]) >= key(x) {
      InsertDescMultiset(x, s[1..], key);
      assert s == [s[0]] + s[1..];
    }
  }

  lemma {:induction false} InsertDescFacts<T>(x: T, s: seq<T>, key: T -> real)
    requires SortedDesc(s, key)
    ensures SortedDesc(InsertDesc(x, s, key), key)
    ensures multiset(InsertDesc(x, s, key)) == multiset(s) + multiset{x}
    ensures |InsertDesc(x, s, key)| == |s| + 1
    decreases |s|
  {
    InsertDescMultiset(x, s, key);
    if s != [] && key(s[0]) >= key(x) {
      InsertDescFacts(x, s[1..], key);
      var r := InsertDesc(x, s[1..], key);
      forall j | 0 <= j < |r|
        ensures key(s[0]) >= key(r[j])
      {
        assert r[j] in multiset(s[1..]) + multiset{x};
        if r[j] != x {
          assert r[j] in s[1..];
        }
      }
      assert InsertDesc(x, s, key) == [s[0]] + r;
    }
  }

  lemma {:induction false} SortDescFacts<T>(s: seq<T>, key: T -> real)
    ensures SortedDesc(SortDesc(s, key), key)
    ensures multiset(SortDesc(s, key)) == multiset(s)
    ensures |SortDesc(s, key)| == |s|
    decreases |s|
  {
    if s != [] {
      var n := |s| - 1;
      var t := SortDesc(s[..n], key);
      SortDescFacts(s[..n], key);
      InsertDescFacts(s[n], t, key);
      assert SortDesc(s, key) == InsertDesc(s[n], t, key);
      assert multiset(s) == multiset(s[..n]) + multiset{s[n]} by {
        assert s == s[..n] + [s[n]];
      }
    }
  }

  lemma {:induction false} KeyFilterAppend<T>(a: seq<T>, b: seq<T>, key: T -> real, k: real)
    ensures KeyFilter(a + b, key, k) == KeyFilter(a, key, k) + KeyFilter(b, key, k)
    decreases |a|
  {
    if a == [] {
      assert a + b == b;
    } else {
      var ab := a + b;
      var h := if key(a[0]) == k then [a[0]] else [];
      assert ab[0] == a[0];
      assert ab[1..] == a[1..] + b;
      KeyFilterAppend(a[1..], b, key, k);
      assert KeyFilter(ab, key, k) == h + (KeyFilter(a[1..], key, k) + KeyFilter(b, key, k));
      assert KeyFilter(a, key, k) == h + KeyFilter(a[1..], key, k);
    }
  }

  lemma {:induction false} KeyFilterBelow<T>(s: seq<T>, key: T -> real, k: real)
    requires SortedDesc(s, key)
    requires s != [] ==> key(s[0]) < k
    ensures KeyFilter(s, key, k) == []
    decreases |s|
  {
    if s != [] {
      KeyFilterBelow(s[1..], key, k);
    }
  }

  lemma {:induction false} InsertDescStable<T>(x: T, s: seq<T>, key: T -> real, k: real)
    requires SortedDesc(s, key)
    ensures KeyFilter(InsertDesc(x, s, key), key, k)
         == KeyFilter(s, key, k) + (if key(x) == k then [x] else [])
    decreases |s|
  {
    var ex := if key(x) == k then [x] else [];
    if s == [] {
    } else if key(s[0]) >= key(x) {
      var h := if key(s[0]) == k then [s[0]] else [];
      var rest := InsertDesc(x, s[1..], key);
      assert SortedDesc(s[1..], key);
      InsertDescStable(x, s[1..], key, k);
      assert InsertDesc(x, s, key) == [s[0]] + rest;
      assert KeyFilter(InsertDesc(x, s, key), key, k) == h + KeyFilter(rest, key, k);
      assert KeyFilter(s, key, k) == h + KeyFilter(s[1..], key, k);
      assert h + (KeyFilter(s[1..], key, k) + ex) == (h + KeyFilter(s[1..], key, k)) + ex;
    } else {
      assert InsertDesc(x, s, key) == [x] + s;
      assert ([x] + s)[1..] == s;
      assert KeyFilter([x] + s, key, k) == ex + KeyFilter(s, key, k);
      if key(x) == k {
        KeyFilterBelow(s, key, k);
      }
    }
  }

  /** Stability: for every key value, the elements with that key keep their input order. */
  lemma {:induction false} SortDescStable<T>(s: seq<T>, key: T -> real, k: real)
    ensures KeyFilter(SortDesc(s, key), key, k) == KeyFilter(s, key, k)
    decreases |s|
  {
    if s != [] {
      var n := |s| - 1;
      SortDescFacts(s[..n], key);
      SortDescStable(s[..n], key, k);
      InsertDescStable(s[n], SortDesc(s[..n], key), key, k);
      KeyFilterAppend(s[..n], [s[n]], key, k);
      assert s[..n] + [s[n]] == s;
    }
  }

  // ---------------------------------------------------------------------------
  // Python slicing `s[:stop]` for an integer `stop` (negative counts from the end).

  function PrefixLen(n: nat, stop: int): (k: nat)
    ensures k <= n
    ensures 0 <= stop ==> k == MinInt(stop, n)
    ensures stop < 0 ==> k == MaxInt(0, n + stop)
  {
    if stop >= 0 then (if stop < n then stop else n)
    else (if n + stop > 0 then n + stop else 0)
  }

  function PyPrefix<T>(s: seq<T>, stop: int): seq<T>
  {
    s[..PrefixLen(|s|, stop)]
  }

  /** The stop of a slice `s[:stop]`: an int (a bool counts as 0 or 1) or `None` for no bound. */
  datatype SliceStop = StopAt(k: int) | NoStop

  function PySlice<T>(s: seq<T>, stop: SliceStop): (r: seq<T>)
    ensures |r| <= |s| && r == s[..|r|]
    ensures stop.StopAt? && stop.k >= 0 ==> |r| == MinInt(stop.k, |s|)
    ensures stop.NoStop? ==> r == s
  {
    match stop
    case StopAt(k) => PyPrefix(s, k)
    case NoStop => s
  }

  /** `sorted(s, key=key, reverse=True)[:stop]`: sorted, and drawn from `s`. */
  lemma SortedSliceFacts<T>(s: seq<T>, key: T -> real, stop: SliceStop)
    ensures SortedDesc(PySlice(SortDesc(s, key), stop), key)
    ensures forall x :: x in PySlice(SortDesc(s, key), stop) ==> x in s
    ensures |SortDesc(s, key)| == |s|
  {
    SortDescFacts(s, key);
    var sorted := SortDesc(s, key);
    var r := PySlice(sorted, stop);
    forall x | x in r
      ensures x in s
    {
      assert x in sorted;
      assert x in multiset(s);
    }
    forall i, j | 0 <= i < j < |r|
      ensures key(r[i]) >= key(r[j])
    {
      assert r[i] == sorted[i] && r[j] == sorted[j];
    }
  }

  // ---------------------------------------------------------------------------
  // List comprehensions `[x for x in s if p(x)]`.

  function Filter<T>(s: seq<T>, p: T -> bool): (r: seq<T>)
    ensures |r| <= |s|
    ensures forall i :: 0 <= i < |r| ==> r[i] in s && p(r[i])
    ensures forall i :: 0 <= i < |s| && p(s[i]) ==> s[i] in r
  {
    if s == [] then [] else Filter(s[..|s| - 1], p) + (if p(s[|s| - 1]) then [s[|s| - 1]] else [])
  }

  lemma {:induction false} FilterAppend<T>(a: seq<T>, b: seq<T>, p: T -> bool)
    ensures Filter(a + b, p) == Filter(a, p) + Filter(b, p)
    decreases |b|
  {
    if b == [] {
      assert a + b == a;
    } else {
      var n := |b| - 1;
      assert (a + b)[..|a + b| - 1] == a + b[..n];
      FilterAppend(a, b[..n], p);
    }
  }

  lemma FilterCount<T>(s: seq<T>, p: T -> bool)
    ensures |Filter(s, p)| == CountBy(s, p)
  {
  }

  // ---------------------------------------------------------------------------
  // Transcendental functions are parameters of the models. `Sound` states the few
  // facts the proofs rely on; the real functions satisfy all of them.

  datatype Transcendentals = Transcendentals(
    exp: real -> real,
    sqrt: real -> real,
    log: real -> real,
    pi: real)

  ghost predicate Sound(t: Transcendentals)
  {
    && (forall x :: t.exp(x) > 0.0)
    && (forall x :: x <= 0.0 ==> t.exp(x) <= 1.0)
    && (forall x :: x >= 0.0 ==> t.sqrt(x) >= 0.0 && t.sqrt(x) * t.sqrt(x) == x)
    && t.pi > 0.0
  }

  /** The logistic function `1 / (1 + exp(-x))`. */
  function Sigmoid(t: Transcendentals, x: real): real
  {
    var e := t.exp(-x);
    if 1.0 + e == 0.0 then 0.0 else 1.0 / (1.0 + e)
  }

  lemma SigmoidBounds(t: Transcendentals, x: real)
    requires Sound(t)
    ensures 0.0 < Sigmoid(t, x) < 1.0
    ensures x >= 0.0 ==> Sigmoid(t, x) >= 0.5
  {
    var e := t.exp(-x);
    assert e > 0.0;
    var v := 1.0 / (1.0 + e);
    assert v * (1.0 + e) == 1.0;
    if x >= 0.0 {
      assert e <= 1.0;
      assert v * 2.0 >= v * (1.0 + e);
    }
  }

  lemma SqrtPositive(t: Transcendentals, x: real)
    requires Sound(t) && x > 0.0
    ensures t.sqrt(x) > 0.0
  {
  }

  // ---------------------------------------------------------------------------
  // Python's `str(i)` for integers, used where the source builds dict keys with f-strings.

  function DigitChar(d: int): char
    requires 0 <= d < 10
  {
    "0123456789"[d]
  }

  function NatToString(n: nat): (r: string)
    ensures |r| >= 1
    decreases n
  {
    if n < 10 then [DigitChar(n)] else NatToString(n / 10) + [DigitChar(n % 10)]
  }

  function IntToString(i: int): string
  {
    if i < 0 then "-" + NatToString(-i) else NatToString(i)
  }

  // ---------------------------------------------------------------------------
  // JSON-shaped values: an object keeps its keys in insertion order.

  datatype Json =
    | JNull
    | JBool(b: bool)
    | JInt(i: int)
    | JReal(r: real)
    | JStr(s: string)
    | JArr(items: seq<Json>)
    | JObj(fields: seq<(string, Json)>)

  function FieldKeys(fields: seq<(string, Json)>): seq<string>
  {
    seq(|fields|, i requires 0 <= i < |fields| => fields[i].0)
  }

  function KeysOf(j: Json): seq<string>
  {
    if j.JObj? then FieldKeys(j.fields) else []
  }

  function Lookup(fields: seq<(string, Json)>, k: string): Option<Json>
  {
    if fields == [] then None
    else if fields[0].0 == k then Some(fields[0].1)
    else Lookup(fields[1..], k)
  }

  /** `d[k]` for an object `d`. */
  function Field(j: Json, k: string): Option<Json>
  {
    if j.JObj? then Lookup(j.fields, k) else None
  }

  lemma FieldKeysAppend(a: seq<(string, Json)>, b: seq<(string, Json)>)
    ensures FieldKeys(a + b) == FieldKeys(a) + FieldKeys(b)
  {
  }

  /** A key is found at the first position that carries it. */
  lemma {:induction false} LookupAt(fields: seq<(string, Json)>, i: int, k: string)
    requires 0 <= i < |fields| && fields[i].0 == k
    requires forall j :: 0 <= j < i ==> fields[j].0 != k
    ensures Lookup(fields, k) == Some(fields[i].1)
    decreases i
  {
    if i > 0 {
      LookupAt(fields[1..], i - 1, k);
    }
  }

  /** `d[k] = v`: the first field named `k` takes the value in place, or a new field goes last. */
  function SetField(fields: seq<(string, Json)>, k: string, v: Json): (r: seq<(string, Json)>)
    ensures Lookup(r, k) == Some(v)
    ensures forall k' :: k' != k ==> Lookup(r, k') == Lookup(fields, k')
    ensures Lookup(fields, k).Some? ==> |r| == |fields|
  {
    if fields == [] then [(k, v)]
    else if fields[0].0 == k then [(k, v)] + fields[1..]
    else
      var rest := SetField(fields[1..], k, v);
      assert ([fields[0]] + rest)[1..] == rest;
      [fields[0]] + rest
  }

  /** The elements of the array stored under `k`, or [] when there is none. */
  function Items(j: Json, k: string): seq<Json>
  {
    var f := Field(j, k);
    if f.Some? && f.value.JArr? then f.value.items else []
  }

  /** `d.get(k, default)` on an object's fields. */
  function LookupOr(fields: seq<(string, Json)>, k: string, default: Json): Json
  {
    var f := Lookup(fields, k);
    if f.Some? then f.value else default
  }

  /** `d.get(k, default)`: None when `d` is not an object, where `.get` raises AttributeError. */
  function GetOr(j: Json, k: string, default: Json): (r: Option<Json>)
    ensures r.Some? <==> j.JObj?
  {
    if j.JObj? then Some(LookupOr(j.fields, k, default)) else None
  }

  /**
   * A JSON value as Python arithmetic and `float()` see it: ints, floats and bools are
   * numbers; null, text, arrays and objects make the arithmetic raise.
   */
  function JsonNumber(j: Json): Option<real>
  {
    match j
    case JInt(i) => Some(i as real)
    case JReal(r) => Some(r)
    case JBool(b) => Some(if b then 1.0 else 0.0)
    case _ => None
  }

  /**
   * Python's `float()` of a JSON value: a number or a bool as the arithmetic sees it, text
   * as `floatOf` parses it (so "3.5", " 2 " and "1e3" are numbers; a real holds no NaN or
   * infinity, so `floatOf` cannot give Python's value for "nan" or "inf"), and null, arrays
   * and objects raise.
   */
  function JsonFloat(floatOf: string -> Option<real>, j: Json): (r: Option<real>)
    ensures !j.JStr? ==> r == JsonNumber(j)
    ensures j.JStr? ==> r == floatOf(j.s)
  {
    if j.JStr? then floatOf(j.s) else JsonNumber(j)
  }

  /**
   * What `for x in v` visits: the items of an array, the keys of an object, the
   * characters of a string; None where iteration raises TypeError.
   */
  function Elements(j: Json): (r: Option<seq<Json>>)
    ensures j.JArr? ==> r == Some(j.items)
  {
    match j
    case JArr(items) => Some(items)
    case JObj(fields) => Some(seq(|fields|, i requires 0 <= i < |fields| => JStr(fields[i].0)))
    case JStr(s) => Some(seq(|s|, i requires 0 <= i < |s| => JStr([s[i]])))
    case _ => None
  }

  /** The JSON values as numbers, or None when one of them is not a number (arithmetic on it raises). */
  function Numbers(js: seq<Json>): (r: Option<seq<real>>)
    ensures r.Some? ==> |r.value| == |js|
  {
    if js == [] then Some([])
    else
      var init := Numbers(js[..|js| - 1]);
      var x := JsonNumber(js[|js| - 1]);
      if init.None? || x.None? then None else Some(init.value + [x.value])
  }

  /** `[1.0 / n] * n`. */
  function Uniform(n: nat): seq<real>
    requires n > 0
  {
    seq(n, _ => 1.0 / n as real)
  }

  lemma NumbersAppend(js: seq<Json>, j: Json)
    requires Numbers(js).Some? && JsonNumber(j).Some?
    ensures Numbers(js + [j]) == Some(Numbers(js).value + [JsonNumber(j).value])
  {
    assert (js + [j])[..|js|] == js;
  }

  function IntArray(s: seq<int>): Json
  {
    JArr(seq(|s|, i requires 0 <= i < |s| => JInt(s[i])))
  }

  function RealArray(s: seq<real>): Json
  {
    JArr(seq(|s|, i requires 0 <= i < |s| => JReal(s[i])))
  }

  function StrArray(s: seq<string>): Json
  {
    JArr(seq(|s|, i requires 0 <= i < |s| => JStr(s[i])))
  }
}
