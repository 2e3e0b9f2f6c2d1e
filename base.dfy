/** Small building blocks shared by the backend and the frontend models:
    an Option type, ceiling division on millisecond differences, and
    the filter / sum / first-match / offset-limit operations over
    sequences that stand in for SQL queries and JavaScript array methods. */
module Base {

  datatype Option<+T> = None | Some(value: T) {
    function GetOr(default: T): T {
      match this
      case Some(v) => v
      case None => default
    }
  }

  datatype Result<+T, +E> = Ok(value: T) | Err(error: E)

  /** Milliseconds in one day (1000 * 60 * 60 * 24), the divisor of every day count. */
  const DayMs: int := 86_400_000

  /** JavaScript's Math.ceil(a / d) for a positive divisor.  Dafny's `/` is
      Euclidean, which for d > 0 rounds towards minus infinity, so the
      ceiling is the negated floor of the negated numerator. */
  function CeilDiv(a: int, d: int): (q: int)
    requires d > 0
    ensures d * (q - 1) < a <= d * q
  {
    var f := (-a) / d;
    var m := (-a) % d;
    assert -a == d * f + m && 0 <= m < d;
    -f
  }

  /** The two inequalities of CeilDiv's contract determine the ceiling uniquely. */
  lemma CeilDivUnique(a: int, d: int, q: int)
    requires d > 0
    requires d * (q - 1) < a <= d * q
    ensures q == CeilDiv(a, d)
  {
  }

  /** The ceiling is positive exactly when the numerator is. */
  lemma CeilDivPositive(a: int, d: int)
    requires d > 0
    ensures CeilDiv(a, d) > 0 <==> a > 0
  {
    var q := CeilDiv(a, d);
    if q > 0 {
      assert d * (q - 1) >= 0;
    }
  }

  /** A larger numerator never has a smaller ceiling. */
  lemma CeilDivMonotone(a: int, b: int, d: int)
    requires d > 0 && a <= b
    ensures CeilDiv(a, d) <= CeilDiv(b, d)
  {
    var p, q := CeilDiv(a, d), CeilDiv(b, d);
    assert d * (p - 1) < d * q;
  }

  /** Array.prototype.filter, or a SQL WHERE over a table held in order. */
  function Filter<T>(s: seq<T>, p: T -> bool): (r: seq<T>)
    ensures |r| <= |s|
    ensures forall i :: 0 <= i < |r| ==> r[i] in s && p(r[i])
    ensures forall i :: 0 <= i < |s| && p(s[i]) ==> s[i] in r
  {
    if s == [] then [] else (if p(s[0]) then [s[0]] else []) + Filter(s[1..], p)
  }

  /** r can be obtained from s by deleting elements, keeping the order of the rest. */
  predicate IsSubsequence<T(==)>(r: seq<T>, s: seq<T>)
  {
    if r == [] then true
    else if s == [] then false
    else if r[0] == s[0] then IsSubsequence(r[1..], s[1..])
    else IsSubsequence(r, s[1..])
  }

  lemma {:induction false} SubsequenceOfItself<T>(s: seq<T>)
    ensures IsSubsequence(s, s)
  {
    if s != [] {
      SubsequenceOfItself(s[1..]);
    }
  }

  lemma {:induction false} FilterIsSubsequence<T>(s: seq<T>, p: T -> bool)
    ensures IsSubsequence(Filter(s, p), s)
  {
    if s != [] {
      FilterIsSubsequence(s[1..], p);
      if p(s[0]) {
        assert Filter(s, p) == [s[0]] + Filter(s[1..], p);
      } else {
        assert Filter(s, p) == Filter(s[1..], p);
        FilterSubsequenceSkip(s, p);
      }
    }
  }

  lemma {:induction false} FilterSubsequenceSkip<T>(s: seq<T>, p: T -> bool)
    requires s != [] && !p(s[0])
    requires IsSubsequence(Filter(s[1..], p), s[1..])
    ensures IsSubsequence(Filter(s[1..], p), s)
  {
    var r := Filter(s[1..], p);
    if r != [] {
      assert r[0] in r;
      assert r[0] != s[0];
    }
  }

  lemma {:induction false} FilterAppend<T>(a: seq<T>, b: seq<T>, p: T -> bool)
    ensures Filter(a + b, p) == Filter(a, p) + Filter(b, p)
  {
    if a == [] {
      assert a + b == b;
    } else {
      assert (a + b)[0] == a[0];
      assert (a + b)[1..] == a[1..] + b;
      FilterAppend(a[1..], b, p);
    }
  }

  /** A filter that keeps everything is the identity. */
  lemma {:induction false} FilterAll<T>(s: seq<T>, p: T -> bool)
    requires forall i :: 0 <= i < |s| ==> p(s[i])
    ensures Filter(s, p) == s
  {
    if s != [] {
      FilterAll(s[1..], p);
    }
  }

  /** A filter that keeps nothing yields the empty sequence. */
  lemma {:induction false} FilterNone<T>(s: seq<T>, p: T -> bool)
    requires forall i :: 0 <= i < |s| ==> !p(s[i])
    ensures Filter(s, p) == []
  {
    if s != [] {
      FilterNone(s[1..], p);
    }
  }

  /** Array.prototype.reduce((acc, x) => acc + f(x), 0), or SQL SUM. */
  function Sum<T>(s: seq<T>, f: T -> int): int
  {
    if s == [] then 0 else f(s[0]) + Sum(s[1..], f)
  }

  lemma {:induction false} SumAppend<T>(a: seq<T>, b: seq<T>, f: T -> int)
    ensures Sum(a + b, f) == Sum(a, f) + Sum(b, f)
  {
    if a == [] {
      assert a + b == b;
    } else {
      assert (a + b)[0] == a[0];
      assert (a + b)[1..] == a[1..] + b;
      SumAppend(a[1..], b, f);
    }
  }

  lemma {:induction false} SumNonNegative<T>(s: seq<T>, f: T -> int)
    requires forall i :: 0 <= i < |s| ==> f(s[i]) >= 0
    ensures Sum(s, f) >= 0
  {
    if s != [] {
      SumNonNegative(s[1..], f);
    }
  }

  /** SQL `.filter(p).first()`: the position of the first row satisfying p. */
  function FirstIndex<T>(s: seq<T>, p: T -> bool): (r: Option<nat>)
    ensures r.Some? ==> r.value < |s| && p(s[r.value])
    ensures r.Some? ==> forall j :: 0 <= j < r.value ==> !p(s[j])
    ensures r.None? <==> forall j :: 0 <= j < |s| ==> !p(s[j])
  {
    if s == [] then None
    else if p(s[0]) then Some(0)
    else match FirstIndex(s[1..], p)
      case None => None
      case Some(k) => Some(k + 1)
  }

  /** SQL `.offset(skip).limit(limit)` over rows held in order. */
  function OffsetLimit<T>(s: seq<T>, skip: nat, limit: nat): (r: seq<T>)
    ensures |r| <= limit
    ensures skip >= |s| ==> r == []
    ensures skip < |s| ==> |r| == if skip + limit <= |s| then limit else |s| - skip
    ensures forall i :: 0 <= i < |r| ==> skip + i < |s| && r[i] == s[skip + i]
  {
    if skip >= |s| then [] else s[skip..if skip + limit <= |s| then skip + limit else |s|]
  }

  /** The rows of a table in reverse order: ORDER BY a creation key, descending,
      for a table whose sequence order is creation order. */
  function Reverse<T>(s: seq<T>): (r: seq<T>)
    ensures |r| == |s|
    ensures forall i :: 0 <= i < |s| ==> r[i] == s[|s| - 1 - i]
  {
    if s == [] then [] else Reverse(s[1..]) + [s[0]]
  }

  /** Primary keys: no two rows share a key, and every key is below the
      next one the table will hand out. */
  predicate KeysValid<T>(s: seq<T>, key: T -> int, next: int)
  {
    && (forall i, j :: 0 <= i < j < |s| ==> key(s[i]) != key(s[j]))
    && (forall i :: 0 <= i < |s| ==> key(s[i]) < next)
  }

  /** Inserting a row under the next key keeps the keys valid. */
  lemma KeysValidAppend<T>(s: seq<T>, key: T -> int, next: int, x: T)
    requires KeysValid(s, key, next) && key(x) == next
    ensures KeysValid(s + [x], key, next + 1)
  {
    var t := s + [x];
    assert forall i :: 0 <= i < |s| ==> t[i] == s[i];
  }

  /** Replacing a row by one with the same key keeps the keys valid. */
  lemma KeysValidReplace<T>(s: seq<T>, key: T -> int, next: int, k: int, x: T)
    requires KeysValid(s, key, next) && 0 <= k < |s| && key(x) == key(s[k])
    ensures KeysValid(s[k := x], key, next)
  {
    var t := s[k := x];
    assert forall i :: 0 <= i < |s| ==> key(t[i]) == key(s[i]);
  }

  /** Deleting a row keeps the keys valid. */
  lemma KeysValidRemove<T>(s: seq<T>, key: T -> int, next: int, k: int)
    requires KeysValid(s, key, next) && 0 <= k < |s|
    ensures KeysValid(s[..k] + s[k + 1..], key, next)
  {
    var t := s[..k] + s[k + 1..];
    assert forall i :: 0 <= i < |t| ==> t[i] == if i < k then s[i] else s[i + 1];
  }

  /** Filtering by a condition that splits into two exclusive cases: the
      count and the sum split accordingly. */
  lemma {:induction false} FilterSplit<T>(s: seq<T>, p: T -> bool, q1: T -> bool, q2: T -> bool, f: T -> int)
    requires forall i :: 0 <= i < |s| ==> (p(s[i]) <==> q1(s[i]) || q2(s[i]))
    requires forall i :: 0 <= i < |s| ==> !(q1(s[i]) && q2(s[i]))
    ensures |Filter(s, p)| == |Filter(s, q1)| + |Filter(s, q2)|
    ensures Sum(Filter(s, p), f) == Sum(Filter(s, q1), f) + Sum(Filter(s, q2), f)
  {
    if s != [] {
      FilterSplit(s[1..], p, q1, q2, f);
      var h := [s[0]];
      assert h[1..] == [];
      SumAppend(if p(s[0]) then h else [], Filter(s[1..], p), f);
      SumAppend(if q1(s[0]) then h else [], Filter(s[1..], q1), f);
      SumAppend(if q2(s[0]) then h else [], Filter(s[1..], q2), f);
    }
  }
}
