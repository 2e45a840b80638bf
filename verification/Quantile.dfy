/** Sorting and the interpolated quantile: bounds, monotonicity, and independence of order. */
module Quantile {
  import opened Tally

  predicate Sorted(s: seq<real>) { forall i, j :: 0 <= i < j < |s| ==> s[i] <= s[j] }

  predicate Dominated(s: seq<real>, t: seq<real>) { |s| == |t| && forall i :: 0 <= i < |s| ==> s[i] <= t[i] }

  function Insert(x: real, s: seq<real>): (r: seq<real>)
    ensures |r| == |s| + 1 && multiset(r) == multiset(s) + multiset{x}
  {
    if s == [] || x <= s[0] then [x] + s else assert s == [s[0]] + s[1..]; [s[0]] + Insert(x, s[1..])
  }

  function Sort(s: seq<real>): (r: seq<real>)
    ensures |r| == |s| && multiset(r) == multiset(s)
  {
    if s == [] then [] else assert s == [s[0]] + s[1..]; Insert(s[0], Sort(s[1..]))
  }

  lemma {:induction false} InsertSorts(x: real, s: seq<real>)
    requires Sorted(s)
    ensures Sorted(Insert(x, s))
  {
    if s != [] && x > s[0] {
      InsertSorts(x, s[1..]);
      var r := Insert(x, s[1..]);
      forall i | 0 <= i < |r| ensures s[0] <= r[i] {
        assert r[i] in multiset(r);
        assert r[i] == x || r[i] in s[1..];
      }
    }
  }

  lemma {:induction false} SortSorts(s: seq<real>)
    ensures Sorted(Sort(s))
  {
    if s != [] {
      SortSorts(s[1..]);
      InsertSorts(s[0], Sort(s[1..]));
    }
  }

  /** Inserting a larger number into a dominating list keeps the domination. */
  lemma {:induction false} InsertDominates(x: real, s: seq<real>, y: real, t: seq<real>)
    requires Sorted(s) && Sorted(t) && Dominated(s, t) && x <= y
    ensures Dominated(Insert(x, s), Insert(y, t))
  {
    if s != [] {
      if x <= s[0] {
        if y > t[0] { PrependedDominates(x, s, y, t); }
      } else {
        if y > t[0] {
          InsertDominates(x, s[1..], y, t[1..]);
        } else {
          InsertBelow(x, s[1..], y, t);
        }
      }
    }
  }

  /** Replacing the least number by one at least as large raises every place. */
  lemma {:induction false} InsertRises(y: real, t: seq<real>)
    requires Sorted(t) && t != [] && y >= t[0]
    ensures Dominated(t, Insert(y, t[1..]))
  {
    if |t| > 1 && y > t[1] {
      InsertRises(y, t[1..]);
      assert t[1..][1..] == t[2..];
    }
  }

  lemma PrependedDominates(x: real, s: seq<real>, y: real, t: seq<real>)
    requires s != [] && Sorted(t) && Dominated(s, t) && x <= s[0] && y > t[0]
    ensures Dominated([x] + s, Insert(y, t))
  {
    InsertRises(y, t);
    assert Insert(y, t) == [t[0]] + Insert(y, t[1..]);
  }

  /** An insertion somewhere above the head, against a prepended number. */
  lemma {:induction false} InsertBelow(x: real, s: seq<real>, y: real, t: seq<real>)
    requires t != [] && |s| == |t| - 1 && Sorted(t) && x <= y && y <= t[0]
    requires forall i :: 0 <= i < |s| ==> s[i] <= t[i + 1]
    ensures Dominated(Insert(x, s), t)
  {
    if s != [] && x > s[0] {
      InsertBelow(x, s[1..], y, t[1..]);
    }
  }

  lemma {:induction false} SortDominates(s: seq<real>, t: seq<real>)
    requires Dominated(s, t)
    ensures Dominated(Sort(s), Sort(t))
  {
    if s != [] {
      SortDominates(s[1..], t[1..]);
      SortSorts(s[1..]);
      SortSorts(t[1..]);
      InsertDominates(s[0], Sort(s[1..]), t[0], Sort(t[1..]));
    }
  }

  lemma LeastIsFirst(s: seq<real>, x: real)
    requires Sorted(s) && x in multiset(s)
    ensures s[0] <= x
  {
    var i :| 0 <= i < |s| && s[i] == x;
  }

  lemma TailParts(s: seq<real>)
    requires s != []
    ensures multiset(s[1..]) == multiset(s) - multiset{s[0]}
  {
    assert s == [s[0]] + s[1..];
  }

  lemma TailsAgree(s: seq<real>, t: seq<real>)
    requires Sorted(s) && Sorted(t) && multiset(s) == multiset(t) && s != []
    ensures t != [] && s[0] == t[0] && multiset(s[1..]) == multiset(t[1..])
  {
    assert s[0] in multiset(t);
    LeastIsFirst(s, t[0]);
    LeastIsFirst(t, s[0]);
    TailParts(s);
    TailParts(t);
  }

  /** A sorted list is determined by what it holds. */
  lemma {:induction false} SortedUnique(s: seq<real>, t: seq<real>)
    requires Sorted(s) && Sorted(t) && multiset(s) == multiset(t)
    ensures s == t
    decreases |s|
  {
    if s == [] {
      assert |t| == |multiset(t)| == |multiset(s)| == 0;
    } else {
      TailsAgree(s, t);
      SortedUnique(s[1..], t[1..]);
      assert s == [s[0]] + s[1..] && t == [t[0]] + t[1..];
    }
  }

  // ---------------------------------------------------------------- interpolation

  lemma PositionInRange(n: nat, p: real)
    requires n >= 1 && 0.0 <= p <= 1.0
    ensures 0.0 <= (n - 1) as real * p <= (n - 1) as real
  {
    NonNegativeProduct((n - 1) as real, p);
    NonNegativeProduct((n - 1) as real, 1.0 - p);
  }

  function Position(n: nat, p: real): (r: real)
    requires n >= 1 && 0.0 <= p <= 1.0
    ensures 0.0 <= r <= (n - 1) as real
  {
    PositionInRange(n, p);
    (n - 1) as real * p
  }

  function Ceil(x: real): int { if x == x.Floor as real then x.Floor else x.Floor + 1 }

  function Blend(a: real, b: real, w: real): real { a * (1.0 - w) + b * w }

  /** Between two neighbouring places of a list. */
  function PlaceAt(s: seq<real>, position: real): real
    requires s != [] && 0.0 <= position <= (|s| - 1) as real
  {
    var lower, upper := position.Floor, Ceil(position);
    if lower == upper then s[lower] else Blend(s[lower], s[upper], position - lower as real)
  }

  function Interpolate(s: seq<real>, p: real): real
    requires s != [] && 0.0 <= p <= 1.0
  {
    if |s| == 1 then s[0] else PlaceAt(s, Position(|s|, p))
  }

  lemma NonNegativeProduct(a: real, b: real)
    requires a >= 0.0 && b >= 0.0
    ensures a * b >= 0.0
  {
  }

  lemma BetweenStays(a: real, b: real, w: real, lo: real, hi: real)
    requires 0.0 <= w <= 1.0 && lo <= a <= hi && lo <= b <= hi
    ensures lo <= Blend(a, b, w) <= hi
  {
    BetweenGrows(lo, lo, a, b, w);
    BetweenGrows(a, b, hi, hi, w);
  }

  lemma BetweenGrows(a: real, b: real, c: real, d: real, w: real)
    requires 0.0 <= w <= 1.0 && a <= c && b <= d
    ensures Blend(a, b, w) <= Blend(c, d, w)
  {
    NonNegativeProduct(c - a, 1.0 - w);
    NonNegativeProduct(d - b, w);
  }

  lemma InterpolateBounds(s: seq<real>, p: real, lo: real, hi: real)
    requires s != [] && 0.0 <= p <= 1.0 && forall i :: 0 <= i < |s| ==> lo <= s[i] <= hi
    ensures lo <= Interpolate(s, p) <= hi
  {
    PlaceBounds(s, Position(|s|, p), lo, hi);
  }

  lemma PlaceBounds(s: seq<real>, position: real, lo: real, hi: real)
    requires s != [] && 0.0 <= position <= (|s| - 1) as real && forall i :: 0 <= i < |s| ==> lo <= s[i] <= hi
    ensures lo <= PlaceAt(s, position) <= hi
  {
    var lower, upper := position.Floor, Ceil(position);
    if lower != upper { BetweenStays(s[lower], s[upper], position - lower as real, lo, hi); }
  }

  lemma InterpolateGrows(s: seq<real>, t: seq<real>, p: real)
    requires s != [] && 0.0 <= p <= 1.0 && Dominated(s, t)
    ensures Interpolate(s, p) <= Interpolate(t, p)
  {
    PlaceGrows(s, t, Position(|s|, p));
  }

  lemma PlaceGrows(s: seq<real>, t: seq<real>, position: real)
    requires s != [] && 0.0 <= position <= (|s| - 1) as real && Dominated(s, t)
    ensures PlaceAt(s, position) <= PlaceAt(t, position)
  {
    var lower, upper := position.Floor, Ceil(position);
    assert s[lower] <= t[lower] && s[upper] <= t[upper];
    if lower != upper { BetweenGrows(s[lower], s[upper], t[lower], t[upper], position - lower as real); }
  }

  /** The quantile of the values of some rows; nothing is asked of an empty list. */
  function Values<T>(f: T -> real, rows: seq<T>): (r: seq<real>)
    ensures |r| == |rows| && forall i :: 0 <= i < |r| ==> r[i] == f(rows[i])
  {
    seq(|rows|, i requires 0 <= i < |rows| => f(rows[i]))
  }

  function QuantileOf<T>(f: T -> real, rows: seq<T>, p: real): real
    requires 0.0 <= p <= 1.0
  {
    if rows == [] then 0.0 else Interpolate(Sort(Values(f, rows)), p)
  }

  function MeanOf<T>(f: T -> real, rows: seq<T>): real { if rows == [] then 0.0 else Sum(f, rows) / |rows| as real }

  lemma QuantileBounds<T>(f: T -> real, rows: seq<T>, p: real, lo: real, hi: real)
    requires rows != [] && 0.0 <= p <= 1.0 && forall i :: 0 <= i < |rows| ==> lo <= f(rows[i]) <= hi
    ensures lo <= QuantileOf(f, rows, p) <= hi
  {
    var vs := Values(f, rows);
    var s := Sort(vs);
    forall i | 0 <= i < |s| ensures lo <= s[i] <= hi {
      assert s[i] in multiset(s);
      assert s[i] in vs;
    }
    InterpolateBounds(s, p, lo, hi);
  }

  lemma QuantileGrows<T>(f: T -> real, g: T -> real, rows: seq<T>, p: real)
    requires 0.0 <= p <= 1.0 && forall i :: 0 <= i < |rows| ==> f(rows[i]) <= g(rows[i])
    ensures QuantileOf(f, rows, p) <= QuantileOf(g, rows, p)
  {
    if rows != [] {
      SortDominates(Values(f, rows), Values(g, rows));
      InterpolateGrows(Sort(Values(f, rows)), Sort(Values(g, rows)), p);
    }
  }

  lemma ValuesSkip<T>(f: T -> real, b: seq<T>, k: nat)
    requires k < |b|
    ensures Values(f, Without(b, k)) == Without(Values(f, b), k)
  {
    var short, long := Values(f, Without(b, k)), Without(Values(f, b), k);
    forall i | 0 <= i < |short| ensures short[i] == long[i] {
      assert Without(b, k)[i] == if i < k then b[i] else b[i + 1];
    }
  }

  lemma ValuesWithout<T>(f: T -> real, b: seq<T>, k: nat)
    requires k < |b|
    ensures multiset(Values(f, b)) == multiset(Values(f, Without(b, k))) + multiset{f(b[k])}
  {
    ValuesSkip(f, b, k);
    PutBack(Values(f, b), k);
  }

  lemma PutBack(vs: seq<real>, k: nat)
    requires k < |vs|
    ensures multiset(vs) == multiset(Without(vs, k)) + multiset{vs[k]}
  {
    WithoutParts(vs, k);
    assert vs[k] in multiset(vs);
  }

  lemma {:induction false} ValuesPermute<T>(f: T -> real, a: seq<T>, b: seq<T>)
    requires multiset(a) == multiset(b)
    ensures multiset(Values(f, a)) == multiset(Values(f, b))
    decreases |a|
  {
    assert |a| == |multiset(a)| == |multiset(b)| == |b|;
    if a != [] {
      assert a[0] in multiset(b);
      var k :| 0 <= k < |b| && b[k] == a[0];
      WithoutParts(b, k);
      WithoutParts(a, 0);
      assert Without(a, 0) == a[1..];
      ValuesPermute(f, Without(a, 0), Without(b, k));
      ValuesWithout(f, a, 0);
      ValuesWithout(f, b, k);
    }
  }

  lemma QuantilePermutes<T>(f: T -> real, a: seq<T>, b: seq<T>, p: real)
    requires multiset(a) == multiset(b) && 0.0 <= p <= 1.0
    ensures QuantileOf(f, a, p) == QuantileOf(f, b, p)
  {
    assert |a| == |multiset(a)| == |multiset(b)| == |b|;
    ValuesPermute(f, a, b);
    SortSorts(Values(f, a));
    SortSorts(Values(f, b));
    SortedUnique(Sort(Values(f, a)), Sort(Values(f, b)));
  }

  // ---------------------------------------------------------------- means

  lemma {:induction false} SumBounds<T>(f: T -> real, rows: seq<T>, lo: real, hi: real)
    requires forall i :: 0 <= i < |rows| ==> lo <= f(rows[i]) <= hi
    ensures |rows| as real * lo <= Sum(f, rows) <= |rows| as real * hi
  {
    if rows != [] {
      SumBounds(f, rows[1..], lo, hi);
      assert |rows| as real == |rows[1..]| as real + 1.0;
    }
  }

  lemma ScaleGrows(n: real, x: real, y: real)
    requires n > 0.0 && x < y
    ensures n * x < n * y
  {
  }

  lemma DivideBounds(total: real, n: real, lo: real, hi: real)
    requires n > 0.0 && n * lo <= total <= n * hi
    ensures lo <= total / n <= hi
  {
    var q := total / n;
    assert n * q == total;
    if q < lo { ScaleGrows(n, q, lo); }
    if q > hi { ScaleGrows(n, hi, q); }
  }

  lemma MeanBounds<T>(f: T -> real, rows: seq<T>, lo: real, hi: real)
    requires rows != [] && forall i :: 0 <= i < |rows| ==> lo <= f(rows[i]) <= hi
    ensures lo <= MeanOf(f, rows) <= hi
  {
    SumBounds(f, rows, lo, hi);
    DivideBounds(Sum(f, rows), |rows| as real, lo, hi);
  }

  lemma {:induction false} SumGrows<T>(f: T -> real, g: T -> real, rows: seq<T>)
    requires forall i :: 0 <= i < |rows| ==> f(rows[i]) <= g(rows[i])
    ensures Sum(f, rows) <= Sum(g, rows)
  {
    if rows != [] { SumGrows(f, g, rows[1..]); }
  }

  lemma DivideGrows(a: real, b: real, n: real)
    requires n > 0.0 && a <= b
    ensures a / n <= b / n
  {
    var p, q := a / n, b / n;
    assert n * p == a && n * q == b;
    if p > q { ScaleGrows(n, q, p); }
  }

  lemma MeanGrows<T>(f: T -> real, g: T -> real, rows: seq<T>)
    requires forall i :: 0 <= i < |rows| ==> f(rows[i]) <= g(rows[i])
    ensures MeanOf(f, rows) <= MeanOf(g, rows)
  {
    SumGrows(f, g, rows);
    if rows != [] { DivideGrows(Sum(f, rows), Sum(g, rows), |rows| as real); }
  }

  lemma {:induction false} SumAdds<T>(f: T -> real, g: T -> real, h: T -> real, rows: seq<T>)
    requires forall i :: 0 <= i < |rows| ==> h(rows[i]) == f(rows[i]) + g(rows[i])
    ensures Sum(h, rows) == Sum(f, rows) + Sum(g, rows)
  {
    if rows != [] { SumAdds(f, g, h, rows[1..]); }
  }

  lemma MeanAdds<T>(f: T -> real, g: T -> real, h: T -> real, rows: seq<T>)
    requires forall i :: 0 <= i < |rows| ==> h(rows[i]) == f(rows[i]) + g(rows[i])
    ensures MeanOf(h, rows) == MeanOf(f, rows) + MeanOf(g, rows)
  {
    SumAdds(f, g, h, rows);
    if rows != [] { DivideAdds(Sum(f, rows), Sum(g, rows), |rows| as real); }
  }

  lemma DivideAdds(a: real, b: real, n: real)
    requires n > 0.0
    ensures (a + b) / n == a / n + b / n
  {
  }

  lemma MeanPermutes<T>(f: T -> real, a: seq<T>, b: seq<T>)
    requires multiset(a) == multiset(b)
    ensures MeanOf(f, a) == MeanOf(f, b)
  {
    assert |a| == |multiset(a)| == |multiset(b)| == |b|;
    SumPermutes(f, a, b);
  }
}
