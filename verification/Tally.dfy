/** Sums over rows and over sets of keys, and the facts that make them independent of the
    order in which a loop meets its items. */
module Tally {

  function Sum<T>(f: T -> real, rows: seq<T>): real {
    if rows == [] then 0.0 else f(rows[0]) + Sum(f, rows[1..])
  }

  lemma {:induction false} SumAppend<T>(f: T -> real, a: seq<T>, b: seq<T>)
    ensures Sum(f, a + b) == Sum(f, a) + Sum(f, b)
  {
    if a == [] {
      assert a + b == b;
    } else {
      assert (a + b)[1..] == a[1..] + b;
      SumAppend(f, a[1..], b);
    }
  }

  lemma SumSnoc<T>(f: T -> real, a: seq<T>, x: T)
    ensures Sum(f, a + [x]) == Sum(f, a) + f(x)
  {
    SumAppend(f, a, [x]);
  }

  lemma SumPrefix<T>(f: T -> real, rows: seq<T>, i: nat)
    requires i < |rows|
    ensures Sum(f, rows[..i + 1]) == Sum(f, rows[..i]) + f(rows[i])
  {
    assert rows[..i + 1] == rows[..i] + [rows[i]];
    SumSnoc(f, rows[..i], rows[i]);
  }

  function Without<T>(b: seq<T>, k: nat): seq<T>
    requires k < |b|
  {
    b[..k] + b[k + 1..]
  }

  lemma WithoutParts<T>(b: seq<T>, k: nat)
    requires k < |b|
    ensures multiset(Without(b, k)) == multiset(b) - multiset{b[k]}
  {
    assert b == b[..k] + [b[k]] + b[k + 1..];
  }

  lemma SumCons<T>(f: T -> real, x: T, rows: seq<T>)
    ensures Sum(f, [x] + rows) == f(x) + Sum(f, rows)
  {
    assert ([x] + rows)[1..] == rows;
  }

  lemma SumWithout<T>(f: T -> real, b: seq<T>, k: nat)
    requires k < |b|
    ensures Sum(f, b) == f(b[k]) + Sum(f, Without(b, k))
  {
    var init, rest := b[..k], b[k + 1..];
    assert b == init + ([b[k]] + rest);
    SumAppend(f, init, [b[k]] + rest);
    SumCons(f, b[k], rest);
    SumAppend(f, init, rest);
  }

  /** A permutation of the rows has the same sum. */
  lemma {:induction false} SumPermutes<T>(f: T -> real, a: seq<T>, b: seq<T>)
    requires multiset(a) == multiset(b)
    ensures Sum(f, a) == Sum(f, b)
    decreases |a|
  {
    assert |a| == |multiset(a)| == |multiset(b)| == |b|;
    if a != [] {
      assert a[0] in multiset(b);
      var k :| 0 <= k < |b| && b[k] == a[0];
      WithoutParts(b, k);
      WithoutParts(a, 0);
      assert Without(a, 0) == a[1..];
      SumPermutes(f, a[1..], Without(b, k));
      SumWithout(f, b, k);
    }
  }

  lemma {:induction false} SumNonNegative<T>(f: T -> real, rows: seq<T>)
    requires forall i :: 0 <= i < |rows| ==> f(rows[i]) >= 0.0
    ensures Sum(f, rows) >= 0.0
  {
    if rows != [] { SumNonNegative(f, rows[1..]); }
  }

  lemma {:induction false} SumAtLeastOne<T>(f: T -> real, rows: seq<T>, k: nat)
    requires k < |rows| && forall i :: 0 <= i < |rows| ==> f(rows[i]) >= 0.0
    ensures Sum(f, rows) >= f(rows[k])
  {
    if k == 0 {
      SumNonNegative(f, rows[1..]);
    } else {
      SumAtLeastOne(f, rows[1..], k - 1);
    }
  }

  // ---------------------------------------------------------------- sums over sets of keys

  ghost function SumOver(keys: set<string>, f: string -> real): real
    decreases |keys|
  {
    if keys == {} then 0.0
    else var k :| k in keys; f(k) + SumOver(keys - {k}, f)
  }

  /** Any key may be taken out first. */
  lemma {:induction false} SumOverTake(keys: set<string>, f: string -> real, x: string)
    requires x in keys
    ensures SumOver(keys, f) == f(x) + SumOver(keys - {x}, f)
    decreases |keys|
  {
    var k :| k in keys && SumOver(keys, f) == f(k) + SumOver(keys - {k}, f);
    if k != x {
      SumOverTake(keys - {k}, f, x);
      SumOverTake(keys - {x}, f, k);
      assert keys - {k} - {x} == keys - {x} - {k};
    }
  }

  lemma SumOverAdd(keys: set<string>, f: string -> real, x: string)
    requires x !in keys
    ensures SumOver(keys + {x}, f) == SumOver(keys, f) + f(x)
  {
    SumOverTake(keys + {x}, f, x);
    assert keys + {x} - {x} == keys;
  }

  lemma {:induction false} SumOverNonNegative(keys: set<string>, f: string -> real)
    requires forall k :: k in keys ==> f(k) >= 0.0
    ensures SumOver(keys, f) >= 0.0
    decreases |keys|
  {
    if keys != {} {
      var k :| k in keys;
      SumOverTake(keys, f, k);
      SumOverNonNegative(keys - {k}, f);
    }
  }
}
