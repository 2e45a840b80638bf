/** Walk-forward validation: the one-pass drawdown, the purged windows, the selection on
    training rows, and the order of canonical folds. */
module WalkForward {
  import opened Numbers
  import Tally
  import opened Wrappers

  // ---------------------------------------------------------------- drawdown

  /** Equity after the first `k` returns. */
  function Equity(path: seq<real>, k: nat): real
    requires k <= |path|
  {
    if k == 0 then 0.0 else Equity(path, k - 1) + path[k - 1]
  }

  function Drop(path: seq<real>, i: nat, j: nat): real
    requires i <= |path| && j <= |path|
  {
    Equity(path, i) - Equity(path, j)
  }

  /** The greatest fall from any earlier point to any later one among the first `n`. */
  ghost predicate FallsTo(path: seq<real>, n: nat, d: real) {
    && n <= |path|
    && (exists i: nat, j: nat :: i <= j <= n && Drop(path, i, j) == d)
    && (forall i: nat, j: nat :: i <= j <= n ==> Drop(path, i, j) <= d)
  }

  ghost predicate IsDrawdown(path: seq<real>, d: real) { FallsTo(path, |path|, d) }

  ghost predicate PeaksAt(path: seq<real>, n: nat, p: nat) {
    p <= n <= |path| && forall i: nat :: i <= n ==> Drop(path, i, p) <= 0.0
  }

  lemma PeakStep(path: seq<real>, n: nat, p: nat)
    requires n < |path| && PeaksAt(path, n, p)
    ensures PeaksAt(path, n + 1, if Equity(path, p) >= Equity(path, n + 1) then p else n + 1)
  {
    forall i: nat | i <= n ensures Equity(path, i) <= Equity(path, p) { assert Drop(path, i, p) <= 0.0; }
  }

  lemma FallStep(path: seq<real>, n: nat, p: nat, d: real)
    requires n < |path| && PeaksAt(path, n + 1, p) && FallsTo(path, n, d)
    ensures FallsTo(path, n + 1, Max(d, Drop(path, p, n + 1)))
  {
    var e := Max(d, Drop(path, p, n + 1));
    var i: nat, j: nat :| i <= j <= n && Drop(path, i, j) == d;
    assert Drop(path, i, j) == e || Drop(path, p, n + 1) == e;
    forall x: nat, y: nat | x <= y <= n + 1 ensures Drop(path, x, y) <= e {
      if y == n + 1 { assert Drop(path, x, p) <= 0.0; }
    }
  }

  /** One pass over the returns. */
  method MaxDrawdown(path: seq<real>) returns (d: real)
    ensures IsDrawdown(path, d)
  {
    var equity, peak := 0.0, 0.0;
    d := 0.0;
    ghost var p: nat := 0;
    assert Drop(path, 0, 0) == 0.0;
    for n := 0 to |path|
      invariant PeaksAt(path, n, p) && FallsTo(path, n, d) && equity == Equity(path, n) && peak == Equity(path, p)
    {
      PeakStep(path, n, p);
      equity := equity + path[n];
      p := if peak >= equity then p else n + 1;
      FallStep(path, n, p, d);
      peak := Max(peak, equity);
      d := Max(d, peak - equity);
    }
  }

  lemma DrawdownUnique(path: seq<real>, d: real, e: real)
    requires IsDrawdown(path, d) && IsDrawdown(path, e)
    ensures d == e && d >= 0.0
  {
    assert Drop(path, 0, 0) <= d;
  }

  lemma {:induction false} DrawdownExists(path: seq<real>, n: nat) returns (p: nat, d: real)
    requires n <= |path|
    ensures PeaksAt(path, n, p) && FallsTo(path, n, d)
  {
    if n == 0 {
      p, d := 0, 0.0;
      assert Drop(path, 0, 0) == 0.0;
    } else {
      p, d := DrawdownExists(path, n - 1);
      PeakStep(path, n - 1, p);
      p := if Equity(path, p) >= Equity(path, n) then p else n;
      FallStep(path, n - 1, p, d);
      d := Max(d, Drop(path, p, n));
    }
  }

  lemma {:induction false} EquityOfFront(a: seq<real>, b: seq<real>, k: nat)
    requires k <= |a|
    ensures Equity(a + b, k) == Equity(a, k)
  {
    if k > 0 { EquityOfFront(a, b, k - 1); }
  }

  lemma {:induction false} EquityOfBack(a: seq<real>, b: seq<real>, k: nat)
    requires k <= |b|
    ensures Equity(a + b, |a| + k) == Equity(a, |a|) + Equity(b, k)
  {
    if k == 0 { EquityOfFront(a, b, |a|); } else { EquityOfBack(a, b, k - 1); }
  }

  lemma FrontDrop(a: seq<real>, b: seq<real>, i: nat, j: nat)
    requires i <= |a| && j <= |a|
    ensures Drop(a + b, i, j) == Drop(a, i, j)
  {
    EquityOfFront(a, b, i);
    EquityOfFront(a, b, j);
  }

  lemma BackDrop(a: seq<real>, b: seq<real>, i: nat, j: nat)
    requires i <= |b| && j <= |b|
    ensures Drop(a + b, |a| + i, |a| + j) == Drop(b, i, j)
  {
    EquityOfBack(a, b, i);
    EquityOfBack(a, b, j);
  }

  lemma AcrossDrop(a: seq<real>, b: seq<real>, i: nat, j: nat)
    requires i <= |a| && j <= |b|
    ensures Drop(a + b, i, |a| + j) == Drop(a, i, |a|) + Drop(b, 0, j)
  {
    EquityOfFront(a, b, i);
    EquityOfBack(a, b, j);
  }

  lemma PartsFallLess(a: seq<real>, b: seq<real>, x: real, y: real, z: real)
    requires IsDrawdown(a, x) && IsDrawdown(b, y) && IsDrawdown(a + b, z)
    ensures x <= z && y <= z
  {
    var i: nat, j: nat :| i <= j <= |a| && Drop(a, i, j) == x;
    FrontDrop(a, b, i, j);
    var k: nat, l: nat :| k <= l <= |b| && Drop(b, k, l) == y;
    BackDrop(a, b, k, l);
    assert Drop(a + b, |a| + k, |a| + l) <= z;
  }

  /** A fall across two paths is a fall in each. */
  lemma FallsSplit(a: seq<real>, b: seq<real>, x: real, y: real, z: real)
    requires IsDrawdown(a, x) && IsDrawdown(b, y) && IsDrawdown(a + b, z)
    ensures z <= x + y
  {
    DrawdownUnique(a, x, x);
    DrawdownUnique(b, y, y);
    var i: nat, j: nat :| i <= j <= |a + b| && Drop(a + b, i, j) == z;
    if j <= |a| {
      FrontDrop(a, b, i, j);
    } else if i >= |a| {
      BackDrop(a, b, i - |a|, j - |a|);
    } else {
      AcrossDrop(a, b, i, j - |a|);
    }
  }

  function Concat(paths: seq<seq<real>>): seq<real> {
    if paths == [] then [] else Concat(paths[..|paths| - 1]) + paths[|paths| - 1]
  }

  function Itself(): real -> real { x => x }

  /** The drawdown of the whole out-of-sample path is at least that of every window and at
      most their sum. */
  lemma {:induction false} WindowsBound(paths: seq<seq<real>>, ds: seq<real>, total: real)
    requires |ds| == |paths| && IsDrawdown(Concat(paths), total)
    requires forall k :: 0 <= k < |paths| ==> IsDrawdown(paths[k], ds[k])
    ensures forall k :: 0 <= k < |paths| ==> ds[k] <= total
    ensures total <= Tally.Sum(Itself(), ds)
  {
    if paths == [] {
      var i: nat, j: nat :| i <= j <= |Concat(paths)| && Drop(Concat(paths), i, j) == total;
    } else {
      var n := |paths| - 1;
      var peak, front := DrawdownExists(Concat(paths[..n]), |Concat(paths[..n])|);
      WindowsBound(paths[..n], ds[..n], front);
      Tally.SumPrefix(Itself(), ds, n);
      assert ds[..n + 1] == ds;
      PartsFallLess(Concat(paths[..n]), paths[n], front, ds[n], total);
      FallsSplit(Concat(paths[..n]), paths[n], front, ds[n], total);
      forall k | 0 <= k < n ensures ds[k] <= total { assert ds[..n][k] <= front; }
    }
  }

  // ---------------------------------------------------------------- windows

  datatype Window = Window(start: int, trainEnd: int, testStart: int, testEnd: int)

  function WindowAt(start: int, train: int, embargo: int, test: int): Window {
    Window(start, start + train, start + train + embargo, start + train + embargo + test)
  }

  predicate SizesOk(train: int, test: int, step: int, embargo: int) {
    train > 0 && test > 0 && step > 0 && embargo >= 0
  }

  /** The window that starts after `k` steps ends within the data. */
  predicate FitsAt(height: nat, size: int, step: int, k: nat) { k * step + size <= height }

  function Size(train: int, test: int, embargo: int): int { train + embargo + test }

  /** Exactly the windows that fit, one every `step` rows. */
  ghost predicate AllWindows(ws: seq<Window>, height: nat, train: int, test: int, step: int, embargo: int) {
    && (forall k :: 0 <= k < |ws| ==> ws[k] == WindowAt(k * step, train, embargo, test))
    && (forall k: nat :: k < |ws| <==> FitsAt(height, Size(train, test, embargo), step, k))
  }

  method WindowSlices(height: nat, train: int, test: int, step: int, embargo: int) returns (r: Option<seq<Window>>)
    ensures r.Some? <==> SizesOk(train, test, step, embargo)
    ensures r.Some? ==> AllWindows(r.value, height, train, test, step, embargo)
  {
    if train <= 0 || test <= 0 || step <= 0 || embargo < 0 { return None; }
    var ws: seq<Window> := [];
    var start := 0;
    while start + train + embargo + test <= height
      invariant start == |ws| * step && (|ws| > 0 ==> FitsAt(height, Size(train, test, embargo), step, |ws| - 1))
      invariant forall k :: 0 <= k < |ws| ==> ws[k] == WindowAt(k * step, train, embargo, test)
      decreases height - start
    {
      NextStart(|ws|, step);
      ws := ws + [WindowAt(start, train, embargo, test)];
      start := start + step;
    }
    FittingIsPrefix(height, Size(train, test, embargo), step, |ws|);
    r := Some(ws);
  }

  lemma NextStart(k: int, step: int)
    ensures (k + 1) * step == k * step + step
  {
  }

  lemma FittingIsPrefix(height: nat, size: int, step: int, n: nat)
    requires step > 0 && !FitsAt(height, size, step, n) && (n > 0 ==> FitsAt(height, size, step, n - 1))
    ensures forall k: nat :: k < n <==> FitsAt(height, size, step, k)
  {
    forall k: nat ensures k < n <==> FitsAt(height, size, step, k) {
      if k < n { ScaledOrder(k, n - 1, step); } else { ScaledOrder(n, k, step); }
    }
  }

  lemma ScaledOrder(a: int, b: int, step: int)
    requires a <= b && step > 0
    ensures a * step <= b * step
  {
  }

  /** Each window is in bounds, its training rows end before its embargo and its test rows
      follow at once. */
  lemma WindowsAreSound(ws: seq<Window>, height: nat, train: int, test: int, step: int, embargo: int, k: nat)
    requires SizesOk(train, test, step, embargo) && AllWindows(ws, height, train, test, step, embargo) && k < |ws|
    ensures 0 <= ws[k].start < ws[k].trainEnd <= ws[k].testStart < ws[k].testEnd <= height
    ensures ws[k].testStart == ws[k].trainEnd + embargo && ws[k].testEnd == ws[k].testStart + test
  {
    assert FitsAt(height, Size(train, test, embargo), step, k);
    ScaledOrder(0, k, step);
  }

  predicate Apart(a: Window, b: Window) { a.testEnd <= b.testStart || b.testEnd <= a.testStart }

  ghost predicate TestsApart(ws: seq<Window>) { forall i, j :: 0 <= i < j < |ws| ==> Apart(ws[i], ws[j]) }

  /** Test windows are pairwise disjoint exactly when the step is no shorter than the test,
      as soon as there are two windows. */
  lemma TestsApartIff(ws: seq<Window>, height: nat, train: int, test: int, step: int, embargo: int)
    requires SizesOk(train, test, step, embargo) && AllWindows(ws, height, train, test, step, embargo) && |ws| >= 2
    ensures TestsApart(ws) <==> step >= test
  {
    if step >= test {
      forall i, j | 0 <= i < j < |ws| ensures Apart(ws[i], ws[j]) {
        ScaledOrder(i + 1, j, step);
      }
    } else {
      assert ws[1].start == 1 * step && ws[0].start == 0 * step;
      assert !Apart(ws[0], ws[1]);
    }
  }

  // ---------------------------------------------------------------- selection

  datatype Outcome = Outcome(trades: nat, edge: real, total: real)

  /** What the selection compares: no trades ranks below everything. */
  datatype Score = Unscored | Scored(edge: real, total: real, trades: nat)

  predicate Better(a: Score, b: Score) {
    match (a, b)
    case (Unscored, _) => false
    case (Scored(_, _, _), Unscored) => true
    case (Scored(e, t, n), Scored(f, u, m)) => e > f || (e == f && (t > u || (t == u && n > m)))
  }

  /** Few trades are discounted by an uncertainty that shrinks with their root. */
  function ScoreOf(root: real -> real, o: Outcome): Score {
    if o.trades == 0 then Unscored
    else
      var penalty := if o.trades < 4 && root(o.trades as real) != 0.0 then Abs(o.edge) / root(o.trades as real)
        else 0.0;
      Scored(o.edge - penalty, o.total, o.trades)
  }

  /** The first candidate no other beats. */
  ghost predicate FirstBest(scores: seq<Score>, i: nat) {
    && i < |scores| && (forall j :: 0 <= j < |scores| ==> !Better(scores[j], scores[i]))
    && (forall j :: 0 <= j < i ==> Better(scores[i], scores[j]))
  }

  function Scores<R, P>(run: (seq<R>, P) -> Outcome, root: real -> real, train: seq<R>,
                        candidates: seq<P>): seq<Score> {
    seq(|candidates|, i requires 0 <= i < |candidates| => ScoreOf(root, run(train, candidates[i])))
  }

  method SelectOnTrain<R, P>(run: (seq<R>, P) -> Outcome, root: real -> real, train: seq<R>, candidates: seq<P>)
      returns (chosen: Option<nat>)
    ensures chosen.Some? <==> candidates != []
    ensures chosen.Some? ==> FirstBest(Scores(run, root, train, candidates), chosen.value)
  {
    if candidates == [] { return None; }
    ghost var scores := Scores(run, root, train, candidates);
    var best := 0;
    var top := ScoreOf(root, run(train, candidates[0]));
    for i := 1 to |candidates|
      invariant best < i && top == scores[best]
      invariant forall j :: 0 <= j < i ==> !Better(scores[j], top)
      invariant forall j :: 0 <= j < best ==> Better(top, scores[j])
    {
      var s := ScoreOf(root, run(train, candidates[i]));
      if Better(s, top) { best, top := i, s; }
    }
    chosen := Some(best);
  }

  lemma FirstBestUnique(scores: seq<Score>, i: nat, j: nat)
    requires FirstBest(scores, i) && FirstBest(scores, j)
    ensures i == j
  {
    assert !Better(scores[j], scores[i]) && !Better(scores[i], scores[j]);
  }

  /** The same training rows give the same choice. */
  lemma SameTrainingSameChoice<R, P>(run: (seq<R>, P) -> Outcome, root: real -> real, a: seq<R>, b: seq<R>, w: Window,
                                     candidates: seq<P>, i: nat, j: nat)
    requires 0 <= w.start <= w.trainEnd <= |a| && w.trainEnd <= |b| && a[..w.trainEnd] == b[..w.trainEnd]
    requires FirstBest(Scores(run, root, a[w.start..w.trainEnd], candidates), i)
    requires FirstBest(Scores(run, root, b[w.start..w.trainEnd], candidates), j)
    ensures i == j
  {
    assert a[w.start..w.trainEnd] == a[..w.trainEnd][w.start..] == b[..w.trainEnd][w.start..] == b[w.start..w.trainEnd];
    FirstBestUnique(Scores(run, root, a[w.start..w.trainEnd], candidates), i, j);
  }

  // ---------------------------------------------------------------- sorting the frame

  /** The rows of a frame by time; rows of one time come in any order. */
  ghost predicate SortOf<R>(time: R -> real, data: seq<R>, frame: seq<R>) {
    multiset(data) == multiset(frame) && forall i, j :: 0 <= i < j < |data| ==> time(data[i]) <= time(data[j])
  }

  /** Before the cutoff no two rows have one time, and none is repeated. */
  ghost predicate UniqueBefore<R(!new)>(time: R -> real, frame: seq<R>, cutoff: real) {
    && (forall r, s :: r in frame && s in frame && time(r) == time(s) < cutoff ==> r == s)
    && (forall r :: r in frame && time(r) < cutoff ==> multiset(frame)[r] == 1)
  }

  ghost predicate SameBefore<R(!new)>(time: R -> real, f: seq<R>, g: seq<R>, cutoff: real) {
    forall r :: time(r) < cutoff ==> (r in f <==> r in g)
  }

  lemma RepeatedCounts<R>(a: seq<R>, i: nat, j: nat)
    requires i < j < |a| && a[i] == a[j]
    ensures multiset(a)[a[i]] >= 2
  {
    assert a == a[..j] + a[j..];
    assert a[i] in a[..j] && a[j] in a[j..];
  }

  /** Early rows of a sorted frame are strictly in order. */
  lemma EarlyIsStrict<R(!new)>(time: R -> real, data: seq<R>, frame: seq<R>, cutoff: real, i: nat, j: nat)
    requires SortOf(time, data, frame) && UniqueBefore(time, frame, cutoff)
    requires i < j < |data| && time(data[i]) < cutoff
    ensures time(data[i]) < time(data[j])
  {
    if time(data[i]) == time(data[j]) {
      assert data[i] in multiset(frame) && data[j] in multiset(frame);
      RepeatedCounts(data, i, j);
    }
  }

  /** Two frames that agree before the cutoff sort to the same early rows. */
  lemma {:induction false} EarlyRowsAgree<R(!new)>(time: R -> real, a: seq<R>, f: seq<R>, b: seq<R>, g: seq<R>,
                                                   cutoff: real, k: nat)
    requires SortOf(time, a, f) && SortOf(time, b, g) && SameBefore(time, f, g, cutoff)
    requires UniqueBefore(time, f, cutoff) && UniqueBefore(time, g, cutoff)
    requires k <= |a| && forall i :: 0 <= i < k ==> time(a[i]) < cutoff
    ensures k <= |b| && a[..k] == b[..k]
  {
    if k > 0 {
      var n := k - 1;
      EarlyRowsAgree(time, a, f, b, g, cutoff, n);
      var j := IndexBeyond(time, a, f, b, g, cutoff, n);
      var i := IndexBeyond(time, b, g, a, f, cutoff, n);
      if i > n { EarlyIsStrict(time, a, f, cutoff, n, i); }
      assert a[..k] == a[..n] + [a[n]] && b[..k] == b[..n] + [b[n]];
    }
  }

  /** Where the next early row of one sorted frame stands in the other. */
  lemma IndexBeyond<R(!new)>(time: R -> real, a: seq<R>, f: seq<R>, b: seq<R>, g: seq<R>, cutoff: real, n: nat)
      returns (j: nat)
    requires SortOf(time, a, f) && SortOf(time, b, g) && SameBefore(time, f, g, cutoff) && UniqueBefore(time, f, cutoff)
    requires n < |a| && n <= |b| && a[..n] == b[..n] && time(a[n]) < cutoff
    ensures n <= j < |b| && b[j] == a[n] && time(b[n]) <= time(a[n])
  {
    assert a[n] in multiset(f) && a[n] in multiset(g) && a[n] in multiset(b);
    j :| 0 <= j < |b| && b[j] == a[n];
    if j < n {
      assert a[j] == a[..n][j] == b[..n][j] == b[j];
      EarlyIsStrict(time, a, f, cutoff, j, n);
    }
  }

  /** Rows dated from the cutoff on, wherever a frame lists them, do not touch a training
      window that ends before it, so they do not influence the chosen parameters. */
  lemma SelectionSeesOnlyEarlier<R(!new), P>(time: R -> real, run: (seq<R>, P) -> Outcome, root: real -> real,
                                             a: seq<R>, f: seq<R>, b: seq<R>, g: seq<R>, cutoff: real, w: Window,
                                             candidates: seq<P>, i: nat, j: nat)
    requires SortOf(time, a, f) && SortOf(time, b, g) && SameBefore(time, f, g, cutoff)
    requires UniqueBefore(time, f, cutoff) && UniqueBefore(time, g, cutoff)
    requires 0 <= w.start <= w.trainEnd <= |a| && (w.trainEnd == 0 || time(a[w.trainEnd - 1]) < cutoff)
      && w.trainEnd <= |b|
    requires FirstBest(Scores(run, root, a[w.start..w.trainEnd], candidates), i)
    requires FirstBest(Scores(run, root, b[w.start..w.trainEnd], candidates), j)
    ensures a[w.start..w.trainEnd] == b[w.start..w.trainEnd] && i == j
  {
    EarlyRowsAgree(time, a, f, b, g, cutoff, w.trainEnd);
    assert a[w.start..w.trainEnd] == a[..w.trainEnd][w.start..] == b[..w.trainEnd][w.start..] == b[w.start..w.trainEnd];
    SameTrainingSameChoice(run, root, a, b, w, candidates, i, j);
  }

  // ---------------------------------------------------------------- canonical folds

  datatype Range = Range(start: real, end: real)

  /** A data set's range, which its manifest refuses to run backwards. */
  type Span = r: Range | r.start <= r.end witness Range(0.0, 0.0)

  /** Times are numbers; an embargo that is not finite is refused. */
  datatype Fold = Fold(train: Span, test: Span, embargo: Option<real>)

  predicate Purged(f: Fold) {
    f.embargo.Some? && f.embargo.value >= 0.0 && f.train.end + f.embargo.value <= f.test.start
  }

  predicate FoldsAccepted(folds: seq<Fold>) {
    && (forall i :: 0 <= i < |folds| ==> Purged(folds[i]))
    && (forall i :: 0 < i < |folds| ==> folds[i - 1].test.end <= folds[i].test.start)
  }

  method CheckFolds(folds: seq<Fold>) returns (accepted: bool)
    ensures accepted <==> FoldsAccepted(folds)
  {
    var previousTestEnd: Option<real> := None;
    for i := 0 to |folds|
      invariant FoldsAccepted(folds[..i])
      invariant previousTestEnd == if i == 0 then None else Some(folds[i - 1].test.end)
    {
      var f := folds[i];
      if f.embargo.None? || f.embargo.value < 0.0 { assert !Purged(folds[i]); return false; }
      if f.train.end + f.embargo.value > f.test.start { assert !Purged(folds[i]); return false; }
      if previousTestEnd.Some? && f.test.start < previousTestEnd.value { return false; }
      previousTestEnd := Some(f.test.end);
    }
    assert folds[..|folds|] == folds;
    accepted := true;
  }

  /** The tests of accepted folds are ordered pairwise, not only side by side, and each one's
      whole training data lies before its test and every later one. */
  lemma {:induction false} FoldsAreOrdered(folds: seq<Fold>, i: nat, j: nat)
    requires FoldsAccepted(folds) && i < j < |folds|
    ensures folds[i].test.end <= folds[j].test.start
    ensures folds[i].train.start <= folds[i].train.end <= folds[i].test.start <= folds[j].test.start
  {
    assert Purged(folds[i]);
    if i + 1 < j {
      FoldsAreOrdered(folds, i, j - 1);
      assert folds[j - 1].test.end <= folds[j].test.start;
    }
  }
}
