/** Hierarchical cost calibration: sparse buckets shrunk through broader parents. */
module Calibration {
  import opened Quantile

  datatype Component = Fee | Spread | Impact | Markout | Legging

  const COMPONENTS: seq<Component> := [Fee, Spread, Impact, Markout, Legging]

  datatype Observation = Observation(id: string, symbol: string, market: string, route: string, regime: string,
                                     fee: real, spread: real, impact: real, markout: real, legging: real,
                                     notional: real, observedAt: string, horizon: real)

  /** One measured quantity of a sample. */
  type Field = Observation -> real

  function Of(c: Component): Field {
    match c
    case Fee => (o: Observation) => o.fee
    case Spread => (o: Observation) => o.spread
    case Impact => (o: Observation) => o.impact
    case Markout => (o: Observation) => o.markout
    case Legging => (o: Observation) => o.legging
  }

  function Total(): Field { (o: Observation) => o.fee + o.spread + o.impact + o.markout + o.legging }

  datatype Query = Query(symbol: string, market: string, route: string, regime: string)

  datatype Buckets = Buckets(all: seq<Observation>, market: seq<Observation>, route: seq<Observation>,
                             symbolRoute: seq<Observation>, routeRegime: seq<Observation>, exact: seq<Observation>)

  function Filter(keep: Observation -> bool, rows: seq<Observation>): seq<Observation> {
    if rows == [] then []
    else if keep(rows[0]) then [rows[0]] + Filter(keep, rows[1..])
    else Filter(keep, rows[1..])
  }

  function BucketsOf(rows: seq<Observation>, q: Query): Buckets {
    var market := Filter((o: Observation) => o.market == q.market, rows);
    var route := Filter((o: Observation) => o.route == q.route, market);
    var symbolRoute := Filter((o: Observation) => o.symbol == q.symbol, route);
    Buckets(rows, market, route, symbolRoute,
            Filter((o: Observation) => o.regime == q.regime, route),
            Filter((o: Observation) => o.regime == q.regime, symbolRoute))
  }

  // ---------------------------------------------------------------- the combination

  /** A statistic of a bucket: a mean or a quantile of one field. */
  type Stat = seq<Observation> -> real

  function MeanStat(f: Field): Stat { rows => MeanOf(f, rows) }

  function QuantileStat(f: Field, p: real): Stat
    requires 0.0 <= p <= 1.0
  {
    rows => QuantileOf(f, rows, p)
  }

  function Weight(n: nat, strength: real): real
    requires strength > 0.0
  {
    n as real / (n as real + strength)
  }

  function Convex(w: real, a: real, b: real): real { w * a + (1.0 - w) * b }

  function Shrink(stat: Stat, rows: seq<Observation>, prior: real, strength: real): real
    requires strength > 0.0
  {
    if rows == [] then prior else Convex(Weight(|rows|, strength), stat(rows), prior)
  }

  function Mix(x: real, y: real, v: real, w: real): real
    requires v > 0.0 && w > 0.0
  {
    (x * v + y * w) / (v + w)
  }

  function Capped(n: nat, strength: real): real { if n as real <= strength then n as real else strength }

  /** The parent of the exact bucket mixes its symbol and regime parents where both exist. */
  function Parent(stat: Stat, b: Buckets, route: real, strength: real): real
    requires strength > 0.0
  {
    var bySymbol := Shrink(stat, b.symbolRoute, route, strength);
    var byRegime := Shrink(stat, b.routeRegime, route, strength);
    if b.symbolRoute != [] && b.routeRegime != [] then
      Mix(bySymbol, byRegime, Capped(|b.symbolRoute|, strength), Capped(|b.routeRegime|, strength))
    else if b.symbolRoute != [] then bySymbol
    else if b.routeRegime != [] then byRegime
    else route
  }

  function RouteLevel(stat: Stat, b: Buckets, strength: real): real
    requires strength > 0.0
  {
    Shrink(stat, b.route, Shrink(stat, b.market, stat(b.all), strength), strength)
  }

  /** The estimate of one statistic; mean and quantile go through the same combination. */
  function Estimate(stat: Stat, b: Buckets, strength: real): real
    requires strength > 0.0
  {
    Shrink(stat, b.exact, Parent(stat, b, RouteLevel(stat, b, strength), strength), strength)
  }

  // ---------------------------------------------------------------- convexity

  lemma WeightIsFraction(n: nat, strength: real)
    requires strength > 0.0
    ensures 0.0 <= Weight(n, strength) <= 1.0
  {
    DivideBounds(n as real, n as real + strength, 0.0, 1.0);
  }

  lemma ConvexGrows(w: real, a: real, b: real, c: real, d: real)
    requires 0.0 <= w <= 1.0 && a <= c && b <= d
    ensures Convex(w, a, b) <= Convex(w, c, d)
  {
    NonNegativeProduct(w, c - a);
    NonNegativeProduct(1.0 - w, d - b);
  }

  lemma ConvexBounds(w: real, a: real, b: real, lo: real, hi: real)
    requires 0.0 <= w <= 1.0 && lo <= a <= hi && lo <= b <= hi
    ensures lo <= Convex(w, a, b) <= hi
  {
    ConvexGrows(w, lo, lo, a, b);
    ConvexGrows(w, a, b, hi, hi);
  }

  /** The mixture is a convex combination whose weight depends on the counts only. */
  lemma MixIsConvex(a: real, b: real, v: real, w: real)
    requires v > 0.0 && w > 0.0
    ensures 0.0 <= v / (v + w) <= 1.0
    ensures Mix(a, b, v, w) == Convex(v / (v + w), a, b)
  {
    DivideBounds(v, v + w, 0.0, 1.0);
    var n := v + w;
    var x := v / n;
    assert n * x == v && n * (1.0 - x) == w;
    var c := Convex(x, a, b);
    assert n * c == (n * x) * a + (n * (1.0 - x)) * b;
    DivideExact(n, c, a * v + b * w);
  }

  lemma MixGrows(a: real, b: real, c: real, d: real, v: real, w: real)
    requires v > 0.0 && w > 0.0 && a <= c && b <= d
    ensures Mix(a, b, v, w) <= Mix(c, d, v, w)
  {
    MixIsConvex(a, b, v, w);
    MixIsConvex(c, d, v, w);
    ConvexGrows(v / (v + w), a, b, c, d);
  }

  lemma MixBounds(a: real, b: real, v: real, w: real, lo: real, hi: real)
    requires v > 0.0 && w > 0.0 && lo <= a <= hi && lo <= b <= hi
    ensures lo <= Mix(a, b, v, w) <= hi
  {
    MixIsConvex(a, b, v, w);
    ConvexBounds(v / (v + w), a, b, lo, hi);
  }

  lemma MixAdds(a: real, b: real, c: real, d: real, v: real, w: real)
    requires v > 0.0 && w > 0.0
    ensures Mix(a + c, b + d, v, w) == Mix(a, b, v, w) + Mix(c, d, v, w)
  {
    MixIsConvex(a, b, v, w);
    MixIsConvex(c, d, v, w);
    MixIsConvex(a + c, b + d, v, w);
    ConvexAdds(v / (v + w), a, b, c, d);
  }

  lemma DivideExact(n: real, c: real, total: real)
    requires n > 0.0 && n * c == total
    ensures total / n == c
  {
    var q := total / n;
    assert n * q == total;
    if q < c { ScaleGrows(n, q, c); }
    if q > c { ScaleGrows(n, c, q); }
  }

  // ---------------------------------------------------------------- what holds of every estimate

  predicate IsBucket(b: Buckets, rows: seq<Observation>) {
    rows == b.all || rows == b.market || rows == b.route || rows == b.symbolRoute || rows == b.routeRegime
      || rows == b.exact
  }

  lemma ShrinkBounds(stat: Stat, rows: seq<Observation>, prior: real, strength: real, lo: real, hi: real)
    requires strength > 0.0 && lo <= prior <= hi && (rows != [] ==> lo <= stat(rows) <= hi)
    ensures lo <= Shrink(stat, rows, prior, strength) <= hi
  {
    if rows != [] {
      WeightIsFraction(|rows|, strength);
      ConvexBounds(Weight(|rows|, strength), stat(rows), prior, lo, hi);
    }
  }

  lemma ParentBounds(stat: Stat, b: Buckets, route: real, strength: real, lo: real, hi: real)
    requires strength > 0.0 && lo <= route <= hi
    requires forall rows :: IsBucket(b, rows) && rows != [] ==> lo <= stat(rows) <= hi
    ensures lo <= Parent(stat, b, route, strength) <= hi
  {
    ShrinkBounds(stat, b.symbolRoute, route, strength, lo, hi);
    ShrinkBounds(stat, b.routeRegime, route, strength, lo, hi);
    if b.symbolRoute != [] && b.routeRegime != [] {
      MixBounds(Shrink(stat, b.symbolRoute, route, strength), Shrink(stat, b.routeRegime, route, strength),
                Capped(|b.symbolRoute|, strength), Capped(|b.routeRegime|, strength), lo, hi);
    }
  }

  /** An estimate stays between any bounds of its statistic over the buckets. */
  lemma EstimateBounds(stat: Stat, b: Buckets, strength: real, lo: real, hi: real)
    requires strength > 0.0 && b.all != []
    requires forall rows :: IsBucket(b, rows) && rows != [] ==> lo <= stat(rows) <= hi
    ensures lo <= Estimate(stat, b, strength) <= hi
  {
    ShrinkBounds(stat, b.market, stat(b.all), strength, lo, hi);
    ShrinkBounds(stat, b.route, Shrink(stat, b.market, stat(b.all), strength), strength, lo, hi);
    ParentBounds(stat, b, RouteLevel(stat, b, strength), strength, lo, hi);
    ShrinkBounds(stat, b.exact, Parent(stat, b, RouteLevel(stat, b, strength), strength), strength, lo, hi);
  }

  lemma ShrinkGrows(f: Stat, g: Stat, rows: seq<Observation>, x: real, y: real, strength: real)
    requires strength > 0.0 && x <= y && f(rows) <= g(rows)
    ensures Shrink(f, rows, x, strength) <= Shrink(g, rows, y, strength)
  {
    if rows != [] {
      WeightIsFraction(|rows|, strength);
      ConvexGrows(Weight(|rows|, strength), f(rows), x, g(rows), y);
    }
  }

  lemma ParentGrows(f: Stat, g: Stat, b: Buckets, x: real, y: real, strength: real)
    requires strength > 0.0 && x <= y && (forall rows :: IsBucket(b, rows) ==> f(rows) <= g(rows))
    ensures Parent(f, b, x, strength) <= Parent(g, b, y, strength)
  {
    ShrinkGrows(f, g, b.symbolRoute, x, y, strength);
    ShrinkGrows(f, g, b.routeRegime, x, y, strength);
    if b.symbolRoute != [] && b.routeRegime != [] {
      MixGrows(Shrink(f, b.symbolRoute, x, strength), Shrink(f, b.routeRegime, x, strength),
               Shrink(g, b.symbolRoute, y, strength), Shrink(g, b.routeRegime, y, strength),
               Capped(|b.symbolRoute|, strength), Capped(|b.routeRegime|, strength));
    }
  }

  /** A statistic that is larger on every bucket gives a larger estimate. */
  lemma EstimateGrows(f: Stat, g: Stat, b: Buckets, strength: real)
    requires strength > 0.0 && forall rows :: IsBucket(b, rows) ==> f(rows) <= g(rows)
    ensures Estimate(f, b, strength) <= Estimate(g, b, strength)
  {
    ShrinkGrows(f, g, b.market, f(b.all), g(b.all), strength);
    ShrinkGrows(f, g, b.route, Shrink(f, b.market, f(b.all), strength), Shrink(g, b.market, g(b.all), strength),
                strength);
    ParentGrows(f, g, b, RouteLevel(f, b, strength), RouteLevel(g, b, strength), strength);
    ShrinkGrows(f, g, b.exact, Parent(f, b, RouteLevel(f, b, strength), strength),
                Parent(g, b, RouteLevel(g, b, strength), strength), strength);
  }

  lemma ConvexAdds(w: real, a: real, b: real, c: real, d: real)
    ensures Convex(w, a + c, b + d) == Convex(w, a, b) + Convex(w, c, d)
  {
  }

  lemma ShrinkAdds(f: Stat, g: Stat, h: Stat, rows: seq<Observation>, x: real, y: real, strength: real)
    requires strength > 0.0 && h(rows) == f(rows) + g(rows)
    ensures Shrink(h, rows, x + y, strength) == Shrink(f, rows, x, strength) + Shrink(g, rows, y, strength)
  {
    if rows != [] { ConvexAdds(Weight(|rows|, strength), f(rows), x, g(rows), y); }
  }

  lemma ParentAdds(f: Stat, g: Stat, h: Stat, b: Buckets, x: real, y: real, strength: real)
    requires strength > 0.0 && (forall rows :: IsBucket(b, rows) ==> h(rows) == f(rows) + g(rows))
    ensures Parent(h, b, x + y, strength) == Parent(f, b, x, strength) + Parent(g, b, y, strength)
  {
    ShrinkAdds(f, g, h, b.symbolRoute, x, y, strength);
    ShrinkAdds(f, g, h, b.routeRegime, x, y, strength);
    if b.symbolRoute != [] && b.routeRegime != [] {
      MixAdds(Shrink(f, b.symbolRoute, x, strength), Shrink(f, b.routeRegime, x, strength),
              Shrink(g, b.symbolRoute, y, strength), Shrink(g, b.routeRegime, y, strength),
              Capped(|b.symbolRoute|, strength), Capped(|b.routeRegime|, strength));
    }
  }

  /** Estimates add wherever their statistics do, since every weight depends on counts only. */
  lemma EstimateAdds(f: Stat, g: Stat, h: Stat, b: Buckets, strength: real)
    requires strength > 0.0 && forall rows :: IsBucket(b, rows) ==> h(rows) == f(rows) + g(rows)
    ensures Estimate(h, b, strength) == Estimate(f, b, strength) + Estimate(g, b, strength)
  {
    ShrinkAdds(f, g, h, b.market, f(b.all), g(b.all), strength);
    ShrinkAdds(f, g, h, b.route, Shrink(f, b.market, f(b.all), strength), Shrink(g, b.market, g(b.all), strength),
               strength);
    ParentAdds(f, g, h, b, RouteLevel(f, b, strength), RouteLevel(g, b, strength), strength);
    ShrinkAdds(f, g, h, b.exact, Parent(f, b, RouteLevel(f, b, strength), strength),
               Parent(g, b, RouteLevel(g, b, strength), strength), strength);
  }

  function Plus(f: Field, g: Field): Field { (o: Observation) => f(o) + g(o) }

  lemma MeanEstimateAdds(f: Field, g: Field, h: Field, b: Buckets, strength: real)
    requires strength > 0.0 && forall o :: h(o) == f(o) + g(o)
    ensures Estimate(MeanStat(h), b, strength)
      == Estimate(MeanStat(f), b, strength) + Estimate(MeanStat(g), b, strength)
  {
    forall rows | IsBucket(b, rows) ensures MeanStat(h)(rows) == MeanStat(f)(rows) + MeanStat(g)(rows) {
      MeanAdds(f, g, h, rows);
    }
    EstimateAdds(MeanStat(f), MeanStat(g), MeanStat(h), b, strength);
  }

  function MeanEstimate(f: Field, b: Buckets, strength: real): real
    requires strength > 0.0
  {
    Estimate(MeanStat(f), b, strength)
  }

  /** Attribution is exact: the five component means sum to the total mean. */
  lemma AttributionIsExact(b: Buckets, strength: real)
    requires strength > 0.0
    ensures MeanEstimate(Total(), b, strength)
      == MeanEstimate(Of(Fee), b, strength) + MeanEstimate(Of(Spread), b, strength)
      + MeanEstimate(Of(Impact), b, strength) + MeanEstimate(Of(Markout), b, strength)
        + MeanEstimate(Of(Legging), b, strength)
  {
    var two := Plus(Of(Fee), Of(Spread));
    var three := Plus(two, Of(Impact));
    var four := Plus(three, Of(Markout));
    MeanEstimateAdds(Of(Fee), Of(Spread), two, b, strength);
    MeanEstimateAdds(two, Of(Impact), three, b, strength);
    MeanEstimateAdds(three, Of(Markout), four, b, strength);
    MeanEstimateAdds(four, Of(Legging), Total(), b, strength);
  }

  // ---------------------------------------------------------------- buckets of observations

  lemma {:induction false} FilterWithin(keep: Observation -> bool, rows: seq<Observation>)
    ensures forall o :: o in Filter(keep, rows) ==> o in rows && keep(o)
  {
    if rows != [] { FilterWithin(keep, rows[1..]); }
  }

  lemma BucketsWithin(rows: seq<Observation>, q: Query, bucket: seq<Observation>)
    requires IsBucket(BucketsOf(rows, q), bucket)
    ensures forall o :: o in bucket ==> o in rows
  {
    var b := BucketsOf(rows, q);
    FilterWithin((o: Observation) => o.market == q.market, rows);
    FilterWithin((o: Observation) => o.route == q.route, b.market);
    FilterWithin((o: Observation) => o.symbol == q.symbol, b.route);
    FilterWithin((o: Observation) => o.regime == q.regime, b.route);
    FilterWithin((o: Observation) => o.regime == q.regime, b.symbolRoute);
  }

  /** Mean and quantile estimates of a field lie between its least and greatest observed value. */
  lemma EstimatesAreObserved(f: Field, rows: seq<Observation>, q: Query, strength: real, p: real, lo: real, hi: real)
    requires strength > 0.0 && 0.0 <= p <= 1.0 && rows != [] && forall o :: o in rows ==> lo <= f(o) <= hi
    ensures lo <= Estimate(MeanStat(f), BucketsOf(rows, q), strength) <= hi
    ensures lo <= Estimate(QuantileStat(f, p), BucketsOf(rows, q), strength) <= hi
  {
    var b := BucketsOf(rows, q);
    forall bucket | IsBucket(b, bucket) && bucket != []
      ensures lo <= MeanStat(f)(bucket) <= hi && lo <= QuantileStat(f, p)(bucket) <= hi
    {
      BucketsWithin(rows, q, bucket);
      assert forall i :: 0 <= i < |bucket| ==> bucket[i] in rows;
      MeanBounds(f, bucket, lo, hi);
      QuantileBounds(f, bucket, p, lo, hi);
    }
    EstimateBounds(MeanStat(f), b, strength, lo, hi);
    EstimateBounds(QuantileStat(f, p), b, strength, lo, hi);
  }

  /** Raising observed costs never lowers a mean or a quantile estimate. */
  lemma EstimatesRise(f: Field, g: Field, rows: seq<Observation>, q: Query, strength: real, p: real)
    requires strength > 0.0 && 0.0 <= p <= 1.0 && forall o :: o in rows ==> f(o) <= g(o)
    ensures Estimate(MeanStat(f), BucketsOf(rows, q), strength) <= Estimate(MeanStat(g), BucketsOf(rows, q), strength)
    ensures Estimate(QuantileStat(f, p), BucketsOf(rows, q), strength)
      <= Estimate(QuantileStat(g, p), BucketsOf(rows, q), strength)
  {
    var b := BucketsOf(rows, q);
    forall bucket | IsBucket(b, bucket)
      ensures MeanStat(f)(bucket) <= MeanStat(g)(bucket) && QuantileStat(f, p)(bucket) <= QuantileStat(g, p)(bucket)
    {
      BucketsWithin(rows, q, bucket);
      assert forall i :: 0 <= i < |bucket| ==> bucket[i] in rows;
      MeanGrows(f, g, bucket);
      QuantileGrows(f, g, bucket, p);
    }
    EstimateGrows(MeanStat(f), MeanStat(g), b, strength);
    EstimateGrows(QuantileStat(f, p), QuantileStat(g, p), b, strength);
  }

  // ---------------------------------------------------------------- order of insertion

  lemma {:induction false} FilterCounts(keep: Observation -> bool, rows: seq<Observation>, o: Observation)
    ensures multiset(Filter(keep, rows))[o] == if keep(o) then multiset(rows)[o] else 0
  {
    if rows != [] {
      FilterCounts(keep, rows[1..], o);
      assert rows == [rows[0]] + rows[1..];
    }
  }

  lemma FilterPermutes(keep: Observation -> bool, a: seq<Observation>, b: seq<Observation>)
    requires multiset(a) == multiset(b)
    ensures multiset(Filter(keep, a)) == multiset(Filter(keep, b))
  {
    forall o ensures multiset(Filter(keep, a))[o] == multiset(Filter(keep, b))[o] {
      FilterCounts(keep, a, o);
      FilterCounts(keep, b, o);
    }
  }

  ghost predicate Alike(a: seq<Observation>, b: seq<Observation>) { multiset(a) == multiset(b) && |a| == |b| }

  lemma FilterAlike(keep: Observation -> bool, a: seq<Observation>, b: seq<Observation>)
    requires Alike(a, b)
    ensures Alike(Filter(keep, a), Filter(keep, b))
  {
    FilterPermutes(keep, a, b);
    assert |multiset(Filter(keep, a))| == |Filter(keep, a)| && |multiset(Filter(keep, b))| == |Filter(keep, b)|;
  }

  lemma BucketsAlike(a: seq<Observation>, b: seq<Observation>, q: Query)
    requires Alike(a, b)
    ensures var x, y := BucketsOf(a, q), BucketsOf(b, q);
      && Alike(x.all, y.all) && Alike(x.market, y.market) && Alike(x.route, y.route)
      && Alike(x.symbolRoute, y.symbolRoute) && Alike(x.routeRegime, y.routeRegime) && Alike(x.exact, y.exact)
  {
    var x, y := BucketsOf(a, q), BucketsOf(b, q);
    FilterAlike((o: Observation) => o.market == q.market, a, b);
    FilterAlike((o: Observation) => o.route == q.route, x.market, y.market);
    FilterAlike((o: Observation) => o.symbol == q.symbol, x.route, y.route);
    FilterAlike((o: Observation) => o.regime == q.regime, x.route, y.route);
    FilterAlike((o: Observation) => o.regime == q.regime, x.symbolRoute, y.symbolRoute);
  }

  lemma EstimateAgrees(stat: Stat, x: Buckets, y: Buckets, strength: real)
    requires strength > 0.0 && stat(x.all) == stat(y.all) && stat(x.market) == stat(y.market)
      && stat(x.route) == stat(y.route)
    requires stat(x.symbolRoute) == stat(y.symbolRoute) && stat(x.routeRegime) == stat(y.routeRegime)
      && stat(x.exact) == stat(y.exact)
    requires |x.market| == |y.market| && |x.route| == |y.route| && |x.symbolRoute| == |y.symbolRoute|
    requires |x.routeRegime| == |y.routeRegime| && |x.exact| == |y.exact|
    ensures Estimate(stat, x, strength) == Estimate(stat, y, strength)
  {
    assert RouteLevel(stat, x, strength) == RouteLevel(stat, y, strength);
    var route := RouteLevel(stat, x, strength);
    assert Shrink(stat, x.symbolRoute, route, strength) == Shrink(stat, y.symbolRoute, route, strength);
    assert Shrink(stat, x.routeRegime, route, strength) == Shrink(stat, y.routeRegime, route, strength);
    assert Parent(stat, x, route, strength) == Parent(stat, y, route, strength);
  }

  /** A statistic that does not see the order of rows gives an estimate that does not either. */
  lemma EstimatePermutes(stat: Stat, a: seq<Observation>, b: seq<Observation>, q: Query, strength: real)
    requires strength > 0.0 && Alike(a, b) && forall s, t :: Alike(s, t) ==> stat(s) == stat(t)
    ensures Estimate(stat, BucketsOf(a, q), strength) == Estimate(stat, BucketsOf(b, q), strength)
  {
    BucketsAlike(a, b, q);
    EstimateAgrees(stat, BucketsOf(a, q), BucketsOf(b, q), strength);
  }

  lemma EstimatesIgnoreOrder(f: Field, a: seq<Observation>, b: seq<Observation>, q: Query, strength: real, p: real)
    requires strength > 0.0 && 0.0 <= p <= 1.0 && Alike(a, b)
    ensures Estimate(MeanStat(f), BucketsOf(a, q), strength) == Estimate(MeanStat(f), BucketsOf(b, q), strength)
    ensures Estimate(QuantileStat(f, p), BucketsOf(a, q), strength)
      == Estimate(QuantileStat(f, p), BucketsOf(b, q), strength)
  {
    forall s: seq<Observation>, t: seq<Observation> | Alike(s, t)
      ensures MeanStat(f)(s) == MeanStat(f)(t) && QuantileStat(f, p)(s) == QuantileStat(f, p)(t)
    {
      MeanPermutes(f, s, t);
      QuantilePermutes(f, s, t, p);
    }
    EstimatePermutes(MeanStat(f), a, b, q, strength);
    EstimatePermutes(QuantileStat(f, p), a, b, q, strength);
  }
}
