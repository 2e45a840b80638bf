/** The calibrator object: an insertion-ordered dictionary of samples, and its predictions. */
module Calibrator {
  import opened Calibration
  import opened Numbers
  import opened Quantile
  import opened Text
  import opened Wrappers

  /** Square root and normal quantile, of which only signs matter. */
  datatype Maths = Maths(sqrt: real -> real, normal: real -> real)

  ghost predicate Sane(maths: Maths) {
    && (forall x: real :: x > 0.0 ==> maths.sqrt(x) > 0.0) && (forall x: real :: x >= 0.0 ==> maths.sqrt(x) >= 0.0)
    && (forall p: real :: 0.5 < p < 1.0 ==> maths.normal(p) >= 0.0)
  }

  datatype Config = Config(strength: real, quantile: real, minimumSamples: nat, floor: real, measurementOnly: bool)

  predicate Usable(c: Config) { c.strength > 0.0 && 0.5 < c.quantile < 1.0 && c.minimumSamples > 0 && c.floor >= 0.0 }

  /** How many samples each bucket holds. */
  datatype Counts = Counts(exact: nat, symbolRoute: nat, routeRegime: nat, route: nat, all: nat)

  function CountsOf(b: Buckets): Counts { Counts(|b.exact|, |b.symbolRoute|, |b.routeRegime|, |b.route|, |b.all|) }

  datatype Prediction = Prediction(key: Query, mean: real, conservative: real, componentMeans: map<Component, real>,
                                   componentQuantiles: map<Component, real>, counts: Counts, exactWeight: real,
                                   ready: bool, live: bool)

  function Square(x: real): real { x * x }

  function Deviation(maths: Maths, rows: seq<Observation>): real {
    if |rows| <= 1 then 0.0 else
      var mean := MeanOf(Total(), rows);
      maths.sqrt(MeanOf((o: Observation) => Square(Total()(o) - mean), rows))
  }

  ghost predicate Rooted(maths: Maths, exact: nat) { maths.sqrt(if exact == 0 then 1.0 else exact as real) > 0.0 }

  /** What sparse evidence adds to the quantile. */
  function Uncertainty(c: Config, maths: Maths, deviation: real, exact: nat): real
    requires Rooted(maths, exact)
  {
    maths.normal(c.quantile) * Max(deviation, c.floor) / maths.sqrt(if exact == 0 then 1.0 else exact as real)
  }

  lemma QuotientNonNegative(a: real, b: real)
    requires a >= 0.0 && b > 0.0
    ensures a / b >= 0.0
  {
    DivideGrows(0.0, a, b);
  }

  lemma UncertaintyNonNegative(c: Config, maths: Maths, deviation: real, exact: nat)
    requires Usable(c) && Sane(maths)
    ensures Rooted(maths, exact)
    ensures Uncertainty(c, maths, deviation, exact) >= 0.0
  {
    var root := maths.sqrt(if exact == 0 then 1.0 else exact as real);
    var scale := Max(deviation, c.floor);
    NonNegativeProduct(maths.normal(c.quantile), scale);
    QuotientNonNegative(maths.normal(c.quantile) * scale, root);
  }

  lemma DeviationPermutes(maths: Maths, a: seq<Observation>, b: seq<Observation>)
    requires Alike(a, b)
    ensures Deviation(maths, a) == Deviation(maths, b)
  {
    MeanPermutes(Total(), a, b);
    var mean := MeanOf(Total(), a);
    MeanPermutes((o: Observation) => Square(Total()(o) - mean), a, b);
  }

  // ---------------------------------------------------------------- rows of the dictionary

  predicate Once(order: seq<string>) { forall i, j :: 0 <= i < j < |order| ==> order[i] != order[j] }

  /** The dictionary's keys in the order of their insertion, each entry under its own name. */
  ghost predicate Ordered(m: map<string, Observation>, order: seq<string>) {
    && Once(order) && (forall id :: id in order <==> id in m) && (forall id :: id in m ==> m[id].id == id)
  }

  function RowsOf(m: map<string, Observation>, order: seq<string>): seq<Observation>
    requires forall id :: id in order ==> id in m
  {
    if order == [] then [] else [m[order[0]]] + RowsOf(m, order[1..])
  }

  lemma {:induction false} RowsCount(m: map<string, Observation>, order: seq<string>, o: Observation)
    requires Once(order) && (forall id :: id in order ==> id in m && m[id].id == id)
    ensures |RowsOf(m, order)| == |order|
    ensures multiset(RowsOf(m, order))[o] == if o.id in order && m[o.id] == o then 1 else 0
  {
    if order != [] {
      RowsCount(m, order[1..], o);
      assert multiset(RowsOf(m, order)) == multiset{m[order[0]]} + multiset(RowsOf(m, order[1..]));
      assert o.id in order <==> o.id == order[0] || o.id in order[1..];
      assert order[0] !in order[1..];
    }
  }

  lemma RowsAlike(m: map<string, Observation>, a: seq<string>, b: seq<string>)
    requires Ordered(m, a) && Ordered(m, b)
    ensures Alike(RowsOf(m, a), RowsOf(m, b))
  {
    var x, y := RowsOf(m, a), RowsOf(m, b);
    forall o ensures multiset(x)[o] == multiset(y)[o] {
      RowsCount(m, a, o);
      RowsCount(m, b, o);
    }
    assert |multiset(x)| == |x| && |multiset(y)| == |y|;
  }

  // ---------------------------------------------------------------- predictions

  function QuantileEstimate(c: Config, f: Field, b: Buckets): real
    requires Usable(c)
  {
    Estimate(QuantileStat(f, c.quantile), b, c.strength)
  }

  /** Never below zero or the mean, and the quantile estimate plus the uncertainty otherwise. */
  function Conservative(c: Config, maths: Maths, deviation: real, exact: nat, mean: real, quantile: real): real
    requires Rooted(maths, exact)
  {
    Max(0.0, Max(mean, quantile + Uncertainty(c, maths, deviation, exact)))
  }

  /** The promised prediction, as a function of the rows. */
  ghost predicate Predicted(c: Config, maths: Maths, rows: seq<Observation>, q: Query, p: Prediction)
    requires Usable(c)
  {
    p.key == q && PredictedFrom(c, maths, rows, BucketsOf(rows, q), p)
  }

  ghost predicate PredictedFrom(c: Config, maths: Maths, rows: seq<Observation>, b: Buckets, p: Prediction)
    requires Usable(c)
  {
    && Rooted(maths, |b.exact|)
    && p.mean == MeanEstimate(Total(), b, c.strength)
    && p.conservative == Conservative(c, maths, Deviation(maths, rows), |b.exact|, p.mean,
                                      QuantileEstimate(c, Total(), b))
    && ComponentsDone(c, b, |COMPONENTS|, p.componentMeans, p.componentQuantiles)
    && p.counts == CountsOf(b) && p.exactWeight == Weight(|b.exact|, c.strength)
    && p.ready == (|b.exact| >= c.minimumSamples) && p.live == (p.ready && !c.measurementOnly)
  }

  ghost predicate DoneAt(c: Config, b: Buckets, k: Component, means: map<Component, real>,
                         quantiles: map<Component, real>)
    requires Usable(c)
  {
    && k in means && means[k] == MeanEstimate(Of(k), b, c.strength)
    && k in quantiles && quantiles[k] == QuantileEstimate(c, Of(k), b)
  }

  ghost predicate ComponentsDone(c: Config, b: Buckets, n: nat, means: map<Component, real>,
                                 quantiles: map<Component, real>)
    requires Usable(c) && n <= |COMPONENTS|
  {
    forall i :: 0 <= i < n ==> DoneAt(c, b, COMPONENTS[i], means, quantiles)
  }

  lemma ComponentStep(c: Config, b: Buckets, n: nat, means: map<Component, real>, quantiles: map<Component, real>,
                      mean: real, quantile: real)
    requires Usable(c) && n < |COMPONENTS| && ComponentsDone(c, b, n, means, quantiles)
    requires mean == MeanEstimate(Of(COMPONENTS[n]), b, c.strength)
      && quantile == QuantileEstimate(c, Of(COMPONENTS[n]), b)
    ensures ComponentsDone(c, b, n + 1, means[COMPONENTS[n] := mean], quantiles[COMPONENTS[n] := quantile])
  {
    var k := COMPONENTS[n];
    forall i | 0 <= i < n + 1 ensures DoneAt(c, b, COMPONENTS[i], means[k := mean], quantiles[k := quantile]) {
      if COMPONENTS[i] != k { assert DoneAt(c, b, COMPONENTS[i], means, quantiles); }
    }
  }

  lemma MeansSum(c: Config, b: Buckets, means: map<Component, real>, quantiles: map<Component, real>)
    requires Usable(c) && ComponentsDone(c, b, |COMPONENTS|, means, quantiles)
    ensures Fee in means && Spread in means && Impact in means && Markout in means && Legging in means
    ensures means[Fee] + means[Spread] + means[Impact] + means[Markout] + means[Legging]
      == MeanEstimate(Total(), b, c.strength)
  {
    AttributionIsExact(b, c.strength);
    assert DoneAt(c, b, COMPONENTS[0], means, quantiles) && DoneAt(c, b, COMPONENTS[1], means, quantiles);
    assert DoneAt(c, b, COMPONENTS[2], means, quantiles) && DoneAt(c, b, COMPONENTS[3], means, quantiles);
    assert DoneAt(c, b, COMPONENTS[4], means, quantiles);
  }

  /** The component means of a prediction sum to its mean. */
  lemma ComponentsSum(c: Config, maths: Maths, rows: seq<Observation>, q: Query, p: Prediction)
    requires Usable(c) && Predicted(c, maths, rows, q, p)
    ensures Fee in p.componentMeans && Spread in p.componentMeans && Impact in p.componentMeans
      && Markout in p.componentMeans && Legging in p.componentMeans
    ensures p.componentMeans[Fee] + p.componentMeans[Spread] + p.componentMeans[Impact] + p.componentMeans[Markout]
      + p.componentMeans[Legging] == p.mean
  {
    MeansSum(c, BucketsOf(rows, q), p.componentMeans, p.componentQuantiles);
  }

  /** The conservative cost is never below zero, the mean, or the quantile estimate. */
  lemma ConservativeIsSafe(c: Config, maths: Maths, rows: seq<Observation>, q: Query, p: Prediction)
    requires Usable(c) && Sane(maths) && Predicted(c, maths, rows, q, p)
    ensures p.conservative >= 0.0 && p.conservative >= p.mean
      && p.conservative >= QuantileEstimate(c, Total(), BucketsOf(rows, q))
  {
    UncertaintyNonNegative(c, maths, Deviation(maths, rows), |BucketsOf(rows, q).exact|);
  }

  ghost predicate SamePrediction(p: Prediction, r: Prediction) {
    && p.mean == r.mean && p.conservative == r.conservative && p.counts == r.counts && p.exactWeight == r.exactWeight
    && p.ready == r.ready && p.live == r.live && p.key == r.key
    && (forall i :: 0 <= i < |COMPONENTS| ==> SameAt(p.componentMeans, r.componentMeans, COMPONENTS[i]))
    && (forall i :: 0 <= i < |COMPONENTS| ==> SameAt(p.componentQuantiles, r.componentQuantiles, COMPONENTS[i]))
  }

  predicate SameAt(x: map<Component, real>, y: map<Component, real>, k: Component) { k in x && k in y && x[k] == y[k] }

  lemma PredictedAgree(c: Config, maths: Maths, a: seq<Observation>, b: seq<Observation>, x: Buckets, y: Buckets,
                       p: Prediction, r: Prediction)
    requires Usable(c) && PredictedFrom(c, maths, a, x, p) && PredictedFrom(c, maths, b, y, r)
    requires Alike(a, b) && CountsOf(x) == CountsOf(y) && p.key == r.key
    requires forall f: Field :: AgreesOn(c, x, y, f)
    ensures SamePrediction(p, r)
  {
    assert AgreesOn(c, x, y, Total());
    DeviationPermutes(maths, a, b);
    forall i | 0 <= i < |COMPONENTS|
      ensures SameAt(p.componentMeans, r.componentMeans, COMPONENTS[i])
        && SameAt(p.componentQuantiles, r.componentQuantiles, COMPONENTS[i])
    {
      assert AgreesOn(c, x, y, Of(COMPONENTS[i]));
      assert DoneAt(c, x, COMPONENTS[i], p.componentMeans, p.componentQuantiles);
      assert DoneAt(c, y, COMPONENTS[i], r.componentMeans, r.componentQuantiles);
    }
  }

  ghost predicate AgreesOn(c: Config, x: Buckets, y: Buckets, f: Field)
    requires Usable(c)
  {
    MeanEstimate(f, x, c.strength) == MeanEstimate(f, y, c.strength)
      && QuantileEstimate(c, f, x) == QuantileEstimate(c, f, y)
  }

  /** Predictions depend on the samples, not on the order they came in. */
  lemma PredictionIgnoresOrder(c: Config, maths: Maths, a: seq<Observation>, b: seq<Observation>, q: Query,
                               p: Prediction, r: Prediction)
    requires Usable(c) && Alike(a, b) && Predicted(c, maths, a, q, p) && Predicted(c, maths, b, q, r)
    ensures SamePrediction(p, r)
  {
    BucketsAlike(a, b, q);
    forall f: Field ensures AgreesOn(c, BucketsOf(a, q), BucketsOf(b, q), f) {
      EstimatesIgnoreOrder(f, a, b, q, c.strength, c.quantile);
    }
    PredictedAgree(c, maths, a, b, BucketsOf(a, q), BucketsOf(b, q), p, r);
  }

  // ---------------------------------------------------------------- the object

  datatype Added = New | Duplicate | Collision

  class CostMarkoutCalibrator {
    const config: Config
    var observations: map<string, Observation>
    /** The dictionary's own order of iteration. */
    var order: seq<string>

    ghost predicate Valid()
      reads this
    {
      Usable(config) && Ordered(observations, order)
    }

    constructor (config: Config)
      requires Usable(config)
      ensures Valid() && this.config == config && observations == map[]
    {
      this.config, observations, order := config, map[], [];
    }

    /** A new sample is added; the same sample again changes nothing; another sample of the
        same name is an error that changes nothing. */
    method AddObservation(o: Observation) returns (r: Added)
      requires Valid()
      modifies this
      ensures Valid()
      ensures r.New? <==> o.id !in old(observations)
      ensures r.Duplicate? <==> o.id in old(observations) && old(observations)[o.id] == o
      ensures r.New? ==> observations == old(observations)[o.id := o] && order == old(order) + [o.id]
      ensures !r.New? ==> unchanged(this)
    {
      if o.id in observations { return if observations[o.id] != o then Collision else Duplicate; }
      observations := observations[o.id := o];
      order := order + [o.id];
      r := New;
    }

    /** Adds samples until one collides. */
    method AddObservations(rows: seq<Observation>) returns (added: nat, collided: bool)
      requires Valid()
      modifies this
      ensures Valid()
      ensures collided <==> !Compatible(old(observations), rows)
      ensures !collided ==> observations == Gathered(old(observations), rows) && added == |order| - |old(order)|
    {
      added, collided := 0, false;
      for i := 0 to |rows|
        invariant Valid() && |order| == |old(order)| + added
        invariant Compatible(old(observations), rows[..i]) && observations == Gathered(old(observations), rows[..i])
      {
        assert rows[..i + 1][..i] == rows[..i];
        CompatibleStep(old(observations), rows, i);
        var r := AddObservation(rows[i]);
        if r.Collision? { return added, true; }
        added := added + (if r.New? then 1 else 0);
      }
      assert rows[..|rows|] == rows;
    }

    /** Nothing without samples, an error for an empty dimension, and otherwise the
        prediction over all samples in dictionary order. */
    method Predict(maths: Maths, q: Query) returns (p: Option<Prediction>, error: bool)
      requires Valid() && Sane(maths)
      ensures error <==> observations != map[] && Blank(Key(q))
      ensures p.Some? <==> observations != map[] && !error
      ensures p.Some? ==> Predicted(config, maths, RowsOf(observations, order), Key(q), p.value)
    {
      if observations == map[] { return None, false; }
      var key := Key(q);
      if Blank(key) { return None, true; }
      var rows := RowsOf(observations, order);
      var made := PredictFrom(maths, rows, key, BucketsOf(rows, key));
      p, error := Some(made), false;
    }

    method PredictFrom(maths: Maths, rows: seq<Observation>, key: Query, b: Buckets) returns (p: Prediction)
      requires Usable(config) && Sane(maths)
      ensures p.key == key && PredictedFrom(config, maths, rows, b, p)
    {
      var means, quantiles := EstimateComponents(b);
      UncertaintyNonNegative(config, maths, Deviation(maths, rows), |b.exact|);
      var mean := MeanEstimate(Total(), b, config.strength);
      var upper := QuantileEstimate(config, Total(), b);
      var ready := |b.exact| >= config.minimumSamples;
      var conservative := Conservative(config, maths, Deviation(maths, rows), |b.exact|, mean, upper);
      p := Prediction(key, mean, conservative, means, quantiles, CountsOf(b), Weight(|b.exact|, config.strength), ready,
                      ready && !config.measurementOnly);
    }

    method EstimateComponents(b: Buckets) returns (means: map<Component, real>, quantiles: map<Component, real>)
      requires Usable(config)
      ensures ComponentsDone(config, b, |COMPONENTS|, means, quantiles)
    {
      means, quantiles := map[], map[];
      for i := 0 to |COMPONENTS|
        invariant ComponentsDone(config, b, i, means, quantiles)
      {
        var mean := MeanEstimate(Of(COMPONENTS[i]), b, config.strength);
        var quantile := QuantileEstimate(config, Of(COMPONENTS[i]), b);
        ComponentStep(config, b, i, means, quantiles, mean, quantile);
        means, quantiles := means[COMPONENTS[i] := mean], quantiles[COMPONENTS[i] := quantile];
      }
    }
  }

  predicate Blank(q: Query) { q.symbol == "" || q.market == "" || q.route == "" || q.regime == "" }

  function Key(q: Query): Query {
    Query(Upper(Strip(q.symbol)), Lower(Strip(q.market)), Lower(Strip(q.route)), Lower(Strip(q.regime)))
  }

  function Gathered(m: map<string, Observation>, rows: seq<Observation>): map<string, Observation> {
    if rows == [] then m else
      var n := |rows| - 1;
      var before := Gathered(m, rows[..n]);
      if rows[n].id in before then before else before[rows[n].id := rows[n]]
  }

  ghost predicate Compatible(m: map<string, Observation>, rows: seq<Observation>) {
    && (forall i :: 0 <= i < |rows| && rows[i].id in m ==> m[rows[i].id] == rows[i])
    && (forall i, j :: 0 <= i < j < |rows| && rows[i].id == rows[j].id ==> rows[i] == rows[j])
  }

  /** What is gathered is what was there, then the first sample of each name. */
  lemma {:induction false} GatheredMeans(m: map<string, Observation>, rows: seq<Observation>, id: string)
    requires Compatible(m, rows)
    ensures id in Gathered(m, rows) <==> id in m || exists i :: 0 <= i < |rows| && rows[i].id == id
    ensures id in m ==> Gathered(m, rows)[id] == m[id]
    ensures forall i :: 0 <= i < |rows| && rows[i].id == id ==>
      id in Gathered(m, rows) && Gathered(m, rows)[id] == rows[i]
  {
    if rows != [] {
      var n := |rows| - 1;
      GatheredMeans(m, rows[..n], id);
      if exists i :: 0 <= i < n && rows[i].id == id {
        var i :| 0 <= i < n && rows[i].id == id;
        assert rows[..n][i].id == id;
      }
      if rows[n].id == id { assert id in Gathered(m, rows); }
    }
  }

  /** One more sample is compatible exactly when it does not collide with what is gathered. */
  lemma CompatibleStep(m: map<string, Observation>, rows: seq<Observation>, n: nat)
    requires n < |rows| && Compatible(m, rows[..n])
    ensures rows[n].id !in Gathered(m, rows[..n]) || Gathered(m, rows[..n])[rows[n].id] == rows[n] ==>
      Compatible(m, rows[..n + 1])
    ensures rows[n].id in Gathered(m, rows[..n]) && Gathered(m, rows[..n])[rows[n].id] != rows[n] ==>
      !Compatible(m, rows)
  {
    GatheredMeans(m, rows[..n], rows[n].id);
    var g := Gathered(m, rows[..n]);
    if rows[n].id !in g || g[rows[n].id] == rows[n] {
      forall i, j | 0 <= i < j < n + 1 && rows[i].id == rows[j].id ensures rows[i] == rows[j] {
        assert rows[..n][i] == rows[i];
        if j < n { assert rows[..n][j] == rows[j]; }
      }
    } else if rows[n].id !in m {
      var i :| 0 <= i < n && rows[..n][i].id == rows[n].id;
      assert rows[i] == g[rows[n].id];
    }
  }

  /** Order and repetition do not matter: the same samples gather to the same dictionary. */
  lemma GatheringIgnoresOrder(a: seq<Observation>, b: seq<Observation>)
    requires Compatible(map[], a) && forall o :: o in a <==> o in b
    ensures Compatible(map[], b) && Gathered(map[], a) == Gathered(map[], b)
  {
    forall i, j | 0 <= i < j < |b| && b[i].id == b[j].id ensures b[i] == b[j] {
      assert b[i] in a && b[j] in a;
    }
    var x, y := Gathered(map[], a), Gathered(map[], b);
    forall id ensures (id in x <==> id in y) && (id in x ==> x[id] == y[id]) {
      GatheredMeans(map[], a, id);
      GatheredMeans(map[], b, id);
      if id in x {
        var i :| 0 <= i < |a| && a[i].id == id;
        assert a[i] in b;
      }
      if id in y {
        var j :| 0 <= j < |b| && b[j].id == id;
        assert b[j] in a;
      }
    }
  }

  /** Two calibrators fed the same samples, in any order and with any repeats, predict the same. */
  lemma SamplesDecide(c: Config, maths: Maths, a: seq<Observation>, b: seq<Observation>, x: seq<string>,
                      y: seq<string>, q: Query, p: Prediction, r: Prediction)
    requires Usable(c) && Compatible(map[], a) && forall o :: o in a <==> o in b
    requires Ordered(Gathered(map[], a), x) && Ordered(Gathered(map[], b), y)
    requires Predicted(c, maths, RowsOf(Gathered(map[], a), x), q, p)
      && Predicted(c, maths, RowsOf(Gathered(map[], b), y), q, r)
    ensures SamePrediction(p, r)
  {
    GatheringIgnoresOrder(a, b);
    RowsAlike(Gathered(map[], a), x, y);
    PredictionIgnoresOrder(c, maths, RowsOf(Gathered(map[], a), x), RowsOf(Gathered(map[], b), y), q, p, r);
  }
}
