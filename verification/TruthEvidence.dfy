/** No number is invented: every decimal of an account's truth, at any depth, was parsed from
    a value that stands in the signed snapshot. */
module TruthEvidence {
  import opened AccountTruth
  import opened FuturesTruth
  import opened VenueTruth
  import opened Wrappers

  /** A value that stands somewhere in another. */
  ghost predicate Inside(v: Value, w: Value)
    decreases w
  {
    || v == w
    || (w.Items? && exists i :: 0 <= i < |w.items| && Inside(v, w.items[i]))
    || (w.Object? && exists k :: k in w.fields && Inside(v, w.fields[k]))
  }

  lemma {:induction false} InsideTrans(a: Value, b: Value, c: Value)
    requires Inside(a, b) && Inside(b, c)
    ensures Inside(a, c)
    decreases c
  {
    if b != c {
      if c.Items? && exists i :: 0 <= i < |c.items| && Inside(b, c.items[i]) {
        var i :| 0 <= i < |c.items| && Inside(b, c.items[i]);
        InsideTrans(a, b, c.items[i]);
      } else {
        var k :| k in c.fields && Inside(b, c.fields[k]);
        InsideTrans(a, b, c.fields[k]);
      }
    }
  }

  /** A value whose text is exactly this number; never a missing, boolean or floating-point
      one. */
  predicate ParsesTo(py: Python, v: Value, x: real) {
    !v.Null? && !v.Flag? && !v.Float? && v != Words("") && py.decimalOf(py.textOf(v)) == Some(x)
  }

  ghost predicate Evidence(py: Python, s: Value, x: real) { exists v :: Inside(v, s) && ParsesTo(py, v, x) }

  ghost predicate Grounded(py: Python, s: Value, out: Out) { out.Decimal? ==> Evidence(py, s, out.x) }

  ghost predicate RowGrounded(py: Python, s: Value, outs: seq<Out>) {
    forall i :: 0 <= i < |outs| ==> Grounded(py, s, outs[i])
  }

  ghost predicate TableGrounded(py: Python, s: Value, rows: seq<seq<Out>>) {
    forall i :: 0 <= i < |rows| ==> RowGrounded(py, s, rows[i])
  }

  // ---------------------------------------------------------------- rows

  /** A row of the snapshot, or the empty one that stands for a missing row. */
  ghost predicate RowIn(row: Row, s: Value) { row == map[] || Inside(Object(row), s) }

  /** No decimal field of the table has a default. */
  predicate NoDefaults(specs: seq<Spec>) {
    forall i :: 0 <= i < |specs| ==> specs[i].kind.AsDecimal? ==> !specs[i].source.GetOr?
  }

  lemma LookupInside(row: Row, key: string, s: Value)
    requires RowIn(row, s)
    ensures Lookup(row, key).Null? || Inside(Lookup(row, key), s)
  {
    if key in row {
      assert Inside(row[key], Object(row).fields[key]);
      InsideTrans(row[key], Object(row), s);
    }
  }

  lemma AccountInside(v: Value, s: Value)
    requires v.Null? || Inside(v, s)
    ensures RowIn(AccountOf(v), s)
  {
  }

  lemma FieldGrounded(py: Python, spec: Spec, row: Row, other: Row, s: Value)
    requires RowIn(row, s) && RowIn(other, s) && (spec.kind.AsDecimal? ==> !spec.source.GetOr?)
    ensures Grounded(py, s, FieldOf(py, spec, row, other))
  {
    var v := Fetch(spec.source, row, other);
    if FieldOf(py, spec, row, other).Decimal? {
      LookupInside(row, spec.source.key, s);
      LookupInside(other, spec.source.key, s);
      if spec.source.FirstOf? || spec.source.Fallback? {
        LookupInside(row, spec.source.other, s);
        LookupInside(other, spec.source.other, s);
      }
      assert Inside(v, s) && ParsesTo(py, v, FieldOf(py, spec, row, other).x);
    }
  }

  lemma NormalGrounded(py: Python, specs: seq<Spec>, row: Row, other: Row, s: Value)
    requires NoDefaults(specs) && RowIn(row, s) && RowIn(other, s)
    ensures RowGrounded(py, s, Normal(py, specs, row, other))
  {
    forall i | 0 <= i < |specs| ensures Grounded(py, s, Normal(py, specs, row, other)[i]) {
      FieldGrounded(py, specs[i], row, other, s);
    }
  }

  lemma {:induction false} ObjectsInside(items: seq<Value>, s: Value, i: nat)
    requires i < |Objects(items)| && forall j :: 0 <= j < |items| ==> Inside(items[j], s)
    ensures Inside(Object(Objects(items)[i]), s)
  {
    var n := |items| - 1;
    if i < |Objects(items[..n])| { ObjectsInside(items[..n], s, i); }
  }

  lemma RowsInside(v: Value, s: Value, i: nat)
    requires (v.Null? || Inside(v, s)) && i < |RowsOf(v)|
    ensures RowIn(RowsOf(v)[i], s)
  {
    forall j | 0 <= j < |v.items| ensures Inside(v.items[j], s) {
      assert Inside(v.items[j], v);
      InsideTrans(v.items[j], v, s);
    }
    ObjectsInside(v.items, s, i);
  }

  lemma TableIsGrounded(py: Python, specs: seq<Spec>, v: Value, s: Value)
    requires NoDefaults(specs) && (v.Null? || Inside(v, s))
    ensures TableGrounded(py, s, Table(py, specs, v))
  {
    forall i | 0 <= i < |RowsOf(v)| ensures RowGrounded(py, s, Table(py, specs, v)[i]) {
      RowsInside(v, s, i);
      NormalGrounded(py, specs, RowsOf(v)[i], map[], s);
    }
  }

  /** The table under a key of a row of the snapshot. */
  lemma TableAt(py: Python, specs: seq<Spec>, row: Row, key: string, s: Value)
    requires NoDefaults(specs) && RowIn(row, s)
    ensures TableGrounded(py, s, Table(py, specs, Lookup(row, key)))
  {
    LookupInside(row, key, s);
    TableIsGrounded(py, specs, Lookup(row, key), s);
  }

  /** The account row under a key of the snapshot. */
  lemma AccountAt(row: Row, key: string, s: Value)
    requires RowIn(row, s)
    ensures RowIn(AccountOf(Lookup(row, key)), s)
  {
    LookupInside(row, key, s);
    AccountInside(Lookup(row, key), s);
  }

  // ---------------------------------------------------------------- spot

  ghost predicate SpotGrounded(py: Python, s: Value, r: Spot) {
    && RowGrounded(py, s, r.account) && TableGrounded(py, s, r.balances) && TableGrounded(py, s, r.orders)
    && RowGrounded(py, s, r.scope) && TableGrounded(py, s, r.trades) && TableGrounded(py, s, r.borrow)
    && TableGrounded(py, s, r.interest)
  }

  lemma BorrowIsGrounded(py: Python, s: Row)
    ensures TableGrounded(py, Object(s), BorrowTable(py, s))
  {
    AccountAt(s, "margin_account", Object(s));
    TableAt(py, BORROW_FIELDS, AccountOf(Lookup(s, "margin_account")), "userAssets", Object(s));
  }

  /** Whatever the snapshot, every decimal of the spot truth was parsed from a value in it. */
  lemma SpotIsGrounded(py: Python, s: Row)
    ensures SpotGrounded(py, Object(s), SpotOf(py, s))
  {
    var w := Object(s);
    AccountAt(s, "spot_account", w);
    var account := AccountOf(Lookup(s, "spot_account"));
    NormalGrounded(py, ACCOUNT_FIELDS, account, map[], w);
    TableAt(py, BALANCE_FIELDS, account, "balances", w);
    TableAt(py, SPOT_ORDER_FIELDS, s, "spot_open_orders", w);
    NormalGrounded(py, SCOPE_FIELDS, s, map[], w);
    TableAt(py, TRADE_FIELDS, s, "spot_trades", w);
    BorrowIsGrounded(py, s);
    TableAt(py, INTEREST_FIELDS, s, "margin_interest", w);
  }

  // ---------------------------------------------------------------- futures

  lemma HeldInside(py: Python, rows: seq<Row>, s: Value, key: string)
    requires forall i :: 0 <= i < |rows| ==> RowIn(rows[i], s)
    ensures RowIn(RowAt(Held(py, rows), key), s)
  {
    HeldMeans(py, rows, key);
  }

  lemma PositionsAreGrounded(py: Python, s: Row, key: string)
    ensures var account, risk := Held(py, AccountRows(s)), Held(py, RiskRows(s));
      RowGrounded(py, Object(s), PositionOf(py, account, risk, key))
  {
    var w := Object(s);
    AccountAt(s, "futures_account", w);
    LookupInside(AccountRow(s), "positions", w);
    LookupInside(s, "position_risk", w);
    forall i | 0 <= i < |AccountRows(s)| ensures RowIn(AccountRows(s)[i], w) {
      RowsInside(Lookup(AccountRow(s), "positions"), w, i);
    }
    forall i | 0 <= i < |RiskRows(s)| ensures RowIn(RiskRows(s)[i], w) { RowsInside(Lookup(s, "position_risk"), w, i); }
    HeldInside(py, AccountRows(s), w, key);
    HeldInside(py, RiskRows(s), w, key);
    var account, risk := Held(py, AccountRows(s)), Held(py, RiskRows(s));
    NormalGrounded(py, POSITION_FIELDS, RowAt(risk, key), RowAt(account, key), w);
  }

  /** The ratio is the only computed number: a quotient of two parsed ones, so it is zero only
      where the maintenance margin was parsed as zero. */
  ghost predicate RatioGrounded(py: Python, s: Value, ratio: Out) {
    ratio.Decimal? ==> exists margin: real, balance: real :: Divides(py, s, ratio.x, margin, balance)
  }

  ghost predicate Divides(py: Python, s: Value, x: real, margin: real, balance: real) {
    balance > 0.0 && x == margin / balance && Evidence(py, s, margin) && Evidence(py, s, balance)
  }

  lemma RatioIsGrounded(py: Python, s: Row)
    ensures RatioGrounded(py, Object(s), RatioOf(py, s))
    ensures RatioOf(py, s) == Decimal(0.0) ==> Evidence(py, Object(s), 0.0)
  {
    var w, row := Object(s), AccountRow(s);
    AccountAt(s, "futures_account", w);
    FieldGrounded(py, Spec("", Get("totalMarginBalance"), AsDecimal), row, map[], w);
    FieldGrounded(py, Spec("", Get("totalMaintMargin"), AsDecimal), row, map[], w);
    if RatioOf(py, s).Decimal? {
      var balance := Read(py, AsDecimal, Lookup(row, "totalMarginBalance")).x;
      var margin := Read(py, AsDecimal, Lookup(row, "totalMaintMargin")).x;
      assert Divides(py, w, RatioOf(py, s).x, margin, balance);
      if RatioOf(py, s).x == 0.0 { assert margin == (margin / balance) * balance; }
    }
  }

  ghost predicate FuturesGrounded(py: Python, s: Value, r: Futures) {
    && RowGrounded(py, s, r.wallet) && RatioGrounded(py, s, r.ratio) && TableGrounded(py, s, r.assets)
    && (forall key :: key in r.positions ==> RowGrounded(py, s, r.positions[key])) && !r.mode.Decimal?
    && TableGrounded(py, s, r.orders)
  }

  /** Whatever the snapshot, every decimal of the futures truth was parsed from a value in it. */
  lemma FuturesIsGrounded(py: Python, s: Row)
    ensures FuturesGrounded(py, Object(s), FuturesOf(py, s))
  {
    var w := Object(s);
    AccountAt(s, "futures_account", w);
    NormalGrounded(py, WALLET_FIELDS, AccountRow(s), map[], w);
    RatioIsGrounded(py, s);
    TableAt(py, ASSET_FIELDS, AccountRow(s), "assets", w);
    TableAt(py, FUTURES_ORDER_FIELDS, s, "futures_open_orders", w);
    forall key | key in FuturesOf(py, s).positions ensures RowGrounded(py, w, FuturesOf(py, s).positions[key]) {
      PositionsAreGrounded(py, s, key);
    }
  }

  // ---------------------------------------------------------------- zero

  predicate RowShows(outs: seq<Out>, x: real) { exists i :: 0 <= i < |outs| && outs[i] == Decimal(x) }

  predicate TableShows(rows: seq<seq<Out>>, x: real) { exists i :: 0 <= i < |rows| && RowShows(rows[i], x) }

  predicate SpotShows(r: Spot, x: real) {
    || RowShows(r.account, x) || TableShows(r.balances, x) || TableShows(r.orders, x) || RowShows(r.scope, x)
    || TableShows(r.trades, x) || TableShows(r.borrow, x) || TableShows(r.interest, x)
  }

  predicate FuturesShows(r: Futures, x: real) {
    || RowShows(r.wallet, x) || r.ratio == Decimal(x) || TableShows(r.assets, x)
    || (exists key :: key in r.positions && RowShows(r.positions[key], x)) || TableShows(r.orders, x)
  }

  lemma GroundedShows(py: Python, s: Value, rows: seq<seq<Out>>, x: real)
    requires TableGrounded(py, s, rows) && TableShows(rows, x)
    ensures Evidence(py, s, x)
  {
    var i :| 0 <= i < |rows| && RowShows(rows[i], x);
    assert RowGrounded(py, s, rows[i]);
  }

  lemma SpotShowsEvidence(py: Python, s: Row, x: real)
    requires SpotShows(SpotOf(py, s), x)
    ensures Evidence(py, Object(s), x)
  {
    SpotIsGrounded(py, s);
    var w, r := Object(s), SpotOf(py, s);
    if TableShows(r.balances, x) { GroundedShows(py, w, r.balances, x); }
    if TableShows(r.orders, x) { GroundedShows(py, w, r.orders, x); }
    if TableShows(r.trades, x) { GroundedShows(py, w, r.trades, x); }
    if TableShows(r.borrow, x) { GroundedShows(py, w, r.borrow, x); }
    if TableShows(r.interest, x) { GroundedShows(py, w, r.interest, x); }
  }

  lemma FuturesShowsEvidence(py: Python, s: Row, x: real)
    requires FuturesShows(FuturesOf(py, s), x) && RatioOf(py, s) != Decimal(x)
    ensures Evidence(py, Object(s), x)
  {
    FuturesIsGrounded(py, s);
    var w, r := Object(s), FuturesOf(py, s);
    if TableShows(r.assets, x) { GroundedShows(py, w, r.assets, x); }
    if TableShows(r.orders, x) { GroundedShows(py, w, r.orders, x); }
  }

  /** A snapshot in which nothing parses to zero shows no zero, however much of it is missing. */
  lemma ZeroIsNeverInvented(py: Python, s: Row)
    requires !Evidence(py, Object(s), 0.0)
    ensures !SpotShows(SpotOf(py, s), 0.0) && !FuturesShows(FuturesOf(py, s), 0.0)
  {
    if SpotShows(SpotOf(py, s), 0.0) { SpotShowsEvidence(py, s, 0.0); }
    RatioIsGrounded(py, s);
    if FuturesShows(FuturesOf(py, s), 0.0) { FuturesShowsEvidence(py, s, 0.0); }
  }
}
