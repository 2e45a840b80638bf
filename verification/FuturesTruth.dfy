/** USD-M futures evidence: two projections of every position, and the status of the whole. */
module FuturesTruth {
  import opened AccountTruth
  import opened VenueTruth
  import opened Text
  import opened Wrappers

  // ---------------------------------------------------------------- positions of one projection

  function AmountOf(py: Python, row: Row): Out { Read(py, AsDecimal, Lookup(row, "positionAmt")) }

  function SymbolOf(py: Python, row: Row): Out { Read(py, AsText, Lookup(row, "symbol")) }

  function SideOf(py: Python, row: Row): Out {
    Read(py, AsText, Fetch(GetOr("positionSide", Words("BOTH")), row, map[]))
  }

  predicate Readable(py: Python, row: Row) {
    !AmountOf(py, row).Absent? && !SymbolOf(py, row).Absent? && !SideOf(py, row).Absent?
  }

  function KeyOf(py: Python, row: Row): string
    requires Readable(py, row)
  {
    Upper(SymbolOf(py, row).s) + "|" + Upper(SideOf(py, row).s)
  }

  /** A row that holds a position under this key. */
  predicate HoldsKey(py: Python, row: Row, key: string) {
    Readable(py, row) && AmountOf(py, row) != Decimal(0.0) && KeyOf(py, row) == key
  }

  /** The rows that hold a position, the first of each key. */
  function Held(py: Python, rows: seq<Row>): map<string, Row> {
    if rows == [] then map[] else
      var n := |rows| - 1;
      var before := Held(py, rows[..n]);
      if Readable(py, rows[n]) && AmountOf(py, rows[n]) != Decimal(0.0) && KeyOf(py, rows[n]) !in before
      then before[KeyOf(py, rows[n]) := rows[n]] else before
  }

  predicate Clashing(py: Python, a: Row, b: Row) {
    Readable(py, a) && Readable(py, b) && AmountOf(py, a) != Decimal(0.0) && AmountOf(py, b) != Decimal(0.0)
      && KeyOf(py, a) == KeyOf(py, b)
  }

  /** Every row is readable, and no key is held twice. */
  predicate ProjectionOk(py: Python, rows: seq<Row>) {
    && (forall i :: 0 <= i < |rows| ==> Readable(py, rows[i]))
    && (forall i, j :: 0 <= i < j < |rows| ==> !Clashing(py, rows[i], rows[j]))
  }

  /** Row `i` is the first to hold the key. */
  predicate FirstHolds(py: Python, rows: seq<Row>, key: string, i: nat) {
    i < |rows| && HoldsKey(py, rows[i], key) && forall j :: 0 <= j < i ==> !HoldsKey(py, rows[j], key)
  }

  ghost predicate HeldIn(py: Python, rows: seq<Row>, key: string) {
    exists i :: 0 <= i < |rows| && HoldsKey(py, rows[i], key)
  }

  /** The row is the first of the list to hold the key. */
  ghost predicate HeldFirst(py: Python, rows: seq<Row>, key: string, row: Row) {
    exists i: nat :: FirstHolds(py, rows, key, i) && rows[i] == row
  }

  /** One more row holds a key first only where none did. */
  lemma FirstHolderStep(py: Python, front: seq<Row>, row: Row, key: string, holder: Row)
    ensures HeldFirst(py, front, key, holder) ==> HeldFirst(py, front + [row], key, holder)
    ensures !HeldIn(py, front, key) && HoldsKey(py, row, key) ==> HeldFirst(py, front + [row], key, row)
    ensures HeldIn(py, front + [row], key) <==> HeldIn(py, front, key) || HoldsKey(py, row, key)
  {
    var more := front + [row];
    forall j | 0 <= j < |front| ensures more[j] == front[j] {}
    assert more[|front|] == row;
    if HeldIn(py, front, key) {
      var j :| 0 <= j < |front| && HoldsKey(py, front[j], key);
      assert HoldsKey(py, more[j], key);
    } else if HoldsKey(py, row, key) {
      assert FirstHolds(py, more, key, |front|);
    }
    if HeldFirst(py, front, key, holder) {
      var i: nat :| FirstHolds(py, front, key, i) && front[i] == holder;
      assert FirstHolds(py, more, key, i);
    }
  }

  lemma HeldStep(py: Python, rows: seq<Row>, key: string)
    requires rows != []
    ensures var n := |rows| - 1; var before := Held(py, rows[..n]);
      && (key in Held(py, rows) <==> key in before || HoldsKey(py, rows[n], key))
      && (key in Held(py, rows) ==> Held(py, rows)[key] == if key in before then before[key] else rows[n])
  {
  }

  /** A key is held exactly when some row holds it, and then by the first such row. */
  lemma {:induction false} HeldMeans(py: Python, rows: seq<Row>, key: string)
    ensures key in Held(py, rows) <==> HeldIn(py, rows, key)
    ensures key in Held(py, rows) ==> HeldFirst(py, rows, key, Held(py, rows)[key])
  {
    if rows != [] {
      var n := |rows| - 1;
      HeldMeans(py, rows[..n], key);
      HeldStep(py, rows, key);
      assert rows == rows[..n] + [rows[n]];
      var before := Held(py, rows[..n]);
      FirstHolderStep(py, rows[..n], rows[n], key, if key in before then before[key] else rows[n]);
    }
  }

  /** A row that adds nothing wrong to the rows before it. */
  predicate Fits(py: Python, front: seq<Row>, row: Row) {
    Readable(py, row) && (AmountOf(py, row) != Decimal(0.0) ==> KeyOf(py, row) !in Held(py, front))
  }

  lemma FittingIsNew(py: Python, front: seq<Row>, row: Row, i: nat)
    requires Fits(py, front, row) && i < |front|
    ensures !Clashing(py, front[i], row)
  {
    HeldMeans(py, front, KeyOf(py, row));
    if Clashing(py, front[i], row) { assert HoldsKey(py, front[i], KeyOf(py, row)); }
  }

  lemma ProjectionGrows(py: Python, front: seq<Row>, row: Row)
    requires ProjectionOk(py, front) && Fits(py, front, row)
    ensures ProjectionOk(py, front + [row])
  {
    var more := front + [row];
    forall i, j | 0 <= i < j < |more| ensures !Clashing(py, more[i], more[j]) {
      if j == |front| { FittingIsNew(py, front, row, i); } else { assert !Clashing(py, front[i], front[j]); }
    }
  }

  lemma ProjectionShrinks(py: Python, front: seq<Row>, row: Row)
    requires ProjectionOk(py, front + [row])
    ensures ProjectionOk(py, front) && Fits(py, front, row)
  {
    var more := front + [row];
    assert Readable(py, more[|front|]);
    forall i | 0 <= i < |front| ensures Readable(py, front[i]) { assert Readable(py, more[i]); }
    forall i, j | 0 <= i < j < |front| ensures !Clashing(py, front[i], front[j]) {
      assert !Clashing(py, more[i], more[j]);
    }
    var key := KeyOf(py, row);
    HeldMeans(py, front, key);
    if key in Held(py, front) {
      var i :| 0 <= i < |front| && HoldsKey(py, front[i], key);
      assert !Clashing(py, more[i], more[|front|]);
    }
  }

  lemma ProjectionStep(py: Python, rows: seq<Row>, n: nat)
    requires n < |rows|
    ensures ProjectionOk(py, rows[..n + 1]) <==> ProjectionOk(py, rows[..n]) && Fits(py, rows[..n], rows[n])
  {
    assert rows[..n + 1] == rows[..n] + [rows[n]];
    if ProjectionOk(py, rows[..n + 1]) { ProjectionShrinks(py, rows[..n], rows[n]); }
    if ProjectionOk(py, rows[..n]) && Fits(py, rows[..n], rows[n]) { ProjectionGrows(py, rows[..n], rows[n]); }
  }

  /** The key of a row that holds a position; an unreadable row is entered. */
  method ReadPosition(py: Python, row: Row, path: Path, missing: Missing) returns (key: Option<string>)
    modifies missing
    ensures key.Some? <==> Readable(py, row) && AmountOf(py, row) != Decimal(0.0)
    ensures key.Some? ==> key.value == KeyOf(py, row)
    ensures old(missing.paths) <= missing.paths
    ensures missing.Clean(old(missing.paths)) <==> Readable(py, row)
  {
    var amount := ReadField(py, AsDecimal, Lookup(row, "positionAmt"), Field(path, "positionAmt"), missing);
    var symbol := ReadField(py, AsText, Lookup(row, "symbol"), Field(path, "symbol"), missing);
    var side := ReadField(py, AsText, Fetch(GetOr("positionSide", Words("BOTH")), row, map[]),
                          Field(path, "positionSide"), missing);
    if amount.Absent? || symbol.Absent? || side.Absent? || amount == Decimal(0.0) { return None; }
    key := Some(Upper(symbol.s) + "|" + Upper(side.s));
  }

  method NonzeroPositionRows(py: Python, rows: seq<Row>, path: Path, missing: Missing) returns (held: map<string, Row>)
    modifies missing
    ensures held == Held(py, rows)
    ensures old(missing.paths) <= missing.paths
    ensures missing.Clean(old(missing.paths)) <==> ProjectionOk(py, rows)
  {
    held := map[];
    for n := 0 to |rows|
      invariant held == Held(py, rows[..n])
      invariant old(missing.paths) <= missing.paths
      invariant missing.Clean(old(missing.paths)) <==> ProjectionOk(py, rows[..n])
    {
      ProjectionStep(py, rows, n);
      assert rows[..n + 1][..n] == rows[..n];
      var key := ReadPosition(py, rows[n], At(path, n), missing);
      if key.Some? {
        if key.value in held { missing.Enter(Field(path, "duplicate")); } else { held := held[key.value := rows[n]]; }
      }
    }
    assert rows[..|rows|] == rows;
  }

  // ---------------------------------------------------------------- both projections

  function RowAt(held: map<string, Row>, key: string): Row { if key in held then held[key] else map[] }

  predicate PositionOk(py: Python, account: map<string, Row>, risk: map<string, Row>, key: string) {
    key in account && key in risk && Complete(py, POSITION_FIELDS, RowAt(risk, key), RowAt(account, key))
  }

  function PositionOf(py: Python, account: map<string, Row>, risk: map<string, Row>, key: string): seq<Out> {
    Normal(py, POSITION_FIELDS, RowAt(risk, key), RowAt(account, key))
  }

  predicate PositionsOk(py: Python, account: map<string, Row>, risk: map<string, Row>) {
    forall key :: key in account.Keys + risk.Keys ==> PositionOk(py, account, risk, key)
  }

  function Positions(py: Python, account: map<string, Row>, risk: map<string, Row>): map<string, seq<Out>> {
    map key | key in account.Keys + risk.Keys :: PositionOf(py, account, risk, key)
  }

  ghost predicate Visited(py: Python, account: map<string, Row>, risk: map<string, Row>, done: set<string>,
                          positions: map<string, seq<Out>>, clean: bool) {
    && done <= account.Keys + risk.Keys && positions.Keys == done
    && (forall key :: key in done ==> positions[key] == PositionOf(py, account, risk, key))
    && (clean <==> forall key :: key in done ==> PositionOk(py, account, risk, key))
  }

  lemma VisitOne(py: Python, account: map<string, Row>, risk: map<string, Row>, done: set<string>,
                 positions: map<string, seq<Out>>, clean: bool, key: string)
    requires Visited(py, account, risk, done, positions, clean) && key in account.Keys + risk.Keys && key !in done
    ensures Visited(py, account, risk, done + {key}, positions[key := PositionOf(py, account, risk, key)],
                    clean && PositionOk(py, account, risk, key))
  {
  }

  lemma VisitedAll(py: Python, account: map<string, Row>, risk: map<string, Row>, done: set<string>,
                   positions: map<string, seq<Out>>, clean: bool)
    requires Visited(py, account, risk, done, positions, clean) && account.Keys + risk.Keys - done == {}
    ensures positions == Positions(py, account, risk) && (clean <==> PositionsOk(py, account, risk))
  {
    forall key | key in account.Keys + risk.Keys ensures key in done { assert key !in account.Keys + risk.Keys - done; }
  }

  /** Joins the two projections key by key; a key that only one of them holds is entered. */
  method JoinPositions(py: Python, account: map<string, Row>, risk: map<string, Row>, path: Path, missing: Missing)
      returns (positions: map<string, seq<Out>>)
    modifies missing
    ensures positions == Positions(py, account, risk)
    ensures old(missing.paths) <= missing.paths
    ensures missing.Clean(old(missing.paths)) <==> PositionsOk(py, account, risk)
  {
    positions := map[];
    var keys, done: set<string> := account.Keys + risk.Keys, {};
    while keys - done != {}
      invariant old(missing.paths) <= missing.paths
      invariant Visited(py, account, risk, done, positions, missing.Clean(old(missing.paths)))
      decreases keys - done
    {
      var key :| key in keys - done;
      VisitOne(py, account, risk, done, positions, missing.Clean(old(missing.paths)), key);
      var outs := JoinPosition(py, account, risk, key, Field(path, key), missing);
      positions := positions[key := outs];
      done := done + {key};
    }
    VisitedAll(py, account, risk, done, positions, missing.Clean(old(missing.paths)));
  }

  method JoinPosition(py: Python, account: map<string, Row>, risk: map<string, Row>, key: string, path: Path,
                      missing: Missing)
      returns (outs: seq<Out>)
    modifies missing
    ensures outs == PositionOf(py, account, risk, key)
    ensures old(missing.paths) <= missing.paths
    ensures missing.Clean(old(missing.paths)) <==> PositionOk(py, account, risk, key)
  {
    Demand(key in account, Field(path, "account_projection"), missing);
    Demand(key in risk, Field(path, "risk_projection"), missing);
    outs := ReadRow(py, POSITION_FIELDS, RowAt(risk, key), RowAt(account, key), path, missing);
  }

  // ---------------------------------------------------------------- the venue

  datatype Futures = Futures(wallet: seq<Out>, ratio: Out, assets: seq<seq<Out>>, positions: map<string, seq<Out>>,
                             mode: Out, orders: seq<seq<Out>>)

  function AccountRow(s: Row): Row { AccountOf(Lookup(s, "futures_account")) }

  function AccountRows(s: Row): seq<Row> { RowsOf(Lookup(AccountRow(s), "positions")) }

  function RiskRows(s: Row): seq<Row> { RowsOf(Lookup(s, "position_risk")) }

  /** Maintenance margin over margin balance, where both are read and the balance is positive. */
  function RatioOf(py: Python, s: Row): Out {
    var balance := Read(py, AsDecimal, Lookup(AccountRow(s), "totalMarginBalance"));
    var margin := Read(py, AsDecimal, Lookup(AccountRow(s), "totalMaintMargin"));
    if balance.Decimal? && margin.Decimal? && balance.x > 0.0 then Decimal(margin.x / balance.x) else Absent
  }

  function ModeOf(s: Row): Out {
    var v := Lookup(AccountOf(Lookup(s, "futures_position_mode")), "dualSidePosition");
    if v.Flag? then Label(if v.b then "HEDGE" else "ONE_WAY") else Absent
  }

  predicate ListOk(v: Value) { v.Items? && AllObjects(v.items) }

  predicate WalletOk(py: Python, s: Row) {
    && Lookup(s, "futures_account").Object? && Complete(py, WALLET_FIELDS, AccountRow(s), map[])
         && !RatioOf(py, s).Absent?
    && TableOk(py, ASSET_FIELDS, Lookup(AccountRow(s), "assets"))
  }

  predicate ProjectionsOk(py: Python, s: Row) {
    && ListOk(Lookup(AccountRow(s), "positions")) && ProjectionOk(py, AccountRows(s))
    && ListOk(Lookup(s, "position_risk")) && ProjectionOk(py, RiskRows(s))
    && PositionsOk(py, Held(py, AccountRows(s)), Held(py, RiskRows(s)))
  }

  predicate ModeOk(py: Python, s: Row) {
    Lower(if Truthy(Lookup(s, "futures_position_mode_status"))
      then py.textOf(Lookup(s, "futures_position_mode_status")) else "") == "available"
    && !ModeOf(s).Absent? && TableOk(py, FUTURES_ORDER_FIELDS, Lookup(s, "futures_open_orders"))
  }

  /** All the futures evidence a complete status promises. */
  predicate FuturesOk(py: Python, s: Row) { WalletOk(py, s) && ProjectionsOk(py, s) && ModeOk(py, s) }

  function FuturesOf(py: Python, s: Row): Futures {
    Futures(Normal(py, WALLET_FIELDS, AccountRow(s), map[]), RatioOf(py, s),
            Table(py, ASSET_FIELDS, Lookup(AccountRow(s), "assets")),
            Positions(py, Held(py, AccountRows(s)), Held(py, RiskRows(s))), ModeOf(s),
            Table(py, FUTURES_ORDER_FIELDS, Lookup(s, "futures_open_orders")))
  }

  predicate FuturesGapless(r: Futures) {
    && Gapless(r.wallet) && !r.ratio.Absent? && GaplessTable(r.assets)
         && (forall k :: k in r.positions ==> Gapless(r.positions[k]))
    && !r.mode.Absent? && GaplessTable(r.orders)
  }

  lemma JoinedHaveNoGaps(py: Python, account: map<string, Row>, risk: map<string, Row>, key: string)
    requires PositionsOk(py, account, risk) && key in account.Keys + risk.Keys
    ensures Gapless(PositionOf(py, account, risk, key))
  {
    assert PositionOk(py, account, risk, key);
    NormalIsGapless(py, POSITION_FIELDS, RowAt(risk, key), RowAt(account, key));
  }

  lemma KeysAreUnique(py: Python, rows: seq<Row>, key: string, i: nat, j: nat)
    requires ProjectionOk(py, rows) && i < j < |rows|
    ensures !(HoldsKey(py, rows[i], key) && HoldsKey(py, rows[j], key))
  {
    assert !Clashing(py, rows[i], rows[j]);
  }

  /** Some row holds the key, and no other does. */
  ghost predicate HeldOnce(py: Python, rows: seq<Row>, key: string) {
    exists i :: 0 <= i < |rows| && HoldsKey(py, rows[i], key) && forall j :: 0 <= j < |rows| && j != i ==>
      !HoldsKey(py, rows[j], key)
  }

  lemma HeldIsOnce(py: Python, rows: seq<Row>, key: string)
    requires ProjectionOk(py, rows)
    ensures HeldIn(py, rows, key) <==> HeldOnce(py, rows, key)
  {
    if HeldIn(py, rows, key) {
      var i :| 0 <= i < |rows| && HoldsKey(py, rows[i], key);
      forall j | 0 <= j < |rows| && j != i ensures !HoldsKey(py, rows[j], key) {
        if i < j { KeysAreUnique(py, rows, key, i, j); } else { KeysAreUnique(py, rows, key, j, i); }
      }
    }
  }

  /** Every position is held by exactly one row of each projection. */
  lemma ProjectionsAgree(py: Python, s: Row, key: string)
    requires ProjectionsOk(py, s)
    ensures key in FuturesOf(py, s).positions <==> HeldOnce(py, AccountRows(s), key)
    ensures key in FuturesOf(py, s).positions <==> HeldOnce(py, RiskRows(s), key)
  {
    var account, risk := Held(py, AccountRows(s)), Held(py, RiskRows(s));
    HeldMeans(py, AccountRows(s), key);
    HeldMeans(py, RiskRows(s), key);
    HeldIsOnce(py, AccountRows(s), key);
    HeldIsOnce(py, RiskRows(s), key);
    assert key in account.Keys + risk.Keys ==> PositionOk(py, account, risk, key);
  }

  /** Complete futures evidence leaves no gap at any depth. */
  lemma FuturesHasNoGaps(py: Python, s: Row)
    requires FuturesOk(py, s)
    ensures FuturesGapless(FuturesOf(py, s))
  {
    NormalIsGapless(py, WALLET_FIELDS, AccountRow(s), map[]);
    TableIsGapless(py, ASSET_FIELDS, Lookup(AccountRow(s), "assets"));
    TableIsGapless(py, FUTURES_ORDER_FIELDS, Lookup(s, "futures_open_orders"));
    forall key | key in FuturesOf(py, s).positions ensures Gapless(FuturesOf(py, s).positions[key]) {
      JoinedHaveNoGaps(py, Held(py, AccountRows(s)), Held(py, RiskRows(s)), key);
    }
  }

  predicate MarginsRead(py: Python, row: Row) {
    Read(py, AsDecimal, Lookup(row, "totalMarginBalance")).Decimal?
      && Read(py, AsDecimal, Lookup(row, "totalMaintMargin")).Decimal?
  }

  method ReadRatio(py: Python, s: Row, path: Path, missing: Missing) returns (ratio: Out)
    modifies missing
    ensures ratio == RatioOf(py, s)
    ensures old(missing.paths) <= missing.paths
    ensures !ratio.Absent? ==> missing.Clean(old(missing.paths))
    ensures ratio.Absent? && MarginsRead(py, AccountRow(s)) ==> !missing.Clean(old(missing.paths))
  {
    var balance := Read(py, AsDecimal, Lookup(AccountRow(s), "totalMarginBalance"));
    var margin := Read(py, AsDecimal, Lookup(AccountRow(s), "totalMaintMargin"));
    ratio := Absent;
    if balance.Decimal? && margin.Decimal? {
      if balance.x > 0.0 { ratio := Decimal(margin.x / balance.x); } else { missing.Enter(path); }
    }
  }

  method NormalizeWallet(py: Python, s: Row, missing: Missing)
      returns (wallet: seq<Out>, ratio: Out, assets: seq<seq<Out>>)
    modifies missing
    ensures wallet == FuturesOf(py, s).wallet && ratio == RatioOf(py, s) && assets == FuturesOf(py, s).assets
    ensures old(missing.paths) <= missing.paths
    ensures missing.Clean(old(missing.paths)) <==> WalletOk(py, s)
  {
    var prefix := Root("usd_m_futures");
    var row := ReadAccount(Lookup(s, "futures_account"), Field(prefix, "account"), missing);
    wallet := ReadRow(py, WALLET_FIELDS, row, map[], prefix, missing);
    if Complete(py, WALLET_FIELDS, row, map[]) { WalletReads(py, row); }
    ratio := ReadRatio(py, s, Field(prefix, "margin_ratio"), missing);
    assets := ReadTable(py, ASSET_FIELDS, Lookup(row, "assets"), Field(prefix, "assets"), missing);
  }

  lemma WalletReads(py: Python, row: Row)
    requires Complete(py, WALLET_FIELDS, row, map[])
    ensures MarginsRead(py, row)
  {
    assert !FieldOf(py, WALLET_FIELDS[2], row, map[]).Absent? && !FieldOf(py, WALLET_FIELDS[3], row, map[]).Absent?;
  }

  method NormalizePositions(py: Python, s: Row, missing: Missing) returns (positions: map<string, seq<Out>>)
    modifies missing
    ensures positions == FuturesOf(py, s).positions
    ensures old(missing.paths) <= missing.paths
    ensures missing.Clean(old(missing.paths)) <==> ProjectionsOk(py, s)
  {
    var prefix := Root("usd_m_futures");
    var accountRows := ReadRows(Lookup(AccountRow(s), "positions"), Field(prefix, "account_positions"), missing);
    var account := NonzeroPositionRows(py, accountRows, Field(prefix, "account_positions"), missing);
    var riskRows := ReadRows(Lookup(s, "position_risk"), Field(prefix, "position_risk"), missing);
    var risk := NonzeroPositionRows(py, riskRows, Field(prefix, "position_risk"), missing);
    positions := JoinPositions(py, account, risk, Field(prefix, "positions"), missing);
  }

  method NormalizeMode(py: Python, s: Row, missing: Missing) returns (mode: Out, orders: seq<seq<Out>>)
    modifies missing
    ensures mode == ModeOf(s) && orders == FuturesOf(py, s).orders
    ensures old(missing.paths) <= missing.paths
    ensures missing.Clean(old(missing.paths)) <==> ModeOk(py, s)
  {
    var prefix := Root("usd_m_futures");
    var status := Lookup(s, "futures_position_mode_status");
    Demand(Lower(if Truthy(status) then py.textOf(status) else "") == "available",
           Field(prefix, "position_mode.availability"), missing);
    mode := ModeOf(s);
    Demand(!mode.Absent?, Field(prefix, "position_mode"), missing);
    orders := ReadTable(py, FUTURES_ORDER_FIELDS, Lookup(s, "futures_open_orders"), Field(prefix, "open_orders"),
                        missing);
  }

  /** The list of missing fields stays empty exactly when the evidence is complete. */
  method NormalizeFutures(py: Python, s: Row, missing: Missing) returns (r: Futures)
    modifies missing
    ensures r == FuturesOf(py, s)
    ensures old(missing.paths) <= missing.paths
    ensures missing.Clean(old(missing.paths)) <==> FuturesOk(py, s)
  {
    var wallet, ratio, assets := NormalizeWallet(py, s, missing);
    var positions := NormalizePositions(py, s, missing);
    var mode, orders := NormalizeMode(py, s, missing);
    r := Futures(wallet, ratio, assets, positions, mode, orders);
  }

  // ---------------------------------------------------------------- the verdict

  datatype Status = UNKNOWN | STALE | COMPLETE

  /** Times in seconds; `None` where a time cannot be read. */
  datatype Clock = Clock(availability: Option<int>, captured: Option<int>, capturedGiven: bool, now: int, maxAge: int)

  function MaxAge(c: Clock): int { if c.maxAge < 1 then 1 else c.maxAge }

  /** Too old, or more than five seconds ahead of the clock. */
  predicate Stale(c: Clock) {
    c.availability.Some? && (c.now > c.availability.value + MaxAge(c) || c.availability.value > c.now + 5)
  }

  datatype AccountStatus = AccountStatus(overall: Status, spot: Status, futures: Status, standardSpot: Spot,
                                         usdMFutures: Futures)

  function StatusFor(clean: bool, c: Clock): Status {
    if !clean || c.availability.None? then UNKNOWN else if Stale(c) then STALE else COMPLETE
  }

  method MissingTimes(c: Clock) returns (paths: seq<Path>)
    ensures paths == [] <==> c.availability.Some? && (c.capturedGiven ==> c.captured.Some?)
  {
    var missing := new Missing();
    Demand(c.availability.Some?, Root("availability_time"), missing);
    Demand(c.capturedGiven ==> c.captured.Some?, Root("captured_at"), missing);
    paths := missing.paths;
  }

  /** Each venue has a list of missing fields of its own. */
  method SpotAlone(py: Python, s: Row) returns (r: Spot, paths: seq<Path>)
    ensures r == SpotOf(py, s) && (paths == [] <==> SpotOk(py, s))
  {
    var missing := new Missing();
    r := NormalizeSpot(py, s, missing);
    paths := missing.paths;
  }

  method FuturesAlone(py: Python, s: Row) returns (r: Futures, paths: seq<Path>)
    ensures r == FuturesOf(py, s) && (paths == [] <==> FuturesOk(py, s))
  {
    var missing := new Missing();
    r := NormalizeFutures(py, s, missing);
    paths := missing.paths;
  }

  method NormalizeBinanceAccountTruth(py: Python, s: Row, c: Clock) returns (r: AccountStatus)
    ensures r.standardSpot == SpotOf(py, s) && r.usdMFutures == FuturesOf(py, s)
    ensures r.spot == StatusFor(SpotOk(py, s), c) && r.futures == StatusFor(FuturesOk(py, s), c)
    ensures r.overall == StatusFor(SpotOk(py, s) && FuturesOk(py, s) && (c.capturedGiven ==> c.captured.Some?), c)
  {
    var times := MissingTimes(c);
    var spot, spotMissing := SpotAlone(py, s);
    var futures, futuresMissing := FuturesAlone(py, s);
    var paths := times + spotMissing + futuresMissing;
    var spotStatus := StatusFor(spotMissing == [], c);
    var futuresStatus := StatusFor(futuresMissing == [], c);
    var overall := if paths != [] then UNKNOWN else if Stale(c) then STALE else COMPLETE;
    r := AccountStatus(overall, spotStatus, futuresStatus, spot, futures);
  }

  /** A complete account has complete venues, fresh evidence, and no gap anywhere. */
  lemma CompleteMeansWhole(py: Python, s: Row, c: Clock)
    requires StatusFor(SpotOk(py, s) && FuturesOk(py, s) && (c.capturedGiven ==> c.captured.Some?), c) == COMPLETE
    ensures StatusFor(SpotOk(py, s), c) == COMPLETE && StatusFor(FuturesOk(py, s), c) == COMPLETE && !Stale(c)
    ensures SpotGapless(SpotOf(py, s)) && FuturesGapless(FuturesOf(py, s))
  {
    SpotHasNoGaps(py, s);
    FuturesHasNoGaps(py, s);
  }
}
