/** Account reconciliation: one long classification that ends in a readiness bit. */
module Reconciliation {
  import opened Text
  import opened Account
  import opened Numbers
  import opened Positions
  import Tally

  datatype Code =
    | IdentityUnconfigured | IdentityMismatch
    | EndpointIncomplete | MarginLiabilityUnverified | MarginOrderUnverified | SnapshotError
    | DuplicatePosition | EndpointMismatch
    | ExchangeOnly | ManagedMismatch | ManualReview | LocalOnly
    | SpotShortfall | UnvaluedSpot | UnassignedSpot
    | LiabilityShortfall | UnassignedLiability
    | OrphanOrder | UnrelatedOrder | OwnershipUnknown

  datatype Issue = Issue(code: Code, subject: string)

  datatype PositionClass = OnExchangeOnly | Mismatched | InManualReview | Matched | OnlyLocal

  datatype ClassifiedPosition = ClassifiedPosition(symbol: string, kind: PositionClass, direction: Direction,
                                                   exchangeQty: real, localQty: real, hedgeAsset: string,
                                                   hedgeQty: real)

  datatype LiabilityClass = DebtMatched | DebtShort | DebtUnassigned

  datatype ClassifiedLiability = ClassifiedLiability(asset: string, quantity: real, covered: real, residual: real,
                                                     kind: LiabilityClass)

  datatype ClassifiedOrder = ClassifiedOrder(order: OrderRow, ownership: Ownership)

  datatype Report = Report(
    ready: bool,
    snapshotComplete: bool,
    orders: seq<ClassifiedOrder>,
    positions: seq<ClassifiedPosition>,
    liabilities: seq<ClassifiedLiability>,
    issues: seq<Issue>)

  // ---------------------------------------------------------------- the account as a whole

  function ObservedUid(s: Snapshot): string { if s.spotAccount.Usable? then Strip(s.spotAccount.value.uid) else "" }

  predicate IdentityOk(s: Snapshot, o: Options) {
    var expected := Strip(o.expectedUid);
    if expected == "" then !o.requireUid else ObservedUid(s) == expected
  }

  predicate Complete(s: Snapshot) {
    && !s.futuresAccount.Unavailable? && !s.positionRisk.Unavailable? && !s.futuresOpenOrders.Unavailable?
    && !s.spotAccount.Unavailable? && !s.spotOpenOrders.Unavailable?
    && (s.futuresAccount.Usable? ==> !s.futuresAccount.value.positions.Unavailable?)
    && !s.marginStatus.Unproven? && !s.marginOrdersStatus.Unproven?
    && s.errors <= {"funding_income"}
  }

  predicate Incompleteness(c: Code) {
    c.EndpointIncomplete? || c.SnapshotError? || c.MarginLiabilityUnverified? || c.MarginOrderUnverified?
  }

  function Unless(ok: bool, issue: Issue): seq<Issue> { if ok then [] else [issue] }

  function IdentityIssues(s: Snapshot, o: Options): (issues: seq<Issue>)
    ensures issues == [] <==> IdentityOk(s, o)
    ensures forall x :: x in issues ==> !Incompleteness(x.code)
  {
    var expected := Strip(o.expectedUid);
    if o.requireUid && expected == "" then [Issue(IdentityUnconfigured, "")]
    else Unless(expected == "" || ObservedUid(s) == expected, Issue(IdentityMismatch, ""))
  }

  function FieldIssues(s: Snapshot): (issues: seq<Issue>)
    ensures issues == [] <==>
            && !s.futuresAccount.Unavailable? && !s.positionRisk.Unavailable? && !s.futuresOpenOrders.Unavailable?
            && !s.spotAccount.Unavailable? && !s.spotOpenOrders.Unavailable?
            && (s.futuresAccount.Usable? ==> !s.futuresAccount.value.positions.Unavailable?)
    ensures forall x :: x in issues ==> x.code == EndpointIncomplete
  {
    Unless(!s.futuresAccount.Unavailable?, Issue(EndpointIncomplete, "futures_account"))
    + Unless(!s.positionRisk.Unavailable?, Issue(EndpointIncomplete, "position_risk"))
    + Unless(!s.futuresOpenOrders.Unavailable?, Issue(EndpointIncomplete, "futures_open_orders"))
    + Unless(!s.spotAccount.Unavailable?, Issue(EndpointIncomplete, "spot_account"))
    + Unless(!s.spotOpenOrders.Unavailable?, Issue(EndpointIncomplete, "spot_open_orders"))
    + Unless(s.futuresAccount.Usable? ==> !s.futuresAccount.value.positions.Unavailable?,
             Issue(EndpointIncomplete, "positions"))
  }

  /** Endpoint availability and snapshot errors. */
  method EndpointIssues(s: Snapshot) returns (issues: seq<Issue>)
    ensures issues == [] <==> Complete(s)
    ensures forall x :: x in issues ==> Incompleteness(x.code)
  {
    var keys := s.errors - {"funding_income"};
    var errors := Flag(keys, _ => [SnapshotError]);
    FlagSilent(keys, _ => [SnapshotError], errors);
    assert keys == {} <==> s.errors <= {"funding_income"};
    issues := FieldIssues(s) + Unless(!s.marginStatus.Unproven?, Issue(MarginLiabilityUnverified, ""))
      + Unless(!s.marginOrdersStatus.Unproven?, Issue(MarginOrderUnverified, "")) + errors;
  }

  // ---------------------------------------------------------------- flagging loops

  /** Visits every key once and records what its verdict says. */
  method Flag(keys: set<string>, verdict: string -> seq<Code>) returns (issues: seq<Issue>)
    ensures forall x :: x in issues <==> x.subject in keys && x.code in verdict(x.subject)
  {
    issues := [];
    var pending := keys;
    while pending != {}
      invariant pending <= keys
      invariant forall x :: x in issues <==> x.subject in keys - pending && x.code in verdict(x.subject)
      decreases pending
    {
      var k :| k in pending;
      var found := seq(|verdict(k)|, i requires 0 <= i < |verdict(k)| => Issue(verdict(k)[i], k));
      assert forall x :: x in found <==> x.subject == k && x.code in verdict(k) by {
        forall x: Issue | x.subject == k && x.code in verdict(k) ensures x in found {
          var i :| 0 <= i < |verdict(k)| && verdict(k)[i] == x.code;
          assert found[i] == x;
        }
      }
      issues := issues + found;
      pending := pending - {k};
    }
  }

  lemma AllVisited(keys: set<string>, done: set<string>)
    requires done <= keys && keys - done == {}
    ensures done == keys
  {
    forall k | k in keys
      ensures k in done
    {
      assert k !in keys - done;
    }
  }

  lemma FlagSilent(keys: set<string>, verdict: string -> seq<Code>, issues: seq<Issue>)
    requires forall x :: x in issues <==> x.subject in keys && x.code in verdict(x.subject)
    ensures issues == [] <==> forall k :: k in keys ==> verdict(k) == []
  {
    if k :| k in keys && verdict(k) != [] {
      assert Issue(verdict(k)[0], k) in issues;
    } else if issues != [] {
      assert issues[0] in issues;
    }
  }

  // ---------------------------------------------------------------- positions

  type LocalTable = map<string, LocalRow>

  /** Managed positions by symbol; a later row replaces an earlier one. */
  function LocalMapOf(rows: seq<LocalRow>): LocalTable {
    if rows == [] then map[]
    else
      var r, m := rows[|rows| - 1], LocalMapOf(rows[..|rows| - 1]);
      if ManagedIn(r, Upper(r.symbol)) then m[Upper(r.symbol) := r] else m
  }

  function Qty(row: PositionRow): real { Abs(Decimal(row.amount)) }

  function RowDirection(row: PositionRow): Direction { DirectionOf(Decimal(row.amount), row.side) }

  function ClassOf(symbol: string, row: PositionRow, local: LocalTable, tolerance: real): PositionClass {
    if symbol !in local then OnExchangeOnly
    else if LocalDirection(local[symbol]) != RowDirection(row)
      || Abs(Decimal(local[symbol].qty) - Qty(row)) > tolerance then Mismatched
    else if Lower(Strip(local[symbol].recoveryState)) == "manual_review" then InManualReview
    else Matched
  }

  function ClassCodes(c: PositionClass): seq<Code> {
    match c
    case OnExchangeOnly => [ExchangeOnly]
    case Mismatched => [ManagedMismatch]
    case InManualReview => [ManualReview]
    case OnlyLocal => [LocalOnly]
    case Matched => []
  }

  /** The symbols of one direction whose hedge is held in `asset`. */
  function Legs(exchange: PositionTable, d: Direction, asset: string): set<string> {
    set s | s in exchange && RowDirection(exchange[s]) == d && BaseAsset(s) == asset
  }

  function QtyOf(exchange: PositionTable): string -> real { s => if s in exchange then Qty(exchange[s]) else 0.0 }

  /** Total exchange quantity of one direction that must be hedged in `asset`. */
  ghost function Exposure(exchange: PositionTable, d: Direction, asset: string): real {
    Tally.SumOver(Legs(exchange, d, asset), QtyOf(exchange))
  }

  /** `required` accumulates the legs among the symbols visited so far. */
  ghost predicate Accumulates(required: map<string, real>, exchange: PositionTable, d: Direction, done: set<string>) {
    forall a :: AccumulatesAt(required, exchange, d, done, a)
  }

  ghost predicate AccumulatesAt(required: map<string, real>, exchange: PositionTable, d: Direction, done: set<string>,
                                a: string) {
    && Get(required, a) == Tally.SumOver(Legs(exchange, d, a) * done, QtyOf(exchange))
    && (a in required <==> Legs(exchange, d, a) * done != {})
  }

  function AddLeg(required: map<string, real>, exchange: PositionTable, d: Direction, s: string): map<string, real>
    requires s in exchange
  {
    if RowDirection(exchange[s]) == d
    then required[BaseAsset(s) := Get(required, BaseAsset(s)) + Qty(exchange[s])] else required
  }

  lemma AccumulateStepAt(required: map<string, real>, exchange: PositionTable, d: Direction, done: set<string>,
                         s: string, a: string)
    requires s in exchange && s !in done && AccumulatesAt(required, exchange, d, done, a)
    ensures AccumulatesAt(AddLeg(required, exchange, d, s), exchange, d, done + {s}, a)
  {
    var before := Legs(exchange, d, a) * done;
    if s in Legs(exchange, d, a) {
      assert Legs(exchange, d, a) * (done + {s}) == before + {s};
      Tally.SumOverAdd(before, QtyOf(exchange), s);
    } else {
      assert Legs(exchange, d, a) * (done + {s}) == before;
    }
  }

  lemma AccumulateStep(required: map<string, real>, exchange: PositionTable, d: Direction, done: set<string>, s: string)
    requires s in exchange && s !in done && Accumulates(required, exchange, d, done)
    ensures Accumulates(AddLeg(required, exchange, d, s), exchange, d, done + {s})
  {
    var next, more := AddLeg(required, exchange, d, s), done + {s};
    forall a ensures AccumulatesAt(next, exchange, d, more, a) { AccumulateStepAt(required, exchange, d, done, s, a); }
  }

  /** Once every symbol was visited, the accumulated amounts are the exposures. */
  lemma AccumulatedExposure(required: map<string, real>, exchange: PositionTable, d: Direction, a: string)
    requires Accumulates(required, exchange, d, exchange.Keys)
    ensures Get(required, a) == Exposure(exchange, d, a)
    ensures a in required <==> Legs(exchange, d, a) != {}
  {
    assert AccumulatesAt(required, exchange, d, exchange.Keys, a);
    assert Legs(exchange, d, a) * exchange.Keys == Legs(exchange, d, a);
  }

  function LocalQty(local: LocalTable, symbol: string): real {
    if symbol in local then Decimal(local[symbol].qty) else 0.0
  }

  /** The report's entry for a symbol, on the exchange or only in the local state, given what
      spot inventory there is of its base asset. */
  function Described(x: string, exchange: PositionTable, local: LocalTable, hedge: real, tolerance: real)
      : ClassifiedPosition
    requires x in exchange || x in local
  {
    if x in exchange then
      ClassifiedPosition(x, ClassOf(x, exchange[x], local, tolerance), RowDirection(exchange[x]), Qty(exchange[x]),
                         LocalQty(local, x), BaseAsset(x), hedge)
    else
      ClassifiedPosition(x, OnlyLocal, LocalDirection(local[x]), 0.0, LocalQty(local, x), BaseAsset(x), hedge)
  }

  /** An entry that says of its symbol what it should. */
  predicate DescribedBy(p: ClassifiedPosition, exchange: PositionTable, local: LocalTable, spot: map<string, real>,
                        tolerance: real) {
    && (p.symbol in exchange || p.symbol in local)
    && p == Described(p.symbol, exchange, local, Get(spot, BaseAsset(p.symbol)), tolerance)
  }

  ghost predicate EachPositionOnce(positions: seq<ClassifiedPosition>, symbols: set<string>) {
    && (forall i, j :: 0 <= i < j < |positions| ==> positions[i].symbol != positions[j].symbol)
    && (forall i :: 0 <= i < |positions| ==> positions[i].symbol in symbols)
    && (forall x :: x in symbols ==> exists i :: 0 <= i < |positions| && positions[i].symbol == x)
  }

  lemma OnceMore(positions: seq<ClassifiedPosition>, symbols: set<string>, p: ClassifiedPosition)
    requires EachPositionOnce(positions, symbols) && p.symbol !in symbols
    ensures EachPositionOnce(positions + [p], symbols + {p.symbol})
  {
    var more := positions + [p];
    forall x | x in symbols + {p.symbol}
      ensures exists i :: 0 <= i < |more| && more[i].symbol == x
    {
      if x in symbols {
        var i :| 0 <= i < |positions| && positions[i].symbol == x;
        assert more[i].symbol == x;
      } else {
        assert more[|positions|].symbol == x;
      }
    }
  }

  /** Every symbol of `symbols` is classified exactly once, as it should be. */
  ghost predicate Classified(positions: seq<ClassifiedPosition>, symbols: set<string>, exchange: PositionTable,
                             local: LocalTable, spot: map<string, real>, tolerance: real) {
    && EachPositionOnce(positions, symbols)
    && forall i :: 0 <= i < |positions| ==> DescribedBy(positions[i], exchange, local, spot, tolerance)
  }

  lemma ClassifiedStep(positions: seq<ClassifiedPosition>, symbols: set<string>, exchange: PositionTable,
                       local: LocalTable, spot: map<string, real>, tolerance: real, p: ClassifiedPosition)
    requires Classified(positions, symbols, exchange, local, spot, tolerance) && p.symbol !in symbols
    requires DescribedBy(p, exchange, local, spot, tolerance)
    ensures Classified(positions + [p], symbols + {p.symbol}, exchange, local, spot, tolerance)
  {
    OnceMore(positions, symbols, p);
  }

  ghost predicate Reported(issues: seq<Issue>, symbols: set<string>, exchange: PositionTable, local: LocalTable,
                           tolerance: real) {
    forall x :: x in issues <==>
      x.subject in symbols && x.subject in exchange
        && x.code in ClassCodes(ClassOf(x.subject, exchange[x.subject], local, tolerance))
  }

  lemma ReportedStep(issues: seq<Issue>, symbols: set<string>, exchange: PositionTable, local: LocalTable,
                     tolerance: real, s: string)
    requires Reported(issues, symbols, exchange, local, tolerance) && s !in symbols && s in exchange
    ensures var codes := ClassCodes(ClassOf(s, exchange[s], local, tolerance));
            Reported(if codes == [] then issues else issues + [Issue(codes[0], s)], symbols + {s}, exchange, local,
                     tolerance)
  {
    var codes := ClassCodes(ClassOf(s, exchange[s], local, tolerance));
    assert |codes| <= 1;
  }

  /** Compares every exchange position with its managed counterpart and adds up what has
      to be hedged, per base asset. */
  method ClassifyExchange(exchange: PositionTable, local: LocalTable, spot: map<string, real>, tolerance: real)
    returns (positions: seq<ClassifiedPosition>, issues: seq<Issue>, requiredSpot: map<string, real>,
             requiredLiability: map<string, real>)
    ensures Classified(positions, exchange.Keys, exchange, local, spot, tolerance)
    ensures Reported(issues, exchange.Keys, exchange, local, tolerance)
    ensures Accumulates(requiredSpot, exchange, Long, exchange.Keys)
      && Accumulates(requiredLiability, exchange, Short, exchange.Keys)
  {
    positions, issues, requiredSpot, requiredLiability := [], [], map[], map[];
    var done: set<string> := {};
    NothingAccumulated(exchange);
    while exchange.Keys - done != {}
      invariant done <= exchange.Keys
      invariant Classified(positions, done, exchange, local, spot, tolerance)
      invariant Reported(issues, done, exchange, local, tolerance)
      invariant Accumulates(requiredSpot, exchange, Long, done) && Accumulates(requiredLiability, exchange, Short, done)
      decreases exchange.Keys - done
    {
      var s :| s in exchange.Keys - done;
      var kind := ClassOf(s, exchange[s], local, tolerance);
      AccumulateStep(requiredSpot, exchange, Long, done, s);
      AccumulateStep(requiredLiability, exchange, Short, done, s);
      var entry := Described(s, exchange, local, Get(spot, BaseAsset(s)), tolerance);
      ClassifiedStep(positions, done, exchange, local, spot, tolerance, entry);
      ReportedStep(issues, done, exchange, local, tolerance, s);
      if ClassCodes(kind) != [] { issues := issues + [Issue(ClassCodes(kind)[0], s)]; }
      requiredSpot := AddLeg(requiredSpot, exchange, Long, s);
      requiredLiability := AddLeg(requiredLiability, exchange, Short, s);
      positions := positions + [entry];
      done := done + {s};
    }
    AllVisited(exchange.Keys, done);
  }

  lemma NothingAccumulated(exchange: PositionTable)
    ensures Accumulates(map[], exchange, Long, {}) && Accumulates(map[], exchange, Short, {})
  {
    forall a, d
      ensures Legs(exchange, d, a) * {} == {}
    {
    }
  }

  /** Symbols the two futures endpoints disagree on. */
  function EndpointCodes(risk: PositionTable, account: PositionTable, tolerance: real): string -> seq<Code> {
    s => if s !in risk || s !in account || Abs(Decimal(risk[s].amount) - Decimal(account[s].amount)) > tolerance
         then [EndpointMismatch] else []
  }

  // ---------------------------------------------------------------- hedges and residuals

  function MinimumHedge(required: real, o: Options): real { required * (1.0 - o.hedgeTolerance) }

  predicate CoversHedge(actual: real, required: real, o: Options) {
    actual + o.qtyTolerance >= MinimumHedge(required, o)
  }

  function Residual(actual: real, required: real): real { Max(0.0, actual - required) }

  /** A residual is negligible as a quantity, or can be valued and is worth little. */
  predicate Negligible(asset: string, residual: real, o: Options) {
    residual <= o.qtyTolerance
      || (AssetValue(asset, residual, o).Some? && AssetValue(asset, residual, o).value <= o.cashTolerance)
  }

  function ShortfallCodes(balances: map<string, real>, required: map<string, real>, o: Options): string -> seq<Code> {
    a => if CoversHedge(Get(balances, a), Get(required, a), o) then [] else [SpotShortfall]
  }

  function ResidualCodes(balances: map<string, real>, required: map<string, real>, o: Options): string -> seq<Code> {
    a => var residual := Residual(Get(balances, a), Get(required, a));
         if a in o.treasuryAssets || Negligible(a, residual, o) then []
         else if AssetValue(a, residual, o).None? then [UnvaluedSpot] else [UnassignedSpot]
  }

  // ---------------------------------------------------------------- liabilities

  /** Margin rows by asset; a later row replaces an earlier one. */
  function MarginMapOf(rows: seq<Row<MarginRow>>): map<string, MarginRow> {
    if rows == [] then map[]
    else
      var r, m := rows[|rows| - 1], MarginMapOf(rows[..|rows| - 1]);
      if r.Mapping? && Strip(r.row.asset) != "" then m[Upper(r.row.asset) := r.row] else m
  }

  function Liability(margin: map<string, MarginRow>, asset: string): real {
    if asset in margin then Decimal(margin[asset].borrowed) + Decimal(margin[asset].interest) else 0.0
  }

  predicate CoversLiability(liability: real, required: real, o: Options) {
    required > 0.0 ==> liability + o.qtyTolerance >= MinimumHedge(required, o)
  }

  predicate LiabilityOk(liability: real, required: real, asset: string, o: Options) {
    CoversLiability(liability, required, o) && Negligible(asset, Residual(liability, required), o)
  }

  function LiabilityCodes(margin: map<string, MarginRow>, required: map<string, real>,
                          o: Options): string -> seq<Code> {
    a => (if CoversLiability(Liability(margin, a), Get(required, a), o) then [] else [LiabilityShortfall])
         + (if Negligible(a, Residual(Liability(margin, a), Get(required, a)), o) then [] else [UnassignedLiability])
  }

  predicate Reportable(margin: map<string, MarginRow>, required: map<string, real>, a: string, o: Options) {
    Liability(margin, a) > o.qtyTolerance || Get(required, a) > o.qtyTolerance
  }

  /** An unassigned residual is named even where the debt is short as well. */
  function DebtClass(liability: real, required: real, asset: string, o: Options): LiabilityClass {
    if !Negligible(asset, Residual(liability, required), o) then DebtUnassigned
    else if !CoversLiability(liability, required, o) then DebtShort
    else DebtMatched
  }

  /** Covered and residual parts make up the debt, and its class is the one demanded. */
  predicate DebtIs(l: ClassifiedLiability, liability: real, required: real, o: Options) {
    && l.quantity == liability && l.covered + l.residual == l.quantity && l.residual == Residual(liability, required)
    && l.kind == DebtClass(liability, required, l.asset, o)
  }

  ghost predicate ListsLiabilities(liabilities: seq<ClassifiedLiability>, done: set<string>,
                                   margin: map<string, MarginRow>, required: map<string, real>, o: Options) {
    && (forall i, j :: 0 <= i < j < |liabilities| ==> liabilities[i].asset != liabilities[j].asset)
    && (forall i :: 0 <= i < |liabilities| ==>
            && liabilities[i].asset in done && Reportable(margin, required, liabilities[i].asset, o)
            && DebtIs(liabilities[i], Liability(margin, liabilities[i].asset), Get(required, liabilities[i].asset), o))
    && (forall a :: a in done && Reportable(margin, required, a, o) ==>
         exists i :: 0 <= i < |liabilities| && liabilities[i].asset == a)
  }

  lemma ListsOneMore(ls: seq<ClassifiedLiability>, done: set<string>, margin: map<string, MarginRow>,
                     required: map<string, real>, o: Options, a: string)
    requires ListsLiabilities(ls, done, margin, required, o) && a !in done
    ensures Reportable(margin, required, a, o) ==>
      ListsLiabilities(ls + [Split(margin, required, a, o)], done + {a}, margin, required, o)
    ensures !Reportable(margin, required, a, o) ==> ListsLiabilities(ls, done + {a}, margin, required, o)
  {
    var more := ls + [Split(margin, required, a, o)];
    forall x | x in done + {a} && Reportable(margin, required, x, o)
      ensures exists i :: 0 <= i < |more| && more[i].asset == x
    {
      if x == a {
        assert more[|ls|].asset == x;
      } else {
        var i :| 0 <= i < |ls| && ls[i].asset == x;
        assert more[i].asset == x;
      }
    }
  }

  /** What part of a liability a position accounts for, and what is left. */
  function Split(margin: map<string, MarginRow>, required: map<string, real>, a: string,
                 o: Options): ClassifiedLiability {
    var liability := Liability(margin, a);
    ClassifiedLiability(a, liability, Min(liability, Get(required, a)), Residual(liability, Get(required, a)),
                        DebtClass(liability, Get(required, a), a, o))
  }

  method ClassifyLiabilities(margin: map<string, MarginRow>, required: map<string, real>, o: Options)
    returns (liabilities: seq<ClassifiedLiability>, issues: seq<Issue>)
    ensures ListsLiabilities(liabilities, margin.Keys + required.Keys, margin, required, o)
    ensures forall x :: x in issues <==>
      x.subject in margin.Keys + required.Keys && x.code in LiabilityCodes(margin, required, o)(x.subject)
  {
    var keys := margin.Keys + required.Keys;
    issues := Flag(keys, LiabilityCodes(margin, required, o));
    liabilities := [];
    var done: set<string> := {};
    while keys - done != {}
      invariant done <= keys
      invariant ListsLiabilities(liabilities, done, margin, required, o)
      decreases keys - done
    {
      var a :| a in keys - done;
      ListsOneMore(liabilities, done, margin, required, o, a);
      if Reportable(margin, required, a, o) { liabilities := liabilities + [Split(margin, required, a, o)]; }
      done := done + {a};
    }
    AllVisited(keys, done);
  }

  // ---------------------------------------------------------------- orders

  function OrderRows(s: Snapshot): seq<Row<OrderRow>> {
    RowsOf(s.futuresOpenOrders) + RowsOf(s.spotOpenOrders) + RowsOf(s.marginOpenOrders)
  }

  function Mapped(rows: seq<Row<OrderRow>>): seq<OrderRow> {
    if rows == [] then []
    else var init := Mapped(rows[..|rows| - 1]); if rows[|rows| - 1].Mapping? then init + [rows[|rows| - 1].row]
      else init
  }

  function OwnershipCodes(w: Ownership): seq<Code> {
    match w
    case Bot => []
    case BotOrphan => [OrphanOrder]
    case External => [UnrelatedOrder]
    case Unknown => [OwnershipUnknown]
  }

  /** Every visible order once, in order, with the ownership demanded of it. */
  predicate OrdersListed(orders: seq<ClassifiedOrder>, rows: seq<Row<OrderRow>>, intents: seq<IntentRow>,
                         managed: set<string>, prefix: string) {
    && |orders| == |Mapped(rows)|
    && forall k :: 0 <= k < |orders| ==>
         orders[k].order == Mapped(rows)[k]
           && orders[k].ownership == OwnershipOf(orders[k].order, intents, managed, prefix)
  }

  /** Every visible order is classified once, in order; the bot may cancel exactly the
      orders in its own namespace, whatever they are linked to. */
  method ClassifyOrders(rows: seq<Row<OrderRow>>, intents: seq<IntentRow>, managed: set<string>, prefix: string)
    returns (orders: seq<ClassifiedOrder>, issues: seq<Issue>)
    ensures OrdersListed(orders, rows, intents, managed, prefix)
    ensures forall k :: 0 <= k < |orders| ==>
      (Cancellable(orders[k].ownership) <==> IsBotClientOrderId(OrderClientId(orders[k].order), prefix))
    ensures issues == [] <==> forall k :: 0 <= k < |orders| ==> orders[k].ownership == Bot
    ensures forall x :: x in issues ==> !Incompleteness(x.code)
  {
    orders, issues := [], [];
    for i := 0 to |rows|
      invariant OrdersListed(orders, rows[..i], intents, managed, prefix)
      invariant issues == [] <==> forall k :: 0 <= k < |orders| ==> orders[k].ownership == Bot
      invariant forall x :: x in issues ==> !Incompleteness(x.code)
    {
      assert rows[..i + 1][..i] == rows[..i];
      if rows[i].Mapping? {
        var order := rows[i].row;
        var ownership := OwnershipOf(order, intents, managed, prefix);
        if OwnershipCodes(ownership) != [] {
          issues := issues + [Issue(OwnershipCodes(ownership)[0], OrderClientId(order))];
        }
        ghost var before := orders;
        orders := orders + [ClassifiedOrder(order, ownership)];
        assert orders[|before|].ownership == ownership;
        assert forall k :: 0 <= k < |before| ==> orders[k] == before[k];
      }
    }
    assert rows[..|rows|] == rows;
  }
}
