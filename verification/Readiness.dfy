/** What the readiness bit of a reconciliation means. */
module Readiness {
  import opened Text
  import opened Account
  import opened Numbers
  import opened Positions
  import opened Reconciliation
  import Tally

  function RiskTable(s: Snapshot, o: Options): PositionTable { PositionMapOf(RowsOf(s.positionRisk), o.qtyTolerance) }

  function AccountTable(s: Snapshot, o: Options): PositionTable { PositionMapOf(AccountPositions(s), o.qtyTolerance) }

  /** Position risk wins where both endpoints report a symbol. */
  function Exchange(s: Snapshot, o: Options): PositionTable { AccountTable(s, o) + RiskTable(s, o) }

  function Margin(s: Snapshot): map<string, MarginRow> { MarginMapOf(RowsOf(s.marginAccount)) }

  /** The futures account came with its positions, so the two endpoints are compared. */
  predicate Compared(s: Snapshot) { s.futuresAccount.Usable? && !s.futuresAccount.value.positions.Unavailable? }

  ghost predicate NoRepeats(s: Snapshot, o: Options) {
    && (forall x :: !Repeated(RowsOf(s.positionRisk), o.qtyTolerance, x))
    && (forall x :: !Repeated(AccountPositions(s), o.qtyTolerance, x))
  }

  predicate Agree(risk: PositionTable, account: PositionTable, tolerance: real) {
    forall x :: x in risk.Keys + account.Keys ==>
      x in risk && x in account && Abs(Decimal(risk[x].amount) - Decimal(account[x].amount)) <= tolerance
  }

  predicate AllMatched(exchange: PositionTable, local: LocalTable, tolerance: real) {
    forall x :: x in exchange ==> ClassOf(x, exchange[x], local, tolerance) == Matched
  }

  ghost predicate SpotHedged(rows: seq<Row<BalanceRow>>, exchange: PositionTable, o: Options) {
    forall a :: Legs(exchange, Long, a) != {} ==>
      CoversHedge(Inventory(rows, o.qtyTolerance, a), Exposure(exchange, Long, a), o)
  }

  ghost predicate SpotExplained(rows: seq<Row<BalanceRow>>, exchange: PositionTable, o: Options) {
    forall a :: Held(rows, o.qtyTolerance, a) ==>
      ResidualOk(Inventory(rows, o.qtyTolerance, a), Exposure(exchange, Long, a), a, o)
  }

  ghost predicate LiabilitiesExplained(margin: map<string, MarginRow>, exchange: PositionTable, o: Options) {
    forall a :: a in margin || Legs(exchange, Short, a) != {} ==>
      LiabilityOk(Liability(margin, a), Exposure(exchange, Short, a), a, o)
  }

  predicate OrdersOwned(rows: seq<Row<OrderRow>>, intents: seq<IntentRow>, managed: set<string>, prefix: string) {
    forall k :: 0 <= k < |Mapped(rows)| ==> OwnershipOf(Mapped(rows)[k], intents, managed, prefix) == Bot
  }

  /** Readiness without the loops. */
  ghost predicate Ready(s: Snapshot, locals: seq<LocalRow>, intents: seq<IntentRow>, o: Options) {
    && IdentityOk(s, o) && Complete(s) && NoRepeats(s, o)
    && (Compared(s) ==> Agree(RiskTable(s, o), AccountTable(s, o), o.qtyTolerance))
    && HoldingsExplained(Balances(s), Margin(s), Exchange(s, o), LocalMapOf(locals), o)
    && OrdersOwned(OrderRows(s), intents, LocalMapOf(locals).Keys, o.botPrefix)
  }

  // ---------------------------------------------------------------- the reconciliation

  /** No issue of this phase concerns completeness. */
  predicate Ordinary(issues: seq<Issue>) { forall x :: x in issues ==> !Incompleteness(x.code) }

  method PositionIssues(s: Snapshot, o: Options)
      returns (risk: PositionTable, account: PositionTable, issues: seq<Issue>)
    ensures risk == RiskTable(s, o) && account == AccountTable(s, o)
    ensures issues == [] <==> NoRepeats(s, o) && (Compared(s) ==> Agree(risk, account, o.qtyTolerance))
    ensures Ordinary(issues)
  {
    var riskDuplicates, accountDuplicates;
    risk, riskDuplicates := PositionMap(RowsOf(s.positionRisk), o.qtyTolerance);
    account, accountDuplicates := PositionMap(AccountPositions(s), o.qtyTolerance);
    var repeats := Flag(riskDuplicates + accountDuplicates, _ => [DuplicatePosition]);
    FlagSilent(riskDuplicates + accountDuplicates, _ => [DuplicatePosition], repeats);
    RepeatsIff(s, o, riskDuplicates, accountDuplicates);
    var mismatches := [];
    if Compared(s) { mismatches := MismatchIssues(risk, account, o.qtyTolerance); }
    issues := repeats + mismatches;
  }

  method MismatchIssues(risk: PositionTable, account: PositionTable, tolerance: real) returns (issues: seq<Issue>)
    ensures issues == [] <==> Agree(risk, account, tolerance)
    ensures Ordinary(issues)
  {
    var codes := EndpointCodes(risk, account, tolerance);
    issues := Flag(risk.Keys + account.Keys, codes);
    FlagSilent(risk.Keys + account.Keys, codes, issues);
  }

  lemma RepeatsIff(s: Snapshot, o: Options, risk: set<string>, account: set<string>)
    requires forall x :: x in risk <==> Repeated(RowsOf(s.positionRisk), o.qtyTolerance, x)
    requires forall x :: x in account <==> Repeated(AccountPositions(s), o.qtyTolerance, x)
    ensures risk + account == {} <==> NoRepeats(s, o)
  {
    if risk + account == {} {
      forall x: string ensures x !in risk && x !in account { assert x !in risk + account; }
    }
  }

  method ExposureIssues(exchange: PositionTable, local: LocalTable, spot: map<string, real>, o: Options)
    returns (positions: seq<ClassifiedPosition>, issues: seq<Issue>, requiredSpot: map<string, real>,
             requiredLiability: map<string, real>)
    ensures issues == [] <==> AllMatched(exchange, local, o.qtyTolerance) && local.Keys <= exchange.Keys
    ensures Ordinary(issues)
    ensures Accumulates(requiredSpot, exchange, Long, exchange.Keys)
      && Accumulates(requiredLiability, exchange, Short, exchange.Keys)
    ensures Classified(positions, exchange.Keys + local.Keys, exchange, local, spot, o.qtyTolerance)
  {
    var onExchange;
    onExchange, issues, requiredSpot, requiredLiability := ClassifyExchange(exchange, local, spot, o.qtyTolerance);
    ReportedSilent(issues, exchange, local, o.qtyTolerance);
    var missing := local.Keys - exchange.Keys;
    var localOnly := Flag(missing, _ => [LocalOnly]);
    FlagSilent(missing, _ => [LocalOnly], localOnly);
    NoneMissing(local.Keys, exchange.Keys);
    issues := issues + localOnly;
    positions := AppendLocalOnly(onExchange, exchange, local, spot, o.qtyTolerance);
  }

  lemma NoneMissing(a: set<string>, b: set<string>)
    ensures a - b == {} <==> a <= b
  {
    if a - b == {} {
      forall x | x in a ensures x in b { assert x !in a - b; }
    }
  }

  method AppendLocalOnly(onExchange: seq<ClassifiedPosition>, exchange: PositionTable, local: LocalTable,
                         spot: map<string, real>, tolerance: real)
    returns (positions: seq<ClassifiedPosition>)
    requires Classified(onExchange, exchange.Keys, exchange, local, spot, tolerance)
    ensures Classified(positions, exchange.Keys + local.Keys, exchange, local, spot, tolerance)
  {
    positions := onExchange;
    var keys, done := exchange.Keys + local.Keys, exchange.Keys;
    while keys - done != {}
      invariant done <= keys && Classified(positions, done, exchange, local, spot, tolerance)
      decreases keys - done
    {
      var x :| x in keys - done;
      var entry := Described(x, exchange, local, Get(spot, BaseAsset(x)), tolerance);
      ClassifiedStep(positions, done, exchange, local, spot, tolerance, entry);
      positions := positions + [entry];
      done := done + {x};
    }
    AllVisited(keys, done);
  }

  /** Every symbol of either side once, described as it should be, its hedge being the spot
      inventory of its base asset. */
  ghost predicate PositionsListed(positions: seq<ClassifiedPosition>, exchange: PositionTable, local: LocalTable,
                                  balances: seq<Row<BalanceRow>>, tolerance: real) {
    && EachPositionOnce(positions, exchange.Keys + local.Keys)
    && forall i :: 0 <= i < |positions| ==> ListedAt(positions[i], exchange, local, balances, tolerance)
  }

  ghost predicate ListedAt(p: ClassifiedPosition, exchange: PositionTable, local: LocalTable,
                           balances: seq<Row<BalanceRow>>, tolerance: real) {
    && (p.symbol in exchange || p.symbol in local)
    && p == Described(p.symbol, exchange, local, Inventory(balances, tolerance, BaseAsset(p.symbol)), tolerance)
  }

  /** The table of spot balances, as `SpotBalances` makes it. */
  ghost predicate Totals(balances: map<string, real>, rows: seq<Row<BalanceRow>>, tolerance: real) {
    && (forall a :: a in balances <==> Held(rows, tolerance, a))
    && (forall a :: Get(balances, a) == Inventory(rows, tolerance, a))
  }

  lemma ClassifiedAreListed(positions: seq<ClassifiedPosition>, exchange: PositionTable, local: LocalTable,
                            spot: map<string, real>, rows: seq<Row<BalanceRow>>, tolerance: real)
    requires Classified(positions, exchange.Keys + local.Keys, exchange, local, spot, tolerance)
    requires Totals(spot, rows, tolerance)
    ensures PositionsListed(positions, exchange, local, rows, tolerance)
  {
    forall i | 0 <= i < |positions| ensures ListedAt(positions[i], exchange, local, rows, tolerance) {
      assert DescribedBy(positions[i], exchange, local, spot, tolerance);
      assert Get(spot, BaseAsset(positions[i].symbol)) == Inventory(rows, tolerance, BaseAsset(positions[i].symbol));
    }
  }

  lemma ReportedSilent(issues: seq<Issue>, exchange: PositionTable, local: LocalTable, tolerance: real)
    requires Reported(issues, exchange.Keys, exchange, local, tolerance)
    ensures issues == [] <==> AllMatched(exchange, local, tolerance)
    ensures Ordinary(issues)
  {
    if x :| x in exchange && ClassOf(x, exchange[x], local, tolerance) != Matched {
      var codes := ClassCodes(ClassOf(x, exchange[x], local, tolerance));
      assert codes != [];
      assert Issue(codes[0], x) in issues;
    }
    if issues != [] { assert issues[0] in issues; }
  }

  /** `required` holds the exposure of every asset that has legs of direction `d`. */
  ghost predicate Requires(required: map<string, real>, exchange: PositionTable, d: Direction) {
    forall a :: Get(required, a) == Exposure(exchange, d, a) && (a in required <==> Legs(exchange, d, a) != {})
  }

  lemma AccumulatedRequires(required: map<string, real>, exchange: PositionTable, d: Direction)
    requires Accumulates(required, exchange, d, exchange.Keys)
    ensures Requires(required, exchange, d)
  {
    forall a
      ensures Get(required, a) == Exposure(exchange, d, a) && (a in required <==> Legs(exchange, d, a) != {})
    {
      AccumulatedExposure(required, exchange, d, a);
    }
  }

  lemma ShortfallAt(balances: map<string, real>, required: map<string, real>, o: Options, a: string)
    ensures ShortfallCodes(balances, required, o)(a) == [] <==> CoversHedge(Get(balances, a), Get(required, a), o)
    ensures forall c :: c in ShortfallCodes(balances, required, o)(a) ==> !Incompleteness(c)
  {
  }

  method ShortfallIssues(balances: map<string, real>, required: map<string, real>, o: Options)
      returns (issues: seq<Issue>)
    ensures issues == [] <==> forall a :: a in required ==> CoversHedge(Get(balances, a), Get(required, a), o)
    ensures Ordinary(issues)
  {
    var codes := ShortfallCodes(balances, required, o);
    issues := Flag(required.Keys, codes);
    FlagSilent(required.Keys, codes, issues);
    forall a
      ensures codes(a) == [] <==> CoversHedge(Get(balances, a), Get(required, a), o)
      ensures forall c :: c in codes(a) ==> !Incompleteness(c)
    {
      ShortfallAt(balances, required, o, a);
    }
  }

  predicate ResidualOk(actual: real, required: real, asset: string, o: Options) {
    asset in o.treasuryAssets || Negligible(asset, Residual(actual, required), o)
  }

  lemma ResidualAt(balances: map<string, real>, required: map<string, real>, o: Options, a: string)
    ensures ResidualCodes(balances, required, o)(a) == [] <==> ResidualOk(Get(balances, a), Get(required, a), a, o)
    ensures forall c :: c in ResidualCodes(balances, required, o)(a) ==> !Incompleteness(c)
  {
  }

  method ResidualIssues(balances: map<string, real>, required: map<string, real>, o: Options)
      returns (issues: seq<Issue>)
    ensures issues == [] <==> forall a :: a in balances ==> ResidualOk(Get(balances, a), Get(required, a), a, o)
    ensures Ordinary(issues)
  {
    var codes := ResidualCodes(balances, required, o);
    issues := Flag(balances.Keys, codes);
    FlagSilent(balances.Keys, codes, issues);
    forall a
      ensures codes(a) == [] <==> ResidualOk(Get(balances, a), Get(required, a), a, o)
      ensures forall c :: c in codes(a) ==> !Incompleteness(c)
    {
      ResidualAt(balances, required, o, a);
    }
  }

  method BalanceIssues(balances: map<string, real>, ghost rows: seq<Row<BalanceRow>>, required: map<string, real>,
                       ghost exchange: PositionTable, o: Options)
      returns (issues: seq<Issue>)
    requires Requires(required, exchange, Long) && Totals(balances, rows, o.qtyTolerance)
    ensures issues == [] <==> SpotHedged(rows, exchange, o) && SpotExplained(rows, exchange, o)
    ensures Ordinary(issues)
  {
    var shortfalls := ShortfallIssues(balances, required, o);
    var residuals := ResidualIssues(balances, required, o);
    issues := shortfalls + residuals;
  }

  lemma LiabilityAt(margin: map<string, MarginRow>, required: map<string, real>, o: Options, a: string)
    ensures LiabilityCodes(margin, required, o)(a) == [] <==> LiabilityOk(Liability(margin, a), Get(required, a), a, o)
    ensures forall c :: c in LiabilityCodes(margin, required, o)(a) ==> !Incompleteness(c)
  {
  }

  method LiabilityIssues(margin: map<string, MarginRow>, required: map<string, real>, o: Options)
    returns (liabilities: seq<ClassifiedLiability>, issues: seq<Issue>)
    ensures issues == [] <==> forall a :: a in margin || a in required ==>
      LiabilityOk(Liability(margin, a), Get(required, a), a, o)
    ensures Ordinary(issues)
    ensures ListsLiabilities(liabilities, margin.Keys + required.Keys, margin, required, o)
  {
    var codes := LiabilityCodes(margin, required, o);
    liabilities, issues := ClassifyLiabilities(margin, required, o);
    FlagSilent(margin.Keys + required.Keys, codes, issues);
    forall a
      ensures codes(a) == [] <==> LiabilityOk(Liability(margin, a), Get(required, a), a, o)
      ensures forall c :: c in codes(a) ==> !Incompleteness(c)
    {
      LiabilityAt(margin, required, o, a);
    }
  }

  /** Whether a debt, or the lack of one, is worth listing. */
  ghost predicate WorthListing(margin: map<string, MarginRow>, exchange: PositionTable, a: string, o: Options) {
    && (a in margin || Legs(exchange, Short, a) != {})
    && (Liability(margin, a) > o.qtyTolerance || Exposure(exchange, Short, a) > o.qtyTolerance)
  }

  ghost predicate DebtListed(liabilities: seq<ClassifiedLiability>, a: string) {
    exists i :: 0 <= i < |liabilities| && liabilities[i].asset == a
  }

  /** Every debt worth listing once, split against the short legs it must cover. */
  ghost predicate DebtsListed(liabilities: seq<ClassifiedLiability>, margin: map<string, MarginRow>,
                              exchange: PositionTable, o: Options) {
    && (forall i, j :: 0 <= i < j < |liabilities| ==> liabilities[i].asset != liabilities[j].asset)
    && (forall i :: 0 <= i < |liabilities| ==>
          DebtIs(liabilities[i], Liability(margin, liabilities[i].asset),
                 Exposure(exchange, Short, liabilities[i].asset), o))
    && (forall a :: DebtListed(liabilities, a) <==> WorthListing(margin, exchange, a, o))
  }

  lemma DebtsAreListed(liabilities: seq<ClassifiedLiability>, margin: map<string, MarginRow>,
                       required: map<string, real>, exchange: PositionTable, o: Options)
    requires ListsLiabilities(liabilities, margin.Keys + required.Keys, margin, required, o)
      && Requires(required, exchange, Short)
    ensures DebtsListed(liabilities, margin, exchange, o)
  {
    forall a ensures DebtListed(liabilities, a) <==> WorthListing(margin, exchange, a, o) {
      assert Get(required, a) == Exposure(exchange, Short, a);
      assert WorthListing(margin, exchange, a, o) <==>
        a in margin.Keys + required.Keys && Reportable(margin, required, a, o);
    }
    forall i | 0 <= i < |liabilities|
      ensures DebtIs(liabilities[i], Liability(margin, liabilities[i].asset),
                     Exposure(exchange, Short, liabilities[i].asset), o)
    {
      assert Get(required, liabilities[i].asset) == Exposure(exchange, Short, liabilities[i].asset);
    }
  }

  /** Positions, hedges and liabilities explain each other. */
  ghost predicate HoldingsExplained(balances: seq<Row<BalanceRow>>, margin: map<string, MarginRow>,
                                    exchange: PositionTable, local: LocalTable, o: Options) {
    && AllMatched(exchange, local, o.qtyTolerance) && local.Keys <= exchange.Keys
    && SpotHedged(balances, exchange, o) && SpotExplained(balances, exchange, o)
    && LiabilitiesExplained(margin, exchange, o)
  }

  method HoldingIssues(balances: seq<Row<BalanceRow>>, margin: map<string, MarginRow>, exchange: PositionTable,
                       local: LocalTable, o: Options)
    returns (positions: seq<ClassifiedPosition>, liabilities: seq<ClassifiedLiability>, issues: seq<Issue>)
    ensures issues == [] <==> HoldingsExplained(balances, margin, exchange, local, o)
    ensures Ordinary(issues)
    ensures PositionsListed(positions, exchange, local, balances, o.qtyTolerance)
    ensures DebtsListed(liabilities, margin, exchange, o)
  {
    var spot := SpotBalances(balances, o.qtyTolerance);
    var exposureIssues, requiredSpot, requiredLiability;
    positions, exposureIssues, requiredSpot, requiredLiability := ExposureIssues(exchange, local, spot, o);
    ClassifiedAreListed(positions, exchange, local, spot, balances, o.qtyTolerance);
    AccumulatedRequires(requiredSpot, exchange, Long);
    AccumulatedRequires(requiredLiability, exchange, Short);
    var balanceIssues := BalanceIssues(spot, balances, requiredSpot, exchange, o);
    var liabilityIssues;
    liabilities, liabilityIssues := LiabilityIssues(margin, requiredLiability, o);
    DebtsAreListed(liabilities, margin, requiredLiability, exchange, o);
    issues := exposureIssues + balanceIssues + liabilityIssues;
  }

  /** The whole reconciliation. Readiness holds exactly when the loop-free conditions do. */
  method Reconcile(s: Snapshot, locals: seq<LocalRow>, intents: seq<IntentRow>, o: Options) returns (report: Report)
    ensures report.ready <==> Ready(s, locals, intents, o)
    ensures report.snapshotComplete <==> Complete(s)
    ensures PositionsListed(report.positions, Exchange(s, o), LocalMapOf(locals), Balances(s), o.qtyTolerance)
    ensures OrdersListed(report.orders, OrderRows(s), intents, LocalMapOf(locals).Keys, o.botPrefix)
    ensures DebtsListed(report.liabilities, Margin(s), Exchange(s, o), o)
  {
    var local := LocalMapOf(locals);
    var account := IdentityIssues(s, o);
    var endpoints := EndpointIssues(s);
    var risk, accountTable, positionIssues := PositionIssues(s, o);
    var exchange := accountTable + risk;
    var positions, liabilities, holdingIssues := HoldingIssues(Balances(s), Margin(s), exchange, local, o);
    var orders, orderIssues := ClassifyOrders(OrderRows(s), intents, local.Keys, o.botPrefix);
    var rest := positionIssues + holdingIssues + orderIssues;
    var issues := account + endpoints + rest;
    var complete := !exists i :: 0 <= i < |issues| && Incompleteness(issues[i].code);
    CompletenessFound(account, endpoints, rest, issues);
    assert orderIssues == [] <==> OrdersOwned(OrderRows(s), intents, local.Keys, o.botPrefix);
    report := Report(complete && issues == [], complete, orders, positions, liabilities, issues);
  }

  lemma CompletenessFound(account: seq<Issue>, endpoints: seq<Issue>, rest: seq<Issue>, issues: seq<Issue>)
    requires Ordinary(account) && Ordinary(rest) && (forall x :: x in endpoints ==> Incompleteness(x.code))
    requires issues == account + endpoints + rest
    ensures (exists i :: 0 <= i < |issues| && Incompleteness(issues[i].code)) <==> endpoints != []
  {
    if endpoints != [] {
      assert issues[|account|] == endpoints[0];
    }
    forall i | 0 <= i < |issues|
      ensures Incompleteness(issues[i].code) ==> endpoints != []
    {
      assert issues[i] in account || issues[i] in endpoints || issues[i] in rest;
    }
  }

  // ---------------------------------------------------------------- what readiness promises

  lemma ExposureNonNegative(exchange: PositionTable, d: Direction, a: string)
    ensures Exposure(exchange, d, a) >= 0.0
  {
    Tally.SumOverNonNegative(Legs(exchange, d, a), QtyOf(exchange));
  }

  lemma {:induction false} NothingHeld(rows: seq<Row<BalanceRow>>, tolerance: real, a: string)
    requires !Held(rows, tolerance, a)
    ensures Inventory(rows, tolerance, a) == 0.0
  {
    if rows != [] {
      assert !CountsFor(rows[0], tolerance, a);
      assert !Held(rows[1..], tolerance, a) by {
        forall i | 0 <= i < |rows[1..]| ensures !CountsFor(rows[1..][i], tolerance, a) {
          assert rows[1..][i] == rows[i + 1];
        }
      }
      NothingHeld(rows[1..], tolerance, a);
    }
  }

  /** The most spot inventory beyond its hedges that an asset may show. */
  function ResidualCap(a: string, o: Options): real {
    Max(0.0, Max(o.qtyTolerance,
      if a in o.quoteAssets then o.cashTolerance
      else if a in o.prices && o.prices[a] > 0.0 then o.cashTolerance / o.prices[a]
      else o.qtyTolerance))
  }

  lemma NegligibleIsCapped(a: string, actual: real, required: real, o: Options)
    requires Negligible(a, Residual(actual, required), o)
    ensures actual - required <= ResidualCap(a, o)
  {
    var residual := Residual(actual, required);
    if residual > o.qtyTolerance && a !in o.quoteAssets {
      var price := o.prices[a];
      assert residual * price >= 0.0;
      assert residual * price <= o.cashTolerance;
      assert residual <= o.cashTolerance / price;
    }
  }

  /** `actual` misses `required` by no more than the tolerances. */
  predicate MissesLittle(actual: real, required: real, o: Options) {
    actual - required >= -(o.hedgeTolerance * required + o.qtyTolerance)
  }

  lemma CoveredMissesLittle(actual: real, required: real, o: Options)
    requires CoversHedge(actual, required, o)
    ensures MissesLittle(actual, required, o)
  {
    assert MinimumHedge(required, o) == required - o.hedgeTolerance * required;
  }

  lemma SpotBounds(rows: seq<Row<BalanceRow>>, exchange: PositionTable, o: Options, a: string)
    requires SpotHedged(rows, exchange, o) && SpotExplained(rows, exchange, o)
    ensures var spot, legs := Inventory(rows, o.qtyTolerance, a), Exposure(exchange, Long, a);
            && (Legs(exchange, Long, a) != {} ==> MissesLittle(spot, legs, o))
            && (a !in o.treasuryAssets ==> spot - legs <= ResidualCap(a, o))
  {
    var spot, legs := Inventory(rows, o.qtyTolerance, a), Exposure(exchange, Long, a);
    if Legs(exchange, Long, a) != {} { CoveredMissesLittle(spot, legs, o); }
    if Held(rows, o.qtyTolerance, a) {
      assert ResidualOk(spot, legs, a, o);
      if a !in o.treasuryAssets { NegligibleIsCapped(a, spot, legs, o); }
    } else {
      NothingHeld(rows, o.qtyTolerance, a);
      ExposureNonNegative(exchange, Long, a);
    }
  }

  /** For every asset, the hedge of a ready account falls short by no more than the
      tolerances and, outside the treasury, exceeds it by no more than the cap. */
  lemma ReadyBoundsExposure(s: Snapshot, locals: seq<LocalRow>, intents: seq<IntentRow>, o: Options, a: string)
    requires Ready(s, locals, intents, o)
    ensures var spot, legs := Inventory(Balances(s), o.qtyTolerance, a), Exposure(Exchange(s, o), Long, a);
            && (Legs(Exchange(s, o), Long, a) != {} ==> MissesLittle(spot, legs, o))
            && (a !in o.treasuryAssets ==> spot - legs <= ResidualCap(a, o))
  {
    SpotBounds(Balances(s), Exchange(s, o), o, a);
  }

  /** Short carry legs are matched by margin debt in the same way. */
  lemma ReadyBoundsLiability(s: Snapshot, locals: seq<LocalRow>, intents: seq<IntentRow>, o: Options, a: string)
    requires Ready(s, locals, intents, o)
    ensures var debt, legs := Liability(Margin(s), a), Exposure(Exchange(s, o), Short, a);
            && (legs > 0.0 ==> MissesLittle(debt, legs, o))
            && debt - legs <= ResidualCap(a, o)
  {
    LiabilityBounds(Margin(s), Exchange(s, o), o, a);
  }

  lemma LiabilityBounds(margin: map<string, MarginRow>, exchange: PositionTable, o: Options, a: string)
    requires LiabilitiesExplained(margin, exchange, o)
    ensures var debt, legs := Liability(margin, a), Exposure(exchange, Short, a);
            && (legs > 0.0 ==> MissesLittle(debt, legs, o))
            && debt - legs <= ResidualCap(a, o)
  {
    var debt, legs := Liability(margin, a), Exposure(exchange, Short, a);
    if a in margin || Legs(exchange, Short, a) != {} {
      assert LiabilityOk(debt, legs, a, o);
      if legs > 0.0 { CoveredMissesLittle(debt, legs, o); }
      NegligibleIsCapped(a, debt, legs, o);
    }
  }

  /** Every futures position of a ready account is managed, in the same direction and
      quantity, and every managed position is on the exchange. */
  lemma ReadyMatchesPositions(s: Snapshot, locals: seq<LocalRow>, intents: seq<IntentRow>, o: Options, x: string)
    requires Ready(s, locals, intents, o)
    ensures x in Exchange(s, o) <==> x in LocalMapOf(locals)
    ensures x in Exchange(s, o) ==>
      && LocalDirection(LocalMapOf(locals)[x]) == RowDirection(Exchange(s, o)[x])
      && Abs(Decimal(LocalMapOf(locals)[x].qty) - Qty(Exchange(s, o)[x])) <= o.qtyTolerance
  {
    if x in Exchange(s, o) {
      assert ClassOf(x, Exchange(s, o)[x], LocalMapOf(locals), o.qtyTolerance) == Matched;
    }
  }

  /** Readiness does not by itself mean that the two futures endpoints agree: an account
      payload that is present but not an object skips the comparison. It means so exactly
      when the payload was usable or position risk reports nothing. */
  lemma ReadyEndpointsAgreeIff(s: Snapshot, locals: seq<LocalRow>, intents: seq<IntentRow>, o: Options)
    requires Ready(s, locals, intents, o)
    ensures Agree(RiskTable(s, o), AccountTable(s, o), o.qtyTolerance) <==>
      s.futuresAccount.Usable? || RiskTable(s, o) == map[]
  {
    if !s.futuresAccount.Usable? {
      assert AccountTable(s, o) == map[];
      if RiskTable(s, o) != map[] {
        var x :| x in RiskTable(s, o);
        assert x in RiskTable(s, o).Keys + AccountTable(s, o).Keys;
      }
    }
  }

  lemma {:induction false} ShortSymbolKeepsName(symbol: string, suffixes: seq<string>)
    requires forall i :: 0 <= i < |suffixes| ==> |suffixes[i]| >= |symbol|
    ensures StripQuote(symbol, suffixes) == symbol
  {
    if suffixes != [] { ShortSymbolKeepsName(symbol, suffixes[1..]); }
  }

  const WITNESS_OPTIONS := Options(0.0, 0.0, 0.0, map[], {}, {}, "", false, "bngs_")
  const WITNESS_POSITION := PositionRow("B", Finite(-1.0), "")
  const WITNESS_BALANCES := [Mapping(BalanceRow("B", Finite(1.0), Absent))]
  const WITNESS_LOCAL := LocalRow("B", "", Finite(1.0), "", "")
  const WITNESS_SNAPSHOT := Snapshot(Unusable, Usable([Mapping(WITNESS_POSITION)]), Usable([]),
                                     Usable(SpotAccount("", Usable(WITNESS_BALANCES))), Usable([]), Usable([]),
                                     Usable([]),
                                     Available, Available, {})

  lemma WitnessTables()
    ensures RiskTable(WITNESS_SNAPSHOT, WITNESS_OPTIONS) == map["B" := WITNESS_POSITION]
    ensures AccountTable(WITNESS_SNAPSHOT, WITNESS_OPTIONS) == map[]
    ensures LocalMapOf([WITNESS_LOCAL]) == map["B" := WITNESS_LOCAL]
  {
    assert Upper("B") == "B" && Strip("B") == "B";
    var rows := RowsOf(WITNESS_SNAPSHOT.positionRisk);
    assert rows[..0] == [] && rows[0] == Mapping(WITNESS_POSITION);
    assert OpenIn(rows[0], 0.0, "B");
    assert PositionMapOf([], 0.0) == map[];
    assert [WITNESS_LOCAL][..0] == [];
    assert LocalMapOf([]) == map[];
    assert Upper("OPEN")[0] == 'O' && "CLOSED"[0] == 'C';
    assert ManagedIn(WITNESS_LOCAL, "B");
  }

  lemma WitnessSymbol()
    ensures Upper("B") == "B" && BaseAsset("B") == "B" && RowDirection(WITNESS_POSITION) == Long
  {
    assert Upper("B") == "B";
    ShortSymbolKeepsName("B", QUOTE_SUFFIXES);
    assert "BOTH"[0] == 'B' && "SHORT"[0] == 'S' && "LONG"[0] == 'L';
  }

  lemma WitnessAmounts(a: string)
    ensures var exchange := map["B" := WITNESS_POSITION];
            && Legs(exchange, Long, a) == (if a == "B" then {"B"} else {})
            && Legs(exchange, Short, a) == {}
            && Exposure(exchange, Long, a) == (if a == "B" then 1.0 else 0.0)
            && Inventory(WITNESS_BALANCES, 0.0, a) == (if a == "B" then 1.0 else 0.0)
  {
    var exchange := map["B" := WITNESS_POSITION];
    WitnessSymbol();
    assert Legs(exchange, Long, a) == if a == "B" then {"B"} else {};
    if a == "B" {
      Tally.SumOverTake({"B"}, QtyOf(exchange), "B");
      assert {"B"} - {"B"} == {};
    }
    assert WITNESS_BALANCES[1..] == [];
  }

  lemma WitnessMatched()
    ensures AllMatched(map["B" := WITNESS_POSITION], map["B" := WITNESS_LOCAL], 0.0)
  {
    assert Lower("") == "" && Strip("") == "" && "manual_review"[0] == 'm';
  }

  lemma WitnessHoldings()
    ensures HoldingsExplained(WITNESS_BALANCES, map[], map["B" := WITNESS_POSITION], map["B" := WITNESS_LOCAL],
                              WITNESS_OPTIONS)
  {
    var exchange, o := map["B" := WITNESS_POSITION], WITNESS_OPTIONS;
    WitnessMatched();
    forall a
      ensures Legs(exchange, Long, a) != {} ==>
        CoversHedge(Inventory(WITNESS_BALANCES, 0.0, a), Exposure(exchange, Long, a), o)
      ensures ResidualOk(Inventory(WITNESS_BALANCES, 0.0, a), Exposure(exchange, Long, a), a, o)
      ensures Legs(exchange, Short, a) == {}
    {
      WitnessAmounts(a);
    }
  }

  lemma WitnessNoRepeats(x: string)
    ensures !Repeated(RowsOf(WITNESS_SNAPSHOT.positionRisk), 0.0, x)
      && !Repeated(AccountPositions(WITNESS_SNAPSHOT), 0.0, x)
  {
    var rows := RowsOf(WITNESS_SNAPSHOT.positionRisk);
    assert rows[1..] == [];
    assert OpenCount(rows, 0.0, x) == OpenMark(0.0, x)(rows[0]) + OpenCount([], 0.0, x);
    assert AccountPositions(WITNESS_SNAPSHOT) == [];
  }

  lemma WitnessAccount()
    ensures IdentityOk(WITNESS_SNAPSHOT, WITNESS_OPTIONS) && Complete(WITNESS_SNAPSHOT)
      && NoRepeats(WITNESS_SNAPSHOT, WITNESS_OPTIONS)
  {
    assert Strip("") == "";
    forall x
      ensures !Repeated(RowsOf(WITNESS_SNAPSHOT.positionRisk), 0.0, x)
        && !Repeated(AccountPositions(WITNESS_SNAPSHOT), 0.0, x)
    {
      WitnessNoRepeats(x);
    }
  }

  /** A ready account whose futures payload was unusable and whose endpoints disagree. */
  lemma UnusableAccountMayBeReady()
    ensures Ready(WITNESS_SNAPSHOT, [WITNESS_LOCAL], [], WITNESS_OPTIONS)
    ensures !Agree(RiskTable(WITNESS_SNAPSHOT, WITNESS_OPTIONS), AccountTable(WITNESS_SNAPSHOT, WITNESS_OPTIONS),
                   WITNESS_OPTIONS.qtyTolerance)
  {
    WitnessTables();
    WitnessHoldings();
    WitnessAccount();
    var s, o := WITNESS_SNAPSHOT, WITNESS_OPTIONS;
    assert Exchange(s, o) == map["B" := WITNESS_POSITION];
    assert "B" in RiskTable(s, o).Keys + AccountTable(s, o).Keys;
    assert Margin(s) == map[];
    assert OrderRows(s) == [];
  }

  // ---------------------------------------------------------------- row order

  ghost predicate PermutedField<T>(f: Field<seq<Row<T>>>, g: Field<seq<Row<T>>>) {
    (f.Unavailable? <==> g.Unavailable?) && (f.Usable? <==> g.Usable?) && multiset(RowsOf(f)) == multiset(RowsOf(g))
  }

  ghost predicate PermutedFutures(f: Field<FuturesAccount>, g: Field<FuturesAccount>) {
    (f.Unavailable? <==> g.Unavailable?) && (f.Usable? <==> g.Usable?)
    && (f.Usable? ==> PermutedField(f.value.positions, g.value.positions))
  }

  ghost predicate PermutedSpot(f: Field<SpotAccount>, g: Field<SpotAccount>) {
    (f.Unavailable? <==> g.Unavailable?) && (f.Usable? <==> g.Usable?)
    && (f.Usable? ==> f.value.uid == g.value.uid && PermutedField(f.value.balances, g.value.balances))
  }

  /** The same snapshot with rows of any of these lists in another order. */
  ghost predicate Reordered(s: Snapshot, t: Snapshot) {
    && PermutedField(s.positionRisk, t.positionRisk)
    && PermutedFutures(s.futuresAccount, t.futuresAccount)
    && PermutedSpot(s.spotAccount, t.spotAccount)
    && PermutedField(s.futuresOpenOrders, t.futuresOpenOrders)
    && PermutedField(s.spotOpenOrders, t.spotOpenOrders)
    && PermutedField(s.marginOpenOrders, t.marginOpenOrders)
    && t.marginAccount == s.marginAccount && t.marginStatus == s.marginStatus
    && t.marginOrdersStatus == s.marginOrdersStatus && t.errors == s.errors
  }

  lemma {:induction false} MappedMembers(rows: seq<Row<OrderRow>>, w: OrderRow)
    ensures w in Mapped(rows) <==> Mapping(w) in rows
  {
    if rows != [] {
      MappedMembers(rows[..|rows| - 1], w);
      assert rows == rows[..|rows| - 1] + [rows[|rows| - 1]];
    }
  }

  lemma OrdersOwnedPermutes(a: seq<Row<OrderRow>>, b: seq<Row<OrderRow>>, intents: seq<IntentRow>,
                            managed: set<string>, prefix: string)
    requires multiset(a) == multiset(b) && OrdersOwned(a, intents, managed, prefix)
    ensures OrdersOwned(b, intents, managed, prefix)
  {
    forall k | 0 <= k < |Mapped(b)|
      ensures OwnershipOf(Mapped(b)[k], intents, managed, prefix) == Bot
    {
      var w := Mapped(b)[k];
      MappedMembers(b, w);
      MappedMembers(a, w);
      assert Mapping(w) in multiset(b);
      assert Mapping(w) in multiset(a);
      var i :| 0 <= i < |Mapped(a)| && Mapped(a)[i] == w;
    }
  }

  lemma OrderRowsPermute(s: Snapshot, t: Snapshot)
    requires Reordered(s, t)
    ensures multiset(OrderRows(s)) == multiset(OrderRows(t))
  {
  }

  lemma HoldingsPermute(a: seq<Row<BalanceRow>>, b: seq<Row<BalanceRow>>, margin: map<string, MarginRow>,
                        exchange: PositionTable, local: LocalTable, o: Options)
    requires multiset(a) == multiset(b) && HoldingsExplained(a, margin, exchange, local, o)
    ensures HoldingsExplained(b, margin, exchange, local, o)
  {
    forall x: string
      ensures Inventory(a, o.qtyTolerance, x) == Inventory(b, o.qtyTolerance, x)
      ensures Held(a, o.qtyTolerance, x) <==> Held(b, o.qtyTolerance, x)
    {
      InventoryPermutes(a, b, o.qtyTolerance, x);
    }
  }

  lemma TablesPermute(s: Snapshot, t: Snapshot, o: Options)
    requires Reordered(s, t) && NoRepeats(s, o)
    ensures NoRepeats(t, o) && RiskTable(t, o) == RiskTable(s, o) && AccountTable(t, o) == AccountTable(s, o)
  {
    PositionMapPermutes(RowsOf(s.positionRisk), RowsOf(t.positionRisk), o.qtyTolerance);
    PositionMapPermutes(AccountPositions(s), AccountPositions(t), o.qtyTolerance);
  }

  lemma AccountPermutes(s: Snapshot, t: Snapshot, o: Options)
    requires Reordered(s, t)
    ensures IdentityOk(t, o) <==> IdentityOk(s, o)
    ensures Complete(t) <==> Complete(s)
    ensures Compared(t) <==> Compared(s)
    ensures Margin(t) == Margin(s) && multiset(Balances(t)) == multiset(Balances(s))
  {
  }

  /** Readiness does not depend on the order of position-risk rows, account-position rows,
      spot balances or open orders. */
  lemma ReadyIgnoresRowOrder(s: Snapshot, t: Snapshot, locals: seq<LocalRow>, intents: seq<IntentRow>, o: Options)
    requires Reordered(s, t) && Ready(s, locals, intents, o)
    ensures Ready(t, locals, intents, o)
  {
    AccountPermutes(s, t, o);
    TablesPermute(s, t, o);
    OrderRowsPermute(s, t);
    OrdersOwnedPermutes(OrderRows(s), OrderRows(t), intents, LocalMapOf(locals).Keys, o.botPrefix);
    HoldingsPermute(Balances(s), Balances(t), Margin(s), Exchange(s, o), LocalMapOf(locals), o);
  }
}
