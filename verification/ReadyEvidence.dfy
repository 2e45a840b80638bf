/** What readiness says about the account itself, behind the payloads: a payload that is there
    but cannot be read counts as empty, so readiness then says nothing about what it hid. */
module ReadyEvidence {
  import opened Account
  import opened Numbers
  import opened Positions
  import opened Readiness
  import opened Reconciliation
  import opened Text

  // ---------------------------------------------------------------- an unknown asset

  lemma LengthBound(names: set<string>) returns (n: nat)
    ensures forall x :: x in names ==> |x| <= n
  {
    n := 0;
    var rest := names;
    while rest != {}
      invariant rest <= names && forall x :: x in names - rest ==> |x| <= n
      decreases rest
    {
      var x :| x in rest;
      n := if |x| > n then |x| else n;
      rest := rest - {x};
    }
  }

  /** An upper-case name outside any set. */
  lemma UnknownAsset(names: set<string>) returns (a: string)
    ensures a !in names && a != "" && Upper(a) == a && Strip(a) == a
  {
    var n := LengthBound(names);
    a := seq(n + 1, _ => 'X');
    assert a[0] == 'X' && a[|a| - 1] == 'X';
  }

  /** More of an unknown asset than any tolerance explains. */
  lemma UnexplainedAmount(a: string, required: real, o: Options) returns (x: real)
    requires a !in o.quoteAssets && a !in o.prices
    ensures x > o.qtyTolerance && !Negligible(a, Residual(x, required), o)
  {
    x := Max(o.qtyTolerance, 0.0) + Max(required, 0.0) + 1.0;
  }

  // ---------------------------------------------------------------- margin debts

  /** The debts there may be: those of a payload that can be read, none where margin is
      disabled, and otherwise any. */
  ghost predicate RealDebts(s: Snapshot, rows: seq<Row<MarginRow>>) {
    if s.marginAccount.Usable? then rows == s.marginAccount.value else s.marginStatus.Disabled? ==> rows == []
  }

  predicate DebtsSeen(s: Snapshot) { s.marginAccount.Usable? || s.marginStatus.Disabled? }

  lemma HiddenDebt(exchange: PositionTable, o: Options) returns (rows: seq<Row<MarginRow>>)
    ensures !LiabilitiesExplained(MarginMapOf(rows), exchange, o)
  {
    var a := UnknownAsset(o.quoteAssets + o.prices.Keys);
    var x := UnexplainedAmount(a, Exposure(exchange, Short, a), o);
    rows := [Mapping(MarginRow(a, Finite(x), Absent))];
    assert rows[..0] == [] && MarginMapOf([]) == map[];
    assert MarginMapOf(rows) == map[a := rows[0].row];
    assert !LiabilityOk(Liability(MarginMapOf(rows), a), Exposure(exchange, Short, a), a, o);
  }

  /** Readiness explains every debt there may be exactly when the margin payload can be read or
      margin is disabled. */
  lemma ReadyExplainsDebtsIff(s: Snapshot, locals: seq<LocalRow>, intents: seq<IntentRow>, o: Options)
    requires Ready(s, locals, intents, o)
    ensures (forall rows :: RealDebts(s, rows) ==> LiabilitiesExplained(MarginMapOf(rows), Exchange(s, o), o))
      <==> DebtsSeen(s)
  {
    if DebtsSeen(s) {
      assert MarginMapOf([]) == map[];
    } else {
      var rows := HiddenDebt(Exchange(s, o), o);
      assert RealDebts(s, rows);
    }
  }

  // ---------------------------------------------------------------- spot balances

  predicate BalancesSeen(s: Snapshot) { s.spotAccount.Usable? && s.spotAccount.value.balances.Usable? }

  ghost predicate RealBalances(s: Snapshot, rows: seq<Row<BalanceRow>>) { BalancesSeen(s) ==> rows == Balances(s) }

  lemma HiddenBalance(exchange: PositionTable, o: Options) returns (rows: seq<Row<BalanceRow>>)
    ensures !SpotExplained(rows, exchange, o)
  {
    var a := UnknownAsset(o.quoteAssets + o.prices.Keys + o.treasuryAssets);
    var x := UnexplainedAmount(a, Exposure(exchange, Long, a), o);
    rows := [Mapping(BalanceRow(a, Finite(x), Absent))];
    assert rows[1..] == [] && CountsFor(rows[0], o.qtyTolerance, a);
    assert BalanceMark(o.qtyTolerance, a)(rows[0]) == x && Inventory([], o.qtyTolerance, a) == 0.0;
    assert Inventory(rows, o.qtyTolerance, a) == x && Held(rows, o.qtyTolerance, a);
    assert !ResidualOk(x, Exposure(exchange, Long, a), a, o);
  }

  /** Readiness hedges and explains all the inventory there may be exactly when the spot account
      and its balances can be read. */
  lemma ReadyExplainsBalancesIff(s: Snapshot, locals: seq<LocalRow>, intents: seq<IntentRow>, o: Options)
    requires Ready(s, locals, intents, o)
    ensures (forall rows :: RealBalances(s, rows) ==>
      SpotHedged(rows, Exchange(s, o), o) && SpotExplained(rows, Exchange(s, o), o))
      <==> BalancesSeen(s)
  {
    if !BalancesSeen(s) {
      var rows := HiddenBalance(Exchange(s, o), o);
      assert RealBalances(s, rows);
    }
  }

  /** Where the account's identity is configured, readiness takes a spot account that can be
      read. */
  lemma IdentityNeedsSpot(s: Snapshot, locals: seq<LocalRow>, intents: seq<IntentRow>, o: Options)
    requires Ready(s, locals, intents, o) && Strip(o.expectedUid) != ""
    ensures s.spotAccount.Usable?
  {
  }

  // ---------------------------------------------------------------- open orders

  predicate OrdersSeen(s: Snapshot) {
    && s.futuresOpenOrders.Usable? && s.spotOpenOrders.Usable?
    && (s.marginOpenOrders.Usable? || s.marginOrdersStatus.Disabled?)
  }

  /** The orders there may be, list by list. */
  ghost predicate RealOrders(s: Snapshot, futures: seq<Row<OrderRow>>, spot: seq<Row<OrderRow>>,
                             margin: seq<Row<OrderRow>>) {
    && (s.futuresOpenOrders.Usable? ==> futures == s.futuresOpenOrders.value)
    && (s.spotOpenOrders.Usable? ==> spot == s.spotOpenOrders.value)
    && (s.marginOpenOrders.Usable? ==> margin == s.marginOpenOrders.value)
    && (!s.marginOpenOrders.Usable? && s.marginOrdersStatus.Disabled? ==> margin == [])
  }

  const STRAY_ORDER := Mapping(OrderRow("", "", "", ""))

  lemma StrayIsNotOwned(rows: seq<Row<OrderRow>>, intents: seq<IntentRow>, managed: set<string>, prefix: string)
    requires STRAY_ORDER in rows
    ensures !OrdersOwned(rows, intents, managed, prefix)
  {
    MappedMembers(rows, STRAY_ORDER.row);
    assert Strip("") == "" && OrderClientId(STRAY_ORDER.row) == "";
    var k :| 0 <= k < |Mapped(rows)| && Mapped(rows)[k] == STRAY_ORDER.row;
    assert OwnershipOf(Mapped(rows)[k], intents, managed, prefix) == Unknown;
  }

  /** Readiness owns every order there may be exactly when all order lists can be read, the
      margin one only if margin orders are not disabled. */
  lemma ReadyOwnsOrdersIff(s: Snapshot, locals: seq<LocalRow>, intents: seq<IntentRow>, o: Options)
    requires Ready(s, locals, intents, o)
    ensures (forall f, p, m :: RealOrders(s, f, p, m) ==>
      OrdersOwned(f + p + m, intents, LocalMapOf(locals).Keys, o.botPrefix))
      <==> OrdersSeen(s)
  {
    if OrdersSeen(s) {
      forall f, p, m | RealOrders(s, f, p, m)
        ensures OrdersOwned(f + p + m, intents, LocalMapOf(locals).Keys, o.botPrefix)
      {
        assert f + p + m == OrderRows(s);
      }
    } else {
      var f := if s.futuresOpenOrders.Usable? then s.futuresOpenOrders.value else [STRAY_ORDER];
      var p := if s.spotOpenOrders.Usable? then s.spotOpenOrders.value else [STRAY_ORDER];
      var m := if s.marginOpenOrders.Usable? then s.marginOpenOrders.value
               else if s.marginOrdersStatus.Disabled? then [] else [STRAY_ORDER];
      assert STRAY_ORDER in f || STRAY_ORDER in p || STRAY_ORDER in m;
      StrayIsNotOwned(f + p + m, intents, LocalMapOf(locals).Keys, o.botPrefix);
      assert RealOrders(s, f, p, m);
    }
  }

  // ---------------------------------------------------------------- nothing seen, and ready

  /** Every payload that may be unreadable is. */
  const BLIND_SNAPSHOT := Snapshot(Unusable, Unusable, Unusable, Unusable, Unusable, Unavailable, Unavailable,
                                   Available, Available, {})

  /** An account of which nothing could be read is ready, whatever the tolerances, as long as
      nothing is managed and no identity is demanded. */
  lemma BlindAccountIsReady(o: Options, intents: seq<IntentRow>)
    requires Strip(o.expectedUid) == "" && !o.requireUid
    ensures Ready(BLIND_SNAPSHOT, [], intents, o)
    ensures !DebtsSeen(BLIND_SNAPSHOT) && !BalancesSeen(BLIND_SNAPSHOT) && !OrdersSeen(BLIND_SNAPSHOT)
  {
    var s := BLIND_SNAPSHOT;
    assert RiskTable(s, o) == map[] && AccountTable(s, o) == map[] && Exchange(s, o) == map[];
    assert LocalMapOf([]) == map[] && Margin(s) == map[] && Balances(s) == [] && OrderRows(s) == [];
    forall x ensures !Repeated(RowsOf(s.positionRisk), o.qtyTolerance, x) {
      assert OpenCount([], o.qtyTolerance, x) == 0.0;
    }
    forall a, d ensures Legs(map[], d, a) == {} {}
  }
}
