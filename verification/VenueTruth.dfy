/** The truth of one account, venue by venue: complete only when all evidence is there. */
module VenueTruth {
  import opened AccountTruth
  import opened Text

  const BALANCE_FIELDS: seq<Spec> := [Spec("asset", Get("asset"), AsText), Spec("free", Get("free"), AsDecimal),
                                      Spec("locked", Get("locked"), AsDecimal)]

  const SPOT_ORDER_FIELDS: seq<Spec> := [
    Spec("symbol", Get("symbol"), AsText), Spec("order_id", Get("orderId"), AsInteger),
    Spec("client_order_id", Get("clientOrderId"), AsText), Spec("side", Get("side"), AsText),
    Spec("type", Get("type"), AsText),
    Spec("status", Get("status"), AsText), Spec("price", Get("price"), AsDecimal),
    Spec("orig_qty", Get("origQty"), AsDecimal),
    Spec("executed_qty", Get("executedQty"), AsDecimal),
    Spec("cumulative_quote_qty", Get("cummulativeQuoteQty"), AsDecimal)]

  const TRADE_FIELDS: seq<Spec> := [
    Spec("symbol", Get("symbol"), AsText), Spec("trade_id", Get("id"), AsInteger),
    Spec("order_id", Get("orderId"), AsInteger),
    Spec("price", Get("price"), AsDecimal), Spec("qty", Get("qty"), AsDecimal),
    Spec("quote_qty", Get("quoteQty"), AsDecimal),
    Spec("commission", Get("commission"), AsDecimal), Spec("commission_asset", Get("commissionAsset"), AsText),
    Spec("time_ms", Get("time"), AsInteger), Spec("is_buyer", Get("isBuyer"), AsFlag),
    Spec("is_maker", Get("isMaker"), AsFlag)]

  const BORROW_FIELDS: seq<Spec> := [Spec("asset", Get("asset"), AsText),
                                     Spec("borrowed", Get("borrowed"), AsDecimal),
                                     Spec("interest", Get("interest"), AsDecimal)]

  const INTEREST_FIELDS: seq<Spec> := [
    Spec("transaction_id", Get("txId"), AsText), Spec("asset", Get("asset"), AsText),
    Spec("interest", Get("interest"), AsDecimal),
    Spec("principal", Get("principal"), AsDecimal),
    Spec("time_ms", FirstOf("interestAccuredTime", "interestAccruedTime"), AsInteger)]

  const ASSET_FIELDS: seq<Spec> := [
    Spec("asset", Get("asset"), AsText), Spec("wallet_balance", Get("walletBalance"), AsDecimal),
    Spec("available_balance", Get("availableBalance"), AsDecimal),
    Spec("margin_balance", Get("marginBalance"), AsDecimal),
    Spec("unrealized_profit", Get("unrealizedProfit"), AsDecimal)]

  const FUTURES_ORDER_FIELDS: seq<Spec> := [
    Spec("symbol", Get("symbol"), AsText), Spec("order_id", Get("orderId"), AsInteger),
    Spec("client_order_id", Get("clientOrderId"), AsText),
    Spec("position_side", GetOr("positionSide", Words("BOTH")), AsText),
    Spec("side", Get("side"), AsText), Spec("type", Get("type"), AsText), Spec("status", Get("status"), AsText),
    Spec("price", Get("price"), AsDecimal), Spec("orig_qty", Get("origQty"), AsDecimal),
    Spec("executed_qty", Get("executedQty"), AsDecimal)]

  /** A position is read from its risk row, falling back on its account row. */
  const POSITION_FIELDS: seq<Spec> := [
    Spec("position_amount", Fallback("positionAmt", "positionAmt"), AsDecimal),
    Spec("entry_price", Fallback("entryPrice", "entryPrice"), AsDecimal),
    Spec("mark_price", Get("markPrice"), AsDecimal),
    Spec("unrealized_profit", Fallback("unRealizedProfit", "unrealizedProfit"), AsDecimal),
    Spec("leverage", Fallback("leverage", "leverage"), AsDecimal),
    Spec("maintenance_margin", Other("maintMargin"), AsDecimal),
    Spec("margin_type", Get("marginType"), AsText), Spec("liquidation_price", Get("liquidationPrice"), AsDecimal)]

  const WALLET_FIELDS: seq<Spec> := [
    Spec("wallet_balance", Get("totalWalletBalance"), AsDecimal),
    Spec("available_balance", Get("availableBalance"), AsDecimal),
    Spec("total_margin_balance", Get("totalMarginBalance"), AsDecimal),
    Spec("total_maint_margin", Get("totalMaintMargin"), AsDecimal)]

  const ACCOUNT_FIELDS: seq<Spec> := [Spec("uid", Get("uid"), AsText), Spec("can_trade", Get("canTrade"), AsFlag)]

  const SCOPE_FIELDS: seq<Spec> := [Spec("trades.scope", Get("spot_trade_scope"), AsText)]

  function StatusOf(py: Python, v: Value): string { Lower(if Truthy(v) then py.textOf(v) else "unknown") }

  function AccountOf(v: Value): Row { if v.Object? then v.fields else map[] }

  method ReadAccount(v: Value, path: Path, missing: Missing) returns (row: Row)
    modifies missing
    ensures row == AccountOf(v)
    ensures missing.paths == old(missing.paths) + (if v.Object? then [] else [path])
  {
    row := AccountOf(v);
    if !v.Object? { missing.Enter(path); }
  }

  method Demand(ok: bool, path: Path, missing: Missing)
    modifies missing
    ensures missing.paths == old(missing.paths) + (if ok then [] else [path])
  {
    if !ok { missing.Enter(path); }
  }

  // ---------------------------------------------------------------- standard spot

  datatype Spot = Spot(account: seq<Out>, balances: seq<seq<Out>>, orders: seq<seq<Out>>, scope: seq<Out>,
                       trades: seq<seq<Out>>, borrow: seq<seq<Out>>, interest: seq<seq<Out>>)

  predicate SpotAccountOk(py: Python, s: Row) {
    && Lookup(s, "spot_account").Object?
    && Complete(py, ACCOUNT_FIELDS, AccountOf(Lookup(s, "spot_account")), map[])
    && TableOk(py, BALANCE_FIELDS, Lookup(AccountOf(Lookup(s, "spot_account")), "balances"))
  }

  predicate SpotTradingOk(py: Python, s: Row) {
    && TableOk(py, SPOT_ORDER_FIELDS, Lookup(s, "spot_open_orders"))
    && StatusOf(py, Lookup(s, "spot_trades_status")) == "available"
    && Complete(py, SCOPE_FIELDS, s, map[])
    && TableOk(py, TRADE_FIELDS, Lookup(s, "spot_trades"))
    && Lookup(s, "spot_trade_symbols").Items?
  }

  predicate BorrowOk(py: Python, s: Row) {
    var status := StatusOf(py, Lookup(s, "margin_account_status"));
    || status == "disabled"
    || (&& status == "available" && Lookup(s, "margin_account").Object?
        && TableOk(py, BORROW_FIELDS, Lookup(AccountOf(Lookup(s, "margin_account")), "userAssets")))
  }

  predicate InterestOk(py: Python, s: Row) {
    var status := StatusOf(py, Lookup(s, "margin_interest_status"));
    (status == "available" || status == "disabled") && TableOk(py, INTEREST_FIELDS, Lookup(s, "margin_interest"))
  }

  /** All the spot evidence a complete status promises. */
  predicate SpotOk(py: Python, s: Row) {
    SpotAccountOk(py, s) && SpotTradingOk(py, s) && BorrowOk(py, s) && InterestOk(py, s)
  }

  predicate SpotGapless(r: Spot) {
    && Gapless(r.account) && Gapless(r.scope) && GaplessTable(r.balances) && GaplessTable(r.orders)
    && GaplessTable(r.trades) && GaplessTable(r.borrow) && GaplessTable(r.interest)
  }

  function BorrowTable(py: Python, s: Row): seq<seq<Out>> {
    if StatusOf(py, Lookup(s, "margin_account_status")) == "available"
    then Table(py, BORROW_FIELDS, Lookup(AccountOf(Lookup(s, "margin_account")), "userAssets")) else []
  }

  function SpotOf(py: Python, s: Row): Spot {
    var account := AccountOf(Lookup(s, "spot_account"));
    Spot(Normal(py, ACCOUNT_FIELDS, account, map[]), Table(py, BALANCE_FIELDS, Lookup(account, "balances")),
         Table(py, SPOT_ORDER_FIELDS, Lookup(s, "spot_open_orders")), Normal(py, SCOPE_FIELDS, s, map[]),
         Table(py, TRADE_FIELDS, Lookup(s, "spot_trades")), BorrowTable(py, s),
         Table(py, INTEREST_FIELDS, Lookup(s, "margin_interest")))
  }

  lemma NormalIsGapless(py: Python, specs: seq<Spec>, row: Row, other: Row)
    ensures Gapless(Normal(py, specs, row, other)) <==> Complete(py, specs, row, other)
  {
    forall i | 0 <= i < |specs| ensures Normal(py, specs, row, other)[i] == FieldOf(py, specs[i], row, other) {}
  }

  /** Complete spot evidence leaves no gap at any depth, and every row of every list is there. */
  lemma SpotHasNoGaps(py: Python, s: Row)
    requires SpotOk(py, s)
    ensures SpotGapless(SpotOf(py, s))
    ensures |SpotOf(py, s).orders| == |Lookup(s, "spot_open_orders").items|
      && |SpotOf(py, s).trades| == |Lookup(s, "spot_trades").items|
  {
    var account := AccountOf(Lookup(s, "spot_account"));
    NormalIsGapless(py, ACCOUNT_FIELDS, account, map[]);
    NormalIsGapless(py, SCOPE_FIELDS, s, map[]);
    TableIsGapless(py, BALANCE_FIELDS, Lookup(account, "balances"));
    TableIsGapless(py, SPOT_ORDER_FIELDS, Lookup(s, "spot_open_orders"));
    TableIsGapless(py, TRADE_FIELDS, Lookup(s, "spot_trades"));
    TableIsGapless(py, INTEREST_FIELDS, Lookup(s, "margin_interest"));
    if StatusOf(py, Lookup(s, "margin_account_status")) == "available" && Lookup(s, "margin_account").Object? {
      BorrowHasNoGaps(py, s);
    }
  }

  lemma BorrowHasNoGaps(py: Python, s: Row)
    requires BorrowOk(py, s)
    ensures GaplessTable(BorrowTable(py, s))
  {
    if StatusOf(py, Lookup(s, "margin_account_status")) == "available" {
      assert "available" != "disabled";
      TableIsGapless(py, BORROW_FIELDS, Lookup(AccountOf(Lookup(s, "margin_account")), "userAssets"));
    }
  }

  method NormalizeSpotAccount(py: Python, s: Row, missing: Missing) returns (account: seq<Out>, balances: seq<seq<Out>>)
    modifies missing
    ensures account == SpotOf(py, s).account && balances == SpotOf(py, s).balances
    ensures old(missing.paths) <= missing.paths
    ensures missing.Clean(old(missing.paths)) <==> SpotAccountOk(py, s)
  {
    var prefix := Root("standard_spot");
    var row := ReadAccount(Lookup(s, "spot_account"), Field(prefix, "account"), missing);
    account := ReadRow(py, ACCOUNT_FIELDS, row, map[], prefix, missing);
    balances := ReadTable(py, BALANCE_FIELDS, Lookup(row, "balances"), Field(prefix, "balances"), missing);
  }

  method NormalizeSpotTrading(py: Python, s: Row, missing: Missing)
      returns (orders: seq<seq<Out>>, scope: seq<Out>, trades: seq<seq<Out>>)
    modifies missing
    ensures orders == SpotOf(py, s).orders && scope == SpotOf(py, s).scope && trades == SpotOf(py, s).trades
    ensures old(missing.paths) <= missing.paths
    ensures missing.Clean(old(missing.paths)) <==> SpotTradingOk(py, s)
  {
    var prefix := Root("standard_spot");
    orders := ReadTable(py, SPOT_ORDER_FIELDS, Lookup(s, "spot_open_orders"), Field(prefix, "open_orders"), missing);
    Demand(StatusOf(py, Lookup(s, "spot_trades_status")) == "available", Field(prefix, "trades.availability"), missing);
    scope := ReadRow(py, SCOPE_FIELDS, s, map[], prefix, missing);
    trades := ReadTable(py, TRADE_FIELDS, Lookup(s, "spot_trades"), Field(prefix, "trades"), missing);
    Demand(Lookup(s, "spot_trade_symbols").Items?, Field(prefix, "trade_symbols"), missing);
  }

  method NormalizeBorrow(py: Python, s: Row, missing: Missing) returns (borrow: seq<seq<Out>>)
    modifies missing
    ensures borrow == BorrowTable(py, s)
    ensures old(missing.paths) <= missing.paths
    ensures missing.Clean(old(missing.paths)) <==> BorrowOk(py, s)
  {
    var prefix := Field(Root("standard_spot"), "borrow_interest");
    var status := StatusOf(py, Lookup(s, "margin_account_status"));
    borrow := [];
    if status == "available" {
      var row := ReadAccount(Lookup(s, "margin_account"), Field(prefix, "account"), missing);
      borrow := ReadTable(py, BORROW_FIELDS, Lookup(row, "userAssets"), Field(prefix, "rows"), missing);
    } else {
      Demand(status == "disabled", Field(prefix, "availability"), missing);
    }
  }

  method NormalizeInterest(py: Python, s: Row, missing: Missing) returns (interest: seq<seq<Out>>)
    modifies missing
    ensures interest == SpotOf(py, s).interest
    ensures old(missing.paths) <= missing.paths
    ensures missing.Clean(old(missing.paths)) <==> InterestOk(py, s)
  {
    var prefix := Field(Root("standard_spot"), "interest_events");
    var status := StatusOf(py, Lookup(s, "margin_interest_status"));
    Demand(status == "available" || status == "disabled", Field(prefix, "availability"), missing);
    interest := ReadTable(py, INTEREST_FIELDS, Lookup(s, "margin_interest"), prefix, missing);
  }

  /** The list of missing fields stays empty exactly when the evidence is complete. */
  method NormalizeSpot(py: Python, s: Row, missing: Missing) returns (r: Spot)
    modifies missing
    ensures r == SpotOf(py, s)
    ensures old(missing.paths) <= missing.paths
    ensures missing.Clean(old(missing.paths)) <==> SpotOk(py, s)
  {
    var account, balances := NormalizeSpotAccount(py, s, missing);
    var orders, scope, trades := NormalizeSpotTrading(py, s, missing);
    var borrow := NormalizeBorrow(py, s, missing);
    var interest := NormalizeInterest(py, s, missing);
    r := Spot(account, balances, orders, scope, trades, borrow, interest);
  }
}
