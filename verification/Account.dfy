/** One account snapshot as the reconciler reads it, and the reconciler's small pure
    decisions about single rows. Quantities are exact. */
module Account {
  import opened Numbers
  import opened Text
  import opened Wrappers

  /** A value under a key: unavailable, present but of the wrong shape, or usable.  A key of the
      snapshot itself is unavailable when it is absent or null.  The `positions` and `balances`
      inside an account are unavailable only when absent: null there is present and unusable. */
  datatype Field<T> = Unavailable | Unusable | Usable(value: T)

  datatype Row<T> = NotMapping | Mapping(row: T)

  datatype RawNumber = Absent | Malformed | NonFinite | Finite(value: real)

  /** Anything that is not a finite number counts as zero here. */
  function Decimal(n: RawNumber): real { if n.Finite? then n.value else 0.0 }

  datatype PositionRow = PositionRow(symbol: string, amount: RawNumber, side: string)

  datatype BalanceRow = BalanceRow(asset: string, free: RawNumber, locked: RawNumber)

  datatype MarginRow = MarginRow(asset: string, borrowed: RawNumber, interest: RawNumber)

  datatype LocalRow = LocalRow(symbol: string, status: string, qty: RawNumber, direction: string, recoveryState: string)

  datatype IntentRow = IntentRow(symbol: string, clientOrderId: string, intentId: string)

  /** The three keys a client order id may arrive under, in the order they are tried. */
  datatype OrderRow = OrderRow(symbol: string, clientOrderId: string, clientOrderIdSnake: string,
                               origClientOrderId: string)

  datatype FuturesAccount = FuturesAccount(positions: Field<seq<Row<PositionRow>>>)

  datatype SpotAccount = SpotAccount(uid: string, balances: Field<seq<Row<BalanceRow>>>)

  /** An endpoint status after lower-casing; a missing or other text proves nothing. */
  datatype EndpointStatus = Available | Disabled | Unproven

  datatype Snapshot = Snapshot(
    futuresAccount: Field<FuturesAccount>,
    positionRisk: Field<seq<Row<PositionRow>>>,
    futuresOpenOrders: Field<seq<Row<OrderRow>>>,
    spotAccount: Field<SpotAccount>,
    spotOpenOrders: Field<seq<Row<OrderRow>>>,
    marginOpenOrders: Field<seq<Row<OrderRow>>>,
    marginAccount: Field<seq<Row<MarginRow>>>,
    marginStatus: EndpointStatus,
    marginOrdersStatus: EndpointStatus,
    errors: set<string>)

  datatype Options = Options(
    qtyTolerance: real,
    cashTolerance: real,
    hedgeTolerance: real,
    prices: map<string, real>,
    quoteAssets: set<string>,
    treasuryAssets: set<string>,
    expectedUid: string,
    requireUid: bool,
    botPrefix: string)

  function RowsOf<T>(f: Field<seq<Row<T>>>): seq<Row<T>> { if f.Usable? then f.value else [] }

  function AccountPositions(s: Snapshot): seq<Row<PositionRow>> {
    if s.futuresAccount.Usable? then RowsOf(s.futuresAccount.value.positions) else []
  }

  function Balances(s: Snapshot): seq<Row<BalanceRow>> {
    if s.spotAccount.Usable? then RowsOf(s.spotAccount.value.balances) else []
  }

  // ---------------------------------------------------------------- symbols and directions

  datatype Direction = Long | Short | OtherDirection(text: string)

  /** A short futures leg belongs to a long carry position, and the other way round. */
  function DirectionOf(amount: real, side: string): (d: Direction)
    ensures d == Long || d == Short
  {
    var s := if side == "" then "BOTH" else Upper(side);
    if s == "SHORT" then Long
    else if s == "LONG" then Short
    else if amount < 0.0 then Long else Short
  }

  function LocalDirection(row: LocalRow): Direction {
    var d := if row.direction == "" then "long" else Lower(row.direction);
    if d == "long" then Long else if d == "short" then Short else OtherDirection(d)
  }

  const QUOTE_SUFFIXES := ["FDUSD", "USDT", "USDC", "BUSD", "USDS", "BTC", "ETH", "BNB", "EUR", "TRY"]

  /** Strips the first suffix of the list that leaves something. */
  function StripQuote(symbol: string, suffixes: seq<string>): string {
    if suffixes == [] then symbol
    else if EndsWith(symbol, suffixes[0]) && |symbol| > |suffixes[0]| then symbol[..|symbol| - |suffixes[0]|]
    else StripQuote(symbol, suffixes[1..])
  }

  function BaseAsset(symbol: string): string { StripQuote(Upper(symbol), QUOTE_SUFFIXES) }

  function AssetValue(asset: string, quantity: real, o: Options): Option<real> {
    if asset in o.quoteAssets then Some(Abs(quantity))
    else if asset !in o.prices || o.prices[asset] <= 0.0 then None
    else Some(Abs(quantity * o.prices[asset]))
  }

  // ---------------------------------------------------------------- rows that count

  /** Row `r` reports open exposure in symbol `s`. */
  predicate OpenIn(r: Row<PositionRow>, tolerance: real, s: string) {
    r.Mapping? && s != "" && Upper(r.row.symbol) == s && Abs(Decimal(r.row.amount)) > tolerance
  }

  function BalanceQty(r: BalanceRow): real { Decimal(r.free) + Decimal(r.locked) }

  predicate CountsFor(r: Row<BalanceRow>, tolerance: real, asset: string) {
    r.Mapping? && asset != "" && Upper(r.row.asset) == asset && BalanceQty(r.row) > tolerance
  }

  predicate ManagedIn(r: LocalRow, s: string) {
    Upper(r.symbol) == s && Strip(r.symbol) != "" && Upper(if r.status == "" then "OPEN" else r.status) != "CLOSED"
  }

  // ---------------------------------------------------------------- order ownership

  predicate ClientIdChar(c: char) {
    'A' <= c <= 'Z' || 'a' <= c <= 'z' || '0' <= c <= '9' || c == '_' || c == '.' || c == ':' || c == '/' || c == '-'
  }

  predicate IsBotClientOrderId(id: string, prefix: string) {
    var value := Strip(id);
    value != "" && StartsWith(value, prefix) && |value| <= 36 && forall c :: c in value ==> ClientIdChar(c)
  }

  function OrderClientId(o: OrderRow): string {
    if Strip(o.clientOrderId) != "" then Strip(o.clientOrderId)
    else if Strip(o.clientOrderIdSnake) != "" then Strip(o.clientOrderIdSnake)
    else Strip(o.origClientOrderId)
  }

  datatype Ownership = Bot | BotOrphan | External | Unknown

  predicate Cancellable(o: Ownership) { o.Bot? || o.BotOrphan? }

  function IntentSymbols(intents: seq<IntentRow>): set<string> {
    set i | 0 <= i < |intents| && Upper(intents[i].symbol) != "" :: Upper(intents[i].symbol)
  }

  function IntentClientIds(intents: seq<IntentRow>): set<string> {
    set i | 0 <= i < |intents| && Strip(intents[i].clientOrderId) != "" :: Strip(intents[i].clientOrderId)
  }

  /** Some pending intent carries the order's client id, or else its symbol. */
  predicate Linked(o: OrderRow, intents: seq<IntentRow>) {
    OrderClientId(o) in IntentClientIds(intents) || Upper(o.symbol) in IntentSymbols(intents)
  }

  function OwnershipOf(o: OrderRow, intents: seq<IntentRow>, managed: set<string>, prefix: string): Ownership {
    if IsBotClientOrderId(OrderClientId(o), prefix)
    then if Linked(o, intents) || Upper(o.symbol) in managed then Bot else BotOrphan
    else if OrderClientId(o) != "" then External
    else Unknown
  }
}
