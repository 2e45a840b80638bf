/** Configuration values, their coercion, and the rules an effective configuration obeys. */
module Config {
  import opened Text
  import opened Wrappers

  datatype Json =
    | JNull
    | JBool(b: bool)
    | JInt(n: int)
    | JReal(x: real)
    | JNaN
    | JInf(positive: bool)
    | JText(s: string)
    | JList(items: seq<Json>)
    | JObject(fields: map<string, Json>)

  /** The keys the rules mention; every other configured key is `Plain`, and a name that
      is no configuration key at all is `Unexpected`. */
  datatype Key =
    | AccountEquityUsd | MaxGrossExposureUsd | MaxNotionalPerTrade | NotionalPerTrade
    | PerClusterNotionalCapUsd | PerSymbolNotionalCapUsd | ScannerMinDepthUsd
    | ExecutionDefaultMaxSlippageBps | ExecutionMaxPassiveOffsetBps | EmergencyExitMaxSlippageBps
    | MinExpectedEdgeBps | MinIncrementalPortfolioEdgeBps | ScannerMaxDataStaleSeconds
    | ScannerMaxSpreadBps | ScannerMaxToxicSpreadBps | ScannerMinDepthMultiplier
    | EmergencyExitMaxRetries | EmergencyExitReadbackAttempts
    | MaxDrawdownPct | SoftDrawdownPct | MaxDrawdownReleasePct | EntryPremiumThreshold
    | MakerFillProbability | ValidationAdjustNotionalScale | DecisionEngineStage
    | WarningFreeBytes | DegradedFreeBytes | EmergencyFreeBytes | CriticalFreeBytes
    | WarningFreeFraction | DegradedFreeFraction | EmergencyFreeFraction | CriticalFreeFraction
    | WarningTtfHours | DegradedTtfHours | EmergencyTtfHours | CriticalTtfHours
    | ComponentBudgets | VolumeBudgetBytes | ReserveBytes | MonitorIntervalSeconds
    | ControlGeneration | EmergencyLatched | RecoveryAcknowledged
    | ResearchEvidenceMinIntervalSeconds
    | AllowReverseSpotEntry | LiveApprovalRequired
    | Plain(name: string)
    | Unexpected(name: string)

  type Values = map<Key, Json>

  /** Conversions of Python's built-in constructors this model does not look into. */
  datatype Builtins = Builtins(
    intOf: string -> Option<int>,
    floatOf: string -> Option<Json>,
    textOf: Json -> string,
    listOf: Json -> Option<seq<Json>>,
    dictOf: Json -> Option<map<string, Json>>)

  // ---------------------------------------------------------------- coercion

  function Truncate(x: real): int { if x >= 0.0 then x.Floor else -((-x).Floor) }

  function CoerceBool(v: Json): Option<Json> {
    match v
    case JBool(b) => Some(v)
    case JText(s) =>
      var t := Lower(Strip(s));
      if t == "true" || t == "1" || t == "yes" || t == "on" then Some(JBool(true))
      else if t == "false" || t == "0" || t == "no" || t == "off" then Some(JBool(false))
      else None
    case JInt(n) => if n == 0 then Some(JBool(false)) else if n == 1 then Some(JBool(true)) else None
    case _ => None
  }

  /** An infinite number meant for an integer key raises an error of its own kind. */
  predicate Overflows(default: Json, v: Json) { default.JInt? && v.JInf? }

  function CoerceInt(py: Builtins, v: Json): (r: Option<Json>)
    ensures r.Some? ==> r.value.JInt?
  {
    match v
    case JInt(n) => Some(v)
    case JBool(b) => Some(JInt(if b then 1 else 0))
    case JReal(x) => Some(JInt(Truncate(x)))
    case JText(s) => if py.intOf(s).Some? then Some(JInt(py.intOf(s).value)) else None
    case _ => None
  }

  function CoerceFloat(py: Builtins, v: Json): Option<Json> {
    match v
    case JReal(x) => Some(v)
    case JNaN => Some(v)
    case JInf(_) => Some(v)
    case JInt(n) => Some(JReal(n as real))
    case JBool(b) => Some(JReal(if b then 1.0 else 0.0))
    case JText(s) =>
      var r := py.floatOf(s);
      if r.Some? && (r.value.JReal? || r.value.JNaN? || r.value.JInf?) then r else None
    case _ => None
  }

  /** The value converted to the kind of the key's default; `None` where Python raises. */
  function Coerce(py: Builtins, default: Json, v: Json): Option<Json> {
    match default
    case JBool(_) => CoerceBool(v)
    case JInt(_) => CoerceInt(py, v)
    case JReal(_) => CoerceFloat(py, v)
    case JList(_) => if v.JList? then Some(v) else if py.listOf(v).Some? then Some(JList(py.listOf(v).value)) else None
    case JObject(_) =>
      if v.JObject? then Some(v) else if py.dictOf(v).Some? then Some(JObject(py.dictOf(v).value)) else None
    case _ => if v.JText? then Some(v) else Some(JText(py.textOf(v)))
  }

  /** Coercing twice is coercing once. */
  lemma CoerceTwice(py: Builtins, default: Json, v: Json)
    ensures Coerce(py, default, v).Some? ==> Coerce(py, default, Coerce(py, default, v).value) == Coerce(py, default, v)
  {
  }

  // ---------------------------------------------------------------- rules

  /** Floating-point order: no number is below or above a NaN. */
  predicate Below(a: Json, b: Json) {
    match a
    case JInf(p) => !p && (b.JInt? || b.JReal? || (b.JInf? && b.positive))
    case JInt(n) => BelowAll(n as real, b)
    case JReal(x) => BelowAll(x, b)
    case _ => false
  }

  predicate BelowAll(x: real, b: Json) {
    match b case JInt(n) => x < n as real case JReal(y) => x < y case JInf(p) => p case _ => false
  }

  predicate IsFloat(c: Values, k: Key) { k in c && (c[k].JReal? || c[k].JNaN? || c[k].JInf? || c[k].JInt?) }

  predicate Numeric(c: Values, k: Key) { k in c && (c[k].JInt? || c[k].JReal?) }

  function Number(c: Values, k: Key): real {
    if k !in c then 0.0 else match c[k] case JInt(n) => n as real case JReal(x) => x case _ => 0.0
  }

  predicate IsHours(k: Key) { k.WarningTtfHours? || k.DegradedTtfHours? || k.EmergencyTtfHours? || k.CriticalTtfHours? }

  const INTERNAL_KEYS := {ControlGeneration, EmergencyLatched, RecoveryAcknowledged}

  predicate Positive(c: Values, k: Key) { Numeric(c, k) && Number(c, k) > 0.0 }

  predicate NonNegative(c: Values, k: Key) { Numeric(c, k) && Number(c, k) >= 0.0 }

  predicate SignRules(c: Values) { SizeRules(c) && CostRules(c) }

  predicate SizeRules(c: Values) {
    && Positive(c, AccountEquityUsd) && Positive(c, MaxGrossExposureUsd) && Positive(c, MaxNotionalPerTrade)
    && Positive(c, NotionalPerTrade) && Positive(c, PerClusterNotionalCapUsd) && Positive(c, PerSymbolNotionalCapUsd)
    && Positive(c, ScannerMinDepthUsd)
  }

  predicate CostRules(c: Values) {
    && NonNegative(c, ExecutionDefaultMaxSlippageBps) && NonNegative(c, ExecutionMaxPassiveOffsetBps)
    && NonNegative(c, EmergencyExitMaxSlippageBps) && NonNegative(c, MinExpectedEdgeBps)
    && NonNegative(c, MinIncrementalPortfolioEdgeBps) && NonNegative(c, ScannerMaxDataStaleSeconds)
    && NonNegative(c, ScannerMaxSpreadBps) && NonNegative(c, ScannerMaxToxicSpreadBps)
    && NonNegative(c, ScannerMinDepthMultiplier)
    && Number(c, EmergencyExitMaxSlippageBps) <= 50.0
    && IntBetween(c, EmergencyExitMaxRetries, 2) && IntBetween(c, EmergencyExitReadbackAttempts, 3)
  }

  predicate IntBetween(c: Values, k: Key, ceiling: int) { k in c && c[k].JInt? && 1 <= c[k].n <= ceiling }

  /** Soft and release drawdown stay below the maximum, which is at most a quarter. */
  predicate DrawdownRules(c: Values) {
    && Numeric(c, MaxDrawdownPct) && 0.0 < Number(c, MaxDrawdownPct) <= 0.25
    && Numeric(c, SoftDrawdownPct) && 0.0 <= Number(c, SoftDrawdownPct) < Number(c, MaxDrawdownPct)
    && Numeric(c, MaxDrawdownReleasePct) && 0.0 <= Number(c, MaxDrawdownReleasePct) <= 0.20
    && Number(c, MaxDrawdownReleasePct) < Number(c, MaxDrawdownPct)
  }

  predicate TradingRules(c: Values) {
    && Numeric(c, EntryPremiumThreshold) && -0.001 <= Number(c, EntryPremiumThreshold) <= 0.002
    && Number(c, ScannerMaxSpreadBps) <= Number(c, ScannerMaxToxicSpreadBps)
    && Numeric(c, MakerFillProbability) && 0.0 <= Number(c, MakerFillProbability) <= 1.0
    && Numeric(c, ValidationAdjustNotionalScale) && 0.10 <= Number(c, ValidationAdjustNotionalScale) <= 1.0
    && DecisionEngineStage in c && c[DecisionEngineStage].JText? && KnownStage(c[DecisionEngineStage].s)
  }

  predicate KnownStage(s: string) {
    var t := Lower(Strip(s));
    t == "shadow" || t == "paper_candidate" || t == "testnet_candidate" || t == "live_approved"
  }

  /** Positive, or NaN, which no comparison finds to be at most zero. */
  predicate PositiveOrNaN(c: Values, k: Key) { IsFloat(c, k) && (c[k].JNaN? || Below(JReal(0.0), c[k])) }

  /** The hours are compared without a finiteness check: sorting leaves a list in place
      exactly when no member is below its successor. */
  predicate HourRules(c: Values) {
    && PositiveOrNaN(c, WarningTtfHours) && PositiveOrNaN(c, DegradedTtfHours)
    && PositiveOrNaN(c, EmergencyTtfHours) && PositiveOrNaN(c, CriticalTtfHours)
    && !Below(c[WarningTtfHours], c[DegradedTtfHours])
    && !Below(c[DegradedTtfHours], c[EmergencyTtfHours])
    && !Below(c[EmergencyTtfHours], c[CriticalTtfHours])
  }

  /** Free bytes and fractions descend from warning to critical. */
  predicate SpaceRules(c: Values) {
    && PositiveInt(c, WarningFreeBytes) && PositiveInt(c, DegradedFreeBytes)
    && PositiveInt(c, EmergencyFreeBytes) && PositiveInt(c, CriticalFreeBytes)
    && Number(c, WarningFreeBytes) >= Number(c, DegradedFreeBytes) >= Number(c, EmergencyFreeBytes)
         >= Number(c, CriticalFreeBytes)
    && Fraction(c, WarningFreeFraction) && Fraction(c, DegradedFreeFraction)
    && Fraction(c, EmergencyFreeFraction) && Fraction(c, CriticalFreeFraction)
    && Number(c, WarningFreeFraction) >= Number(c, DegradedFreeFraction) >= Number(c, EmergencyFreeFraction)
         >= Number(c, CriticalFreeFraction)
  }

  /** What is checked of the storage keys once every component budget is found positive. */
  predicate VolumeRules(c: Values) {
    && Numeric(c, VolumeBudgetBytes) && Number(c, VolumeBudgetBytes) > Number(c, WarningFreeBytes)
    && Numeric(c, ReserveBytes) && Number(c, ReserveBytes) > 0.0
    && PositiveOrNaN(c, MonitorIntervalSeconds)
    && Numeric(c, ResearchEvidenceMinIntervalSeconds) && Number(c, ResearchEvidenceMinIntervalSeconds) >= 1.0
  }

  predicate BudgetsGiven(c: Values) {
    ComponentBudgets in c && c[ComponentBudgets].JObject? && c[ComponentBudgets].fields != map[]
  }

  function BudgetsOf(c: Values): map<string, Json> { if BudgetsGiven(c) then c[ComponentBudgets].fields else map[] }

  predicate BudgetsPass(py: Builtins, c: Values) {
    forall f :: f in BudgetsOf(c) ==> PositiveBudget(py, BudgetsOf(c)[f])
  }

  predicate PositiveInt(c: Values, k: Key) { k in c && c[k].JInt? && c[k].n > 0 }

  predicate Fraction(c: Values, k: Key) { Numeric(c, k) && 0.0 < Number(c, k) < 1.0 }

  predicate PositiveBudget(py: Builtins, v: Json) {
    var r := CoerceInt(py, v);
    r.Some? && r.value.n > 0
  }

  /** Generation-zero storage control is unlatched and unacknowledged, and an emergency is
      never both latched and acknowledged. */
  predicate ControlRules(c: Values) {
    && ControlGeneration in c && c[ControlGeneration].JInt? && c[ControlGeneration].n >= 0
    && EmergencyLatched in c && c[EmergencyLatched].JBool? && RecoveryAcknowledged in c
         && c[RecoveryAcknowledged].JBool?
    && (c[ControlGeneration].n == 0 ==> !c[EmergencyLatched].b && !c[RecoveryAcknowledged].b)
    && !(c[EmergencyLatched].b && c[RecoveryAcknowledged].b)
  }

  /** The rules checked before the component budgets, and those checked after them. */
  predicate EarlyRules(c: Values) {
    SignRules(c) && DrawdownRules(c) && TradingRules(c) && SpaceRules(c) && HourRules(c) && BudgetsGiven(c)
  }

  predicate LateRules(c: Values) { VolumeRules(c) && ControlRules(c) }

  predicate Rules(py: Builtins, c: Values) { EarlyRules(c) && BudgetsPass(py, c) && LateRules(c) }

  /** The reviewed bounds of live mode. */
  datatype Limits = Limits(minimums: map<Key, real>, maximums: map<Key, real>, budgets: map<string, int>)

  predicate LiveFloors(py: Builtins, c: Values, limits: Limits) {
    && (forall k :: k in limits.minimums ==> IsFloat(c, k) && !Below(c[k], JReal(limits.minimums[k])))
    && (forall k :: k in limits.maximums ==> IsFloat(c, k) && !Below(JReal(limits.maximums[k]), c[k]))
    && AllowReverseSpotEntry in c && c[AllowReverseSpotEntry] == JBool(false)
    && LiveApprovalRequired in c && c[LiveApprovalRequired] == JBool(true)
    && DecisionEngineStage in c && c[DecisionEngineStage].JText?
         && Lower(Strip(c[DecisionEngineStage].s)) == "live_approved"
    && ComponentBudgets in c && c[ComponentBudgets].JObject?
    && forall f :: f in limits.budgets ==>
         f in c[ComponentBudgets].fields
         && var cap := CoerceInt(py, c[ComponentBudgets].fields[f]); cap.Some? && cap.value.n <= limits.budgets[f]
  }

  /** A number within its reviewed bounds, which NaN is not. */
  predicate WithinBounds(c: Values, limits: Limits) {
    && (forall k :: k in limits.minimums ==> IsFloat(c, k) && AtLeast(c[k], JReal(limits.minimums[k])))
    && (forall k :: k in limits.maximums ==> IsFloat(c, k) && AtLeast(JReal(limits.maximums[k]), c[k]))
  }

  /** Both comparable, and the first not below the second. */
  predicate AtLeast(a: Json, b: Json) { !a.JNaN? && !b.JNaN? && !Below(a, b) }

  predicate Bounded(limits: Limits, k: Key) { k in limits.minimums || k in limits.maximums }

  /** Passing the live floors leaves every bounded key within its bounds exactly when none of
      them is NaN. */
  lemma WithinBoundsIff(py: Builtins, c: Values, limits: Limits)
    requires LiveFloors(py, c, limits)
    ensures WithinBounds(c, limits) <==> forall k :: Bounded(limits, k) ==> !c[k].JNaN?
  {
  }

  // ---------------------------------------------------------------- validation

  /** Everything compiled in: the defaults, the conversions, and the check of an effective
      configuration in live or other mode, which looks at the component budgets in between. */
  datatype Schema = Schema(defaults: Values, py: Builtins, early: Values -> bool, late: (Values, bool) -> bool) {
    predicate Passes(c: Values, live: bool) { early(c) && BudgetsPass(py, c) && late(c, live) }
  }

  /** The check as the validator performs it. */
  function Production(defaults: Values, py: Builtins, limits: Limits): Schema {
    Schema(defaults, py, c => EarlyRules(c), (c, live) => LateRules(c) && (live ==> LiveFloors(py, c, limits)))
  }

  ghost predicate Sound(schema: Schema) {
    && schema.Passes(schema.defaults, false) && (forall c :: schema.Passes(c, true) ==> schema.Passes(c, false))
    && (forall k :: k in schema.defaults ==>
         Coerce(schema.py, schema.defaults[k], schema.defaults[k]) == Some(schema.defaults[k]))
    && INTERNAL_KEYS <= schema.defaults.Keys
  }

  predicate Coercible(schema: Schema, payload: Values) {
    forall k :: k in payload ==> k in schema.defaults && Coerce(schema.py, schema.defaults[k], payload[k]).Some?
  }

  function Normalized(schema: Schema, payload: Values): Values
    requires Coercible(schema, payload)
  {
    map k | k in payload :: Coerce(schema.py, schema.defaults[k], payload[k]).value
  }

  function Effective(schema: Schema, payload: Values): Values { schema.defaults + payload }

  predicate Acceptable(schema: Schema, payload: Values, live: bool) {
    && Coercible(schema, payload)
    && payload.Keys * INTERNAL_KEYS == {}
    && schema.Passes(Effective(schema, Normalized(schema, payload)), live)
  }

  ghost predicate CoercedOn(schema: Schema, payload: Values, done: set<Key>, normalized: Values) {
    && done <= payload.Keys && normalized.Keys == done
    && forall k :: k in done ==>
         k in schema.defaults && Coerce(schema.py, schema.defaults[k], payload[k]) == Some(normalized[k])
  }

  lemma CoercedStep(schema: Schema, payload: Values, done: set<Key>, normalized: Values, k: Key)
    requires CoercedOn(schema, payload, done, normalized)
    requires k in payload && k in schema.defaults && Coerce(schema.py, schema.defaults[k], payload[k]).Some?
    ensures CoercedOn(schema, payload, done + {k},
                      normalized[k := Coerce(schema.py, schema.defaults[k], payload[k]).value])
  {
  }

  lemma CoercedAll(schema: Schema, payload: Values, done: set<Key>, normalized: Values)
    requires CoercedOn(schema, payload, done, normalized) && payload.Keys - done == {}
    ensures Coercible(schema, payload) && normalized == Normalized(schema, payload)
  {
    forall k | k in payload ensures k in done { assert k !in payload.Keys - done; }
  }

  lemma UnknownKeyRefused(schema: Schema, payload: Values)
    requires !(payload.Keys <= schema.defaults.Keys)
    ensures !Coercible(schema, payload)
  {
    var k :| k in payload.Keys && k !in schema.defaults.Keys;
    assert k in payload;
  }

  // ---------------------------------------------------------------- errors and their kinds

  /** An infinite number meant for an integer raises an error of its own kind. */
  datatype Verdict = Passed | Refused | Overflowed

  /** Loops over a file's entries end at the first one they cannot take, so the order of the
      entries decides the kind of error where kinds mix.  Of the order it matters only whether
      an overflowing entry comes before any refused one, among the keys and among the budgets. */
  datatype Order = Order(keys: bool, budgets: bool)

  /** An entry that such an order allows to come next. */
  predicate MayBeNext<T(==)>(pending: set<T>, verdict: T -> Verdict, overflowFirst: bool, x: T) {
    && (overflowFirst && verdict(x).Refused? ==> forall y :: y in pending ==> !verdict(y).Overflowed?)
    && (!overflowFirst && verdict(x).Overflowed? ==> forall y :: y in pending ==> !verdict(y).Refused?)
  }

  lemma SomeIsNext<T(!new)>(pending: set<T>, verdict: T -> Verdict, overflowFirst: bool)
    requires pending != {}
    ensures exists x :: x in pending && MayBeNext(pending, verdict, overflowFirst, x)
  {
    var x :| x in pending;
    if !MayBeNext(pending, verdict, overflowFirst, x) {
      var y :| y in pending && if overflowFirst then verdict(y).Overflowed? else verdict(y).Refused?;
      assert MayBeNext(pending, verdict, overflowFirst, y);
    }
  }

  /** The first entry that cannot be taken overflows. */
  predicate OverflowsFirst<T(==)>(entries: set<T>, verdict: T -> Verdict, overflowFirst: bool) {
    && (exists x :: x in entries && verdict(x).Overflowed?)
    && (overflowFirst || forall x :: x in entries ==> !verdict(x).Refused?)
  }

  function KeyVerdict(schema: Schema, payload: Values): Key -> Verdict {
    k =>
      if k !in payload || k !in schema.defaults then Refused
      else if Overflows(schema.defaults[k], payload[k]) then Overflowed
      else if Coerce(schema.py, schema.defaults[k], payload[k]).None? then Refused
      else Passed
  }

  lemma KeyPasses(schema: Schema, payload: Values, k: Key)
    ensures KeyVerdict(schema, payload)(k).Passed? <==>
      k in payload && k in schema.defaults && Coerce(schema.py, schema.defaults[k], payload[k]).Some?
  {
  }

  lemma CoercibleHasNoOverflow(schema: Schema, payload: Values, overflowFirst: bool)
    requires Coercible(schema, payload)
    ensures !OverflowsFirst(payload.Keys, KeyVerdict(schema, payload), overflowFirst)
  {
    forall k | k in payload.Keys ensures KeyVerdict(schema, payload)(k).Passed? { KeyPasses(schema, payload, k); }
  }

  /** The payload coerced key by key; nothing when one key is refused, and then whether it
      overflowed. */
  method NormalizeAll(schema: Schema, payload: Values, overflowFirst: bool) returns (r: Option<Values>, overflow: bool)
    requires payload.Keys <= schema.defaults.Keys
    ensures r.Some? <==> Coercible(schema, payload)
    ensures r.Some? ==> r.value == Normalized(schema, payload)
    ensures overflow <==> OverflowsFirst(payload.Keys, KeyVerdict(schema, payload), overflowFirst)
  {
    var normalized: Values := map[];
    var done: set<Key> := {};
    ghost var verdict := KeyVerdict(schema, payload);
    while payload.Keys - done != {}
      invariant CoercedOn(schema, payload, done, normalized)
      invariant forall k :: k in done ==> verdict(k).Passed?
      decreases payload.Keys - done
    {
      SomeIsNext(payload.Keys - done, verdict, overflowFirst);
      var k :| k in payload.Keys - done
        && MayBeNext(payload.Keys - done, KeyVerdict(schema, payload), overflowFirst, k);
      KeyPasses(schema, payload, k);
      var v := Coerce(schema.py, schema.defaults[k], payload[k]);
      if v.None? {
        FailsAt(payload.Keys, done, verdict, overflowFirst, k);
        return None, Overflows(schema.defaults[k], payload[k]);
      }
      CoercedStep(schema, payload, done, normalized, k);
      normalized := normalized[k := v.value];
      done := done + {k};
    }
    CoercedAll(schema, payload, done, normalized);
    CoercibleHasNoOverflow(schema, payload, overflowFirst);
    r, overflow := Some(normalized), false;
  }

  /** The first entry a loop cannot take decides the kind of error. */
  lemma FailsAt<T>(entries: set<T>, done: set<T>, verdict: T -> Verdict, overflowFirst: bool, x: T)
    requires done <= entries && (forall y :: y in done ==> verdict(y).Passed?)
    requires x in entries - done && !verdict(x).Passed? && MayBeNext(entries - done, verdict, overflowFirst, x)
    ensures verdict(x).Overflowed? <==> OverflowsFirst(entries, verdict, overflowFirst)
  {
    forall y | y in entries && !verdict(y).Passed? ensures y in entries - done {}
  }

  function BudgetVerdict(py: Builtins, budgets: map<string, Json>): string -> Verdict {
    f =>
      if f !in budgets then Refused
      else if budgets[f].JInf? then Overflowed
      else if PositiveBudget(py, budgets[f]) then Passed
      else Refused
  }

  /** Every budget must convert to a positive integer; the first that does not ends the loop. */
  method CheckBudgets(py: Builtins, budgets: map<string, Json>, overflowFirst: bool) returns (v: Verdict)
    ensures v.Passed? <==> forall f :: f in budgets ==> PositiveBudget(py, budgets[f])
    ensures v.Overflowed? <==> OverflowsFirst(budgets.Keys, BudgetVerdict(py, budgets), overflowFirst)
  {
    var done: set<string> := {};
    ghost var verdict := BudgetVerdict(py, budgets);
    while budgets.Keys - done != {}
      invariant done <= budgets.Keys && forall f :: f in done ==> verdict(f).Passed?
      decreases budgets.Keys - done
    {
      SomeIsNext(budgets.Keys - done, verdict, overflowFirst);
      var f :| f in budgets.Keys - done
        && MayBeNext(budgets.Keys - done, BudgetVerdict(py, budgets), overflowFirst, f);
      if budgets[f].JInf? || !PositiveBudget(py, budgets[f]) {
        FailsAt(budgets.Keys, done, verdict, overflowFirst, f);
        return if budgets[f].JInf? then Overflowed else Refused;
      }
      done := done + {f};
    }
    forall f | f in budgets ensures verdict(f).Passed? { assert f !in budgets.Keys - done; }
    v := Passed;
  }

  /** Whether the check of an effective configuration overflows: the rules before the budgets
      hold, and the first budget it cannot take is infinite. */
  predicate CheckOverflows(schema: Schema, c: Values, overflowFirst: bool) {
    schema.early(c) && OverflowsFirst(BudgetsOf(c).Keys, BudgetVerdict(schema.py, BudgetsOf(c)), overflowFirst)
  }

  method CheckRules(schema: Schema, c: Values, live: bool, overflowFirst: bool) returns (v: Verdict)
    ensures v.Passed? <==> schema.Passes(c, live)
    ensures v.Overflowed? <==> CheckOverflows(schema, c, overflowFirst)
  {
    if !schema.early(c) { return Refused; }
    v := CheckBudgets(schema.py, BudgetsOf(c), overflowFirst);
    if v.Passed? {
      forall f | f in BudgetsOf(c) ensures BudgetVerdict(schema.py, BudgetsOf(c))(f).Passed? {}
      v := if schema.late(c, live) then Passed else Refused;
    }
  }

  /** A payload that raises the error no reload catches: only known keys, none of them
      internal, and either a key overflows first, or all coerce and then a budget does. */
  predicate Overflowing(schema: Schema, payload: Values, order: Order) {
    && payload.Keys <= schema.defaults.Keys && payload.Keys * INTERNAL_KEYS == {}
    && if Coercible(schema, payload)
       then CheckOverflows(schema, Effective(schema, Normalized(schema, payload)), order.budgets)
       else OverflowsFirst(payload.Keys, KeyVerdict(schema, payload), order.keys)
  }

  /** Rejects unknown and internal keys, coerces the rest one by one, and checks the rules
      on the effective configuration. */
  method ValidateLiveConfig(schema: Schema, payload: Values, live: bool, order: Order)
      returns (r: Option<Values>, overflow: bool)
    ensures r.Some? <==> Acceptable(schema, payload, live)
    ensures r.Some? ==> r.value == Normalized(schema, payload)
    ensures overflow <==> Overflowing(schema, payload, order)
  {
    if !(payload.Keys <= schema.defaults.Keys) {
      UnknownKeyRefused(schema, payload);
      return None, false;
    }
    if payload.Keys * INTERNAL_KEYS != {} { return None, false; }
    r, overflow := NormalizeAll(schema, payload, order.keys);
    if r.Some? {
      var v := CheckRules(schema, Effective(schema, r.value), live, order.budgets);
      r, overflow := if v.Passed? then r else None, v.Overflowed?;
    }
  }

  /** A payload that is already in normal form. */
  predicate Normal(schema: Schema, payload: Values) {
    Coercible(schema, payload) && Normalized(schema, payload) == payload
  }

  lemma NormalizedIsNormal(schema: Schema, payload: Values)
    requires Coercible(schema, payload)
    ensures Normal(schema, Normalized(schema, payload))
  {
    forall k | k in payload
      ensures Coerce(schema.py, schema.defaults[k], Normalized(schema, payload)[k])
        == Some(Normalized(schema, payload)[k])
    {
      CoerceTwice(schema.py, schema.defaults[k], payload[k]);
    }
  }

  /** Validating a validated payload accepts it unchanged. */
  lemma ValidationIdempotent(schema: Schema, payload: Values, live: bool)
    requires Acceptable(schema, payload, live)
    ensures Acceptable(schema, Normalized(schema, payload), live)
    ensures Normalized(schema, Normalized(schema, payload)) == Normalized(schema, payload)
  {
    NormalizedIsNormal(schema, payload);
  }

  // ---------------------------------------------------------------- what acceptance implies

  predicate HasHours(c: Values) {
    WarningTtfHours in c && DegradedTtfHours in c && EmergencyTtfHours in c && CriticalTtfHours in c
  }

  predicate HoursOrdered(c: Values)
    requires HasHours(c)
  {
    && AtLeast(c[WarningTtfHours], c[DegradedTtfHours]) && AtLeast(c[WarningTtfHours], c[EmergencyTtfHours])
    && AtLeast(c[WarningTtfHours], c[CriticalTtfHours]) && AtLeast(c[DegradedTtfHours], c[EmergencyTtfHours])
    && AtLeast(c[DegradedTtfHours], c[CriticalTtfHours]) && AtLeast(c[EmergencyTtfHours], c[CriticalTtfHours])
  }

  /** The hour thresholds of an accepted configuration descend exactly when none is NaN. */
  lemma HoursOrderedIff(c: Values)
    requires HourRules(c)
    ensures HasHours(c)
    ensures HoursOrdered(c) <==> forall k :: IsHours(k) ==> !c[k].JNaN?
  {
  }

  /** Hours and component budgets have rules to themselves, and plain keys have none. */
  predicate Free(k: Key) { IsHours(k) || k.ComponentBudgets? || k.Plain? }

  /** Equal on every key outside a set of free keys. */
  ghost predicate SameOutside(c: Values, d: Values, changed: set<Key>) {
    && (forall k :: k in changed ==> Free(k))
    && forall k :: k !in changed ==> (k in c <==> k in d) && (k in c ==> c[k] == d[k])
  }

  lemma SameSizes(c: Values, d: Values, changed: set<Key>)
    requires SameOutside(c, d, changed) && SizeRules(c)
    ensures SizeRules(d)
  {
  }

  lemma SameCosts(c: Values, d: Values, changed: set<Key>)
    requires SameOutside(c, d, changed) && CostRules(c)
    ensures CostRules(d)
  {
  }

  lemma SameTrading(c: Values, d: Values, changed: set<Key>)
    requires SameOutside(c, d, changed) && DrawdownRules(c) && TradingRules(c) && ControlRules(c)
    ensures DrawdownRules(d) && TradingRules(d) && ControlRules(d)
  {
  }

  lemma SameStorage(c: Values, d: Values, changed: set<Key>)
    requires SameOutside(c, d, changed) && SpaceRules(c) && VolumeRules(c)
    ensures SpaceRules(d) && VolumeRules(d)
  {
  }

  lemma SameHours(c: Values, d: Values, changed: set<Key>)
    requires SameOutside(c, d, changed) && (forall k :: k in changed ==> !IsHours(k)) && HourRules(c)
    ensures HourRules(d)
  {
  }

  lemma SameBudgets(py: Builtins, c: Values, d: Values, changed: set<Key>)
    requires SameOutside(c, d, changed) && ComponentBudgets !in changed
    ensures BudgetsOf(d) == BudgetsOf(c) && (BudgetsGiven(c) ==> BudgetsGiven(d))
  {
  }

  /** The early and late rules hold again where only hours, budgets and plain keys differ. */
  lemma SameEarly(c: Values, d: Values, changed: set<Key>)
    requires SameOutside(c, d, changed) && EarlyRules(c) && LateRules(c) && HourRules(d) && BudgetsGiven(d)
    ensures EarlyRules(d) && LateRules(d)
  {
    SameSizes(c, d, changed);
    SameCosts(c, d, changed);
    SameTrading(c, d, changed);
    SameStorage(c, d, changed);
  }

  lemma SameRules(py: Builtins, c: Values, d: Values, changed: set<Key>)
    requires SameOutside(c, d, changed) && ComponentBudgets !in changed && Rules(py, c) && HourRules(d)
    ensures Rules(py, d)
  {
    SameBudgets(py, c, d, changed);
    SameEarly(c, d, changed);
  }

  function HoursPayload(w: Json, d: Json, e: Json, c: Json): Values {
    map[WarningTtfHours := w, DegradedTtfHours := d, EmergencyTtfHours := e, CriticalTtfHours := c]
  }

  lemma HoursPayloadIsNormal(schema: Schema, w: Json, d: Json, e: Json, c: Json)
    requires HasHours(schema.defaults) && (forall k :: IsHours(k) ==> schema.defaults[k].JReal?)
    requires forall v | v in [w, d, e, c] :: v.JReal? || v.JNaN?
    ensures Coercible(schema, HoursPayload(w, d, e, c))
    ensures Normalized(schema, HoursPayload(w, d, e, c)) == HoursPayload(w, d, e, c)
    ensures HoursPayload(w, d, e, c).Keys * INTERNAL_KEYS == {}
    ensures SameOutside(schema.defaults, Effective(schema, HoursPayload(w, d, e, c)), HoursPayload(w, d, e, c).Keys)
  {
    var p := HoursPayload(w, d, e, c);
    forall k | k in p
      ensures IsHours(k) && k in schema.defaults && Coerce(schema.py, schema.defaults[k], p[k]) == Some(p[k])
    {
      HoursPayloadAt(w, d, e, c, k);
    }
  }

  lemma HoursPayloadAt(w: Json, d: Json, e: Json, c: Json, k: Key)
    requires k in HoursPayload(w, d, e, c)
    ensures IsHours(k) && HoursPayload(w, d, e, c)[k] in [w, d, e, c]
  {
  }

  predicate HoursPass(v: Json) { v.JNaN? || (v.JReal? && v.x > 0.0) }

  lemma HoursPayloadOrder(schema: Schema, w: Json, d: Json, e: Json, c: Json)
    requires HoursPass(w) && HoursPass(d) && HoursPass(e) && HoursPass(c)
    requires !Below(w, d) && !Below(d, e) && !Below(e, c)
    ensures HourRules(Effective(schema, HoursPayload(w, d, e, c)))
  {
    var effective := Effective(schema, HoursPayload(w, d, e, c));
    assert effective[WarningTtfHours] == w && effective[DegradedTtfHours] == d;
    assert effective[EmergencyTtfHours] == e && effective[CriticalTtfHours] == c;
  }

  lemma HoursPayloadAccepted(schema: Schema, limits: Limits, w: Json, d: Json, e: Json, c: Json)
    requires schema == Production(schema.defaults, schema.py, limits) && schema.Passes(schema.defaults, false)
    requires HasHours(schema.defaults) && (forall k :: IsHours(k) ==> schema.defaults[k].JReal?)
    requires HoursPass(w) && HoursPass(d) && HoursPass(e) && HoursPass(c)
    requires !Below(w, d) && !Below(d, e) && !Below(e, c)
    ensures Acceptable(schema, HoursPayload(w, d, e, c), false)
  {
    ghost var p, effective := HoursEffective(schema, w, d, e, c);
    HoursKeepPassing(schema, limits, effective, p.Keys);
  }

  lemma HoursEffective(schema: Schema, w: Json, d: Json, e: Json, c: Json) returns (p: Values, effective: Values)
    requires HasHours(schema.defaults) && (forall k :: IsHours(k) ==> schema.defaults[k].JReal?)
    requires HoursPass(w) && HoursPass(d) && HoursPass(e) && HoursPass(c)
    requires !Below(w, d) && !Below(d, e) && !Below(e, c)
    ensures p == HoursPayload(w, d, e, c) && effective == Effective(schema, p)
    ensures Coercible(schema, p) && Normalized(schema, p) == p && p.Keys * INTERNAL_KEYS == {}
    ensures SameOutside(schema.defaults, effective, p.Keys) && ComponentBudgets !in p.Keys && HourRules(effective)
  {
    p := HoursPayload(w, d, e, c);
    effective := Effective(schema, p);
    HoursPayloadIsNormal(schema, w, d, e, c);
    HoursPayloadOrder(schema, w, d, e, c);
  }

  lemma HoursKeepPassing(schema: Schema, limits: Limits, c: Values, changed: set<Key>)
    requires schema == Production(schema.defaults, schema.py, limits) && schema.Passes(schema.defaults, false)
    requires SameOutside(schema.defaults, c, changed) && ComponentBudgets !in changed && HourRules(c)
    ensures schema.Passes(c, false)
  {
    SameRules(schema.py, schema.defaults, c, changed);
  }

  lemma InternalAtDefaults(schema: Schema, payload: Values)
    requires payload.Keys * INTERNAL_KEYS == {} && payload.Keys <= schema.defaults.Keys
      && INTERNAL_KEYS <= schema.defaults.Keys
    ensures Effective(schema, payload).Keys == schema.defaults.Keys
    ensures forall k :: k in INTERNAL_KEYS ==>
      k in schema.defaults && Effective(schema, payload)[k] == schema.defaults[k]
  {
    forall k | k in INTERNAL_KEYS ensures k in schema.defaults && k !in payload {
      assert k !in payload.Keys * INTERNAL_KEYS;
    }
  }

  predicate Ordered(c: Values) {
    && Number(c, SoftDrawdownPct) < Number(c, MaxDrawdownPct)
    && Number(c, MaxDrawdownReleasePct) < Number(c, MaxDrawdownPct)
    && Number(c, WarningFreeBytes) >= Number(c, DegradedFreeBytes) >= Number(c, EmergencyFreeBytes)
         >= Number(c, CriticalFreeBytes)
    && Number(c, WarningFreeFraction) >= Number(c, DegradedFreeFraction) >= Number(c, EmergencyFreeFraction)
         >= Number(c, CriticalFreeFraction)
  }

  /** Soft and release drawdown are below the maximum, and free bytes and fractions descend. */
  lemma RulesOrder(py: Builtins, c: Values)
    requires Rules(py, c)
    ensures Ordered(c)
  {
  }

  // ---------------------------------------------------------------- the wire hash

  /** Canonical JSON refuses a number that is not finite, at any depth. */
  predicate Encodable(v: Json) {
    match v
    case JNaN => false
    case JInf(_) => false
    case JList(items) => forall i :: 0 <= i < |items| ==> Encodable(items[i])
    case JObject(fields) => forall f :: f in fields ==> Encodable(fields[f])
    case _ => true
  }

  predicate Hashable(c: Values) { forall k :: k in c ==> Encodable(c[k]) }

  /** With NaN degraded hours any positive warning and emergency hours are accepted, in
      either order, and the result cannot be hashed. */
  lemma HoursOrderCanBreak(schema: Schema, limits: Limits, warning: real, emergency: real)
    requires schema == Production(schema.defaults, schema.py, limits) && schema.Passes(schema.defaults, false)
    requires warning > 0.0 && emergency > 0.0
    requires HasHours(schema.defaults) && (forall k :: IsHours(k) ==> schema.defaults[k].JReal?)
    ensures var p := HoursPayload(JReal(warning), JNaN, JReal(emergency), JReal(emergency));
      Acceptable(schema, p, false) && !Hashable(Effective(schema, p))
  {
    UnhashableHours(schema, JReal(warning), JReal(emergency), JReal(emergency));
    HoursPayloadAccepted(schema, limits, JReal(warning), JNaN, JReal(emergency), JReal(emergency));
  }

  lemma UnhashableHours(schema: Schema, w: Json, e: Json, c: Json)
    ensures !Hashable(Effective(schema, HoursPayload(w, JNaN, e, c)))
  {
    NaNIsUnhashable(Effective(schema, HoursPayload(w, JNaN, e, c)), DegradedTtfHours);
  }

  lemma NaNIsUnhashable(c: Values, k: Key)
    requires k in c && c[k].JNaN?
    ensures !Hashable(c)
  {
  }

  lemma PlainKeepsRules(py: Builtins, c: Values, d: Values, name: string)
    requires SameOutside(c, d, {Plain(name)}) && Rules(py, c)
    ensures Rules(py, d)
  {
    SameHours(c, d, {Plain(name)});
    SameRules(py, c, d, {Plain(name)});
  }

  lemma NaNKeepsFloors(py: Builtins, c: Values, d: Values, limits: Limits, name: string)
    requires SameOutside(c, d, {Plain(name)}) && Plain(name) in d && d[Plain(name)].JNaN? && LiveFloors(py, c, limits)
    ensures LiveFloors(py, d, limits)
  {
  }

  lemma PlainNaNPasses(schema: Schema, limits: Limits, c: Values, d: Values, name: string)
    requires schema == Production(schema.defaults, schema.py, limits) && schema.Passes(c, true)
    requires SameOutside(c, d, {Plain(name)}) && Plain(name) in d && d[Plain(name)].JNaN?
    ensures schema.Passes(d, true)
  {
    PlainKeepsRules(schema.py, c, d, name);
    NaNKeepsFloors(schema.py, c, d, limits, name);
  }

  lemma PlainNaNIsNormal(schema: Schema, p: Values, name: string)
    requires Normal(schema, p) && Plain(name) in schema.defaults && schema.defaults[Plain(name)].JReal?
    ensures Normal(schema, p[Plain(name) := JNaN])
    ensures Effective(schema, p[Plain(name) := JNaN]) == Effective(schema, p)[Plain(name) := JNaN]
  {
    var q := p[Plain(name) := JNaN];
    forall k | k in q ensures k in schema.defaults && Coerce(schema.py, schema.defaults[k], q[k]) == Some(q[k]) {
      if k != Plain(name) { assert Normalized(schema, p)[k] == p[k]; }
    }
  }

  lemma PlainNaNAccepted(schema: Schema, p: Values, name: string)
    requires Normal(schema, p) && p.Keys * INTERNAL_KEYS == {}
    requires Plain(name) in schema.defaults && schema.defaults[Plain(name)].JReal?
    requires schema.Passes(Effective(schema, p)[Plain(name) := JNaN], true)
    ensures Normal(schema, p[Plain(name) := JNaN]) && Acceptable(schema, p[Plain(name) := JNaN], true)
  {
    var q := p[Plain(name) := JNaN];
    PlainNaNIsNormal(schema, p, name);
    forall k | k in q.Keys ensures k !in INTERNAL_KEYS { assert k !in p.Keys * INTERNAL_KEYS; }
  }

  /** Any accepted live file stays accepted when a fractional key without a rule of its own is
      set to NaN, whatever the reviewed bound of that key; the result cannot be hashed. */
  lemma NaNPassesFloors(schema: Schema, limits: Limits, p: Values, name: string)
    requires schema == Production(schema.defaults, schema.py, limits)
    requires Normal(schema, p) && Acceptable(schema, p, true)
    requires Plain(name) in schema.defaults && schema.defaults[Plain(name)].JReal? && Bounded(limits, Plain(name))
    ensures var q := p[Plain(name) := JNaN];
      && Normal(schema, q) && Acceptable(schema, q, true)
      && !WithinBounds(Effective(schema, q), limits) && !Hashable(Effective(schema, q))
  {
    ghost var c, d := PlainNaN(schema, limits, p, name);
    PlainNaNPasses(schema, limits, c, d, name);
    PlainNaNAccepted(schema, p, name);
  }

  lemma PlainNaN(schema: Schema, limits: Limits, p: Values, name: string) returns (c: Values, d: Values)
    requires Normal(schema, p) && Bounded(limits, Plain(name))
    requires Plain(name) in schema.defaults && schema.defaults[Plain(name)].JReal?
    ensures c == Effective(schema, p) && d == c[Plain(name) := JNaN] == Effective(schema, p[Plain(name) := JNaN])
    ensures SameOutside(c, d, {Plain(name)}) && Plain(name) in d && d[Plain(name)].JNaN?
    ensures !WithinBounds(d, limits) && !Hashable(d)
  {
    c := Effective(schema, p);
    d := c[Plain(name) := JNaN];
    PlainNaNIsNormal(schema, p, name);
    NaNIsUnhashable(d, Plain(name));
  }

  // ---------------------------------------------------------------- an infinite budget

  lemma InfiniteBudgetIsEarly(schema: Schema, limits: Limits, c: Values)
    requires schema == Production(schema.defaults, schema.py, limits) && schema.Passes(schema.defaults, false)
    requires SameOutside(schema.defaults, c, {ComponentBudgets}) && BudgetsGiven(c)
    ensures schema.early(c)
  {
    SameHours(schema.defaults, c, {ComponentBudgets});
    SameEarly(schema.defaults, c, {ComponentBudgets});
  }

  lemma BudgetPayloadIsNormal(schema: Schema, budgets: map<string, Json>)
    requires ComponentBudgets in schema.defaults && schema.defaults[ComponentBudgets].JObject?
    ensures var m := map[ComponentBudgets := JObject(budgets)];
      && Coercible(schema, m) && Normalized(schema, m) == m && m.Keys * INTERNAL_KEYS == {}
      && SameOutside(schema.defaults, Effective(schema, m), {ComponentBudgets})
      && (budgets != map[] ==> BudgetsGiven(Effective(schema, m)) && BudgetsOf(Effective(schema, m)) == budgets)
  {
  }

  lemma OnlyInfinite(py: Builtins, name: string, positive: bool, overflowFirst: bool)
    ensures var budgets := map[name := JInf(positive)];
      && budgets != map[] && OverflowsFirst(budgets.Keys, BudgetVerdict(py, budgets), overflowFirst)
      && !PositiveBudget(py, budgets[name])
  {
    var budgets := map[name := JInf(positive)];
    assert name in budgets && BudgetVerdict(py, budgets)(name).Overflowed?;
  }

  /** An infinite component budget passes the rules before it and overflows, whatever its
      name, its sign and the order of the file. */
  lemma InfiniteBudgetOverflows(schema: Schema, limits: Limits, name: string, positive: bool, order: Order)
    requires schema == Production(schema.defaults, schema.py, limits) && schema.Passes(schema.defaults, false)
    ensures var m := map[ComponentBudgets := JObject(map[name := JInf(positive)])];
      Overflowing(schema, m, order) && forall live :: !Acceptable(schema, m, live)
  {
    var m := map[ComponentBudgets := JObject(map[name := JInf(positive)])];
    assert ComponentBudgets in schema.defaults && schema.defaults[ComponentBudgets].JObject?;
    OnlyInfinite(schema.py, name, positive, order.budgets);
    BudgetPayloadIsNormal(schema, map[name := JInf(positive)]);
    InfiniteBudgetIsEarly(schema, limits, Effective(schema, m));
  }

  // ---------------------------------------------------------------- the compiled values

  predicate At(c: Values, k: Key, v: Json) { k in c && c[k] == v }

  predicate TradingCompiled(c: Values) {
    && At(c, AccountEquityUsd, JReal(10000.0)) && At(c, MaxGrossExposureUsd, JReal(10000.0))
    && At(c, MaxNotionalPerTrade, JReal(2500.0)) && At(c, NotionalPerTrade, JReal(2500.0))
    && At(c, PerClusterNotionalCapUsd, JReal(10000.0)) && At(c, PerSymbolNotionalCapUsd, JReal(2500.0))
    && At(c, ScannerMinDepthUsd, JReal(150000.0)) && At(c, ExecutionDefaultMaxSlippageBps, JReal(10.0))
    && At(c, ExecutionMaxPassiveOffsetBps, JReal(2.0)) && At(c, EmergencyExitMaxSlippageBps, JReal(50.0))
    && At(c, MinExpectedEdgeBps, JReal(6.0)) && At(c, MinIncrementalPortfolioEdgeBps, JReal(4.0))
    && At(c, ScannerMaxDataStaleSeconds, JInt(45)) && At(c, ScannerMaxSpreadBps, JReal(12.0))
    && At(c, ScannerMaxToxicSpreadBps, JReal(35.0)) && At(c, ScannerMinDepthMultiplier, JReal(5.0))
    && At(c, EmergencyExitMaxRetries, JInt(2)) && At(c, EmergencyExitReadbackAttempts, JInt(3))
    && At(c, MaxDrawdownPct, JReal(0.10)) && At(c, SoftDrawdownPct, JReal(0.04))
    && At(c, MaxDrawdownReleasePct, JReal(0.08)) && At(c, EntryPremiumThreshold, JReal(0.0002))
    && At(c, MakerFillProbability, JReal(0.70)) && At(c, ValidationAdjustNotionalScale, JReal(0.50))
    && At(c, DecisionEngineStage, JText("shadow")) && At(c, AllowReverseSpotEntry, JBool(false))
    && At(c, LiveApprovalRequired, JBool(true))
  }

  predicate StorageCompiled(c: Values) {
    && At(c, WarningFreeBytes, JInt(20000000000)) && At(c, DegradedFreeBytes, JInt(15000000000))
    && At(c, EmergencyFreeBytes, JInt(10000000000)) && At(c, CriticalFreeBytes, JInt(5000000000))
    && At(c, WarningFreeFraction, JReal(1.0 / 3.0)) && At(c, DegradedFreeFraction, JReal(0.25))
    && At(c, EmergencyFreeFraction, JReal(1.0 / 6.0)) && At(c, CriticalFreeFraction, JReal(1.0 / 12.0))
    && At(c, WarningTtfHours, JReal(72.0)) && At(c, DegradedTtfHours, JReal(24.0))
    && At(c, EmergencyTtfHours, JReal(6.0)) && At(c, CriticalTtfHours, JReal(1.0))
    && At(c, VolumeBudgetBytes, JInt(60000000000)) && At(c, ReserveBytes, JInt(1000000000))
    && At(c, MonitorIntervalSeconds, JReal(15.0)) && At(c, ControlGeneration, JInt(0))
    && At(c, EmergencyLatched, JBool(false)) && At(c, RecoveryAcknowledged, JBool(false))
    && At(c, ResearchEvidenceMinIntervalSeconds, JInt(60))
  }

  predicate BudgetsCompiled(c: Values) {
    && ComponentBudgets in c && c[ComponentBudgets].JObject? && c[ComponentBudgets].fields != map[]
    && forall f :: f in c[ComponentBudgets].fields ==>
         c[ComponentBudgets].fields[f].JInt? && c[ComponentBudgets].fields[f].n > 0
  }

  lemma ShadowIsPlain()
    ensures Lower(Strip("shadow")) == "shadow"
  {
    assert Strip("shadow") == "shadow";
  }

  lemma TradingCompiledPasses(c: Values)
    requires TradingCompiled(c)
    ensures SignRules(c) && DrawdownRules(c) && TradingRules(c)
  {
    ShadowIsPlain();
  }

  lemma StorageCompiledPasses(py: Builtins, c: Values)
    requires StorageCompiled(c) && BudgetsCompiled(c)
    ensures SpaceRules(c) && HourRules(c) && BudgetsGiven(c) && BudgetsPass(py, c) && LateRules(c)
  {
  }

  /** The compiled defaults obey every rule, so a manager without a file does too. */
  lemma CompiledDefaultsPass(py: Builtins, c: Values)
    requires TradingCompiled(c) && StorageCompiled(c) && BudgetsCompiled(c)
    ensures Rules(py, c)
  {
    TradingCompiledPasses(c);
    StorageCompiledPasses(py, c);
  }

  /** The kinds a compiled default may have. */
  predicate DefaultKind(v: Json) { v.JBool? || v.JInt? || v.JReal? || v.JText? || v.JList? || v.JObject? }

  lemma DefaultCoercesToItself(py: Builtins, v: Json)
    requires DefaultKind(v)
    ensures Coerce(py, v, v) == Some(v)
  {
  }

  lemma InternalKeysCompiled(d: Values)
    requires StorageCompiled(d)
    ensures INTERNAL_KEYS <= d.Keys
  {
  }

  /** A sound schema is one whose rules accept its defaults and whose defaults keep their kind. */
  lemma SoundFromRules(d: Values, py: Builtins, limits: Limits)
    requires Rules(py, d) && INTERNAL_KEYS <= d.Keys && forall k :: k in d ==> Coerce(py, d[k], d[k]) == Some(d[k])
    ensures Sound(Production(d, py, limits))
  {
  }

  /** The production check with the compiled defaults is sound: it accepts its own defaults,
      live mode only adds to it, and every default is its own coercion. */
  lemma ProductionIsSound(d: Values, py: Builtins, limits: Limits)
    requires TradingCompiled(d) && StorageCompiled(d) && BudgetsCompiled(d)
    requires forall k :: k in d ==> DefaultKind(d[k])
    ensures Sound(Production(d, py, limits))
  {
    CompiledDefaultsPass(py, d);
    InternalKeysCompiled(d);
    forall k | k in d ensures Coerce(py, d[k], d[k]) == Some(d[k]) { DefaultCoercesToItself(py, d[k]); }
    SoundFromRules(d, py, limits);
  }

  /** The compiled decision stage is not the one live mode demands: a live manager without
      an accepted file holds values below the live floors. */
  lemma CompiledDefaultsMissFloors(py: Builtins, c: Values, limits: Limits)
    requires TradingCompiled(c)
    ensures !LiveFloors(py, c, limits)
  {
    ShadowIsPlain();
  }
}
