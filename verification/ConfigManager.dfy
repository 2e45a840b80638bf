/** The file-backed configuration manager: hot reload and merge-and-write. */
module ConfigManager {
  import opened Config
  import opened Wrappers

  /** What the file parses to; its modification time comes with it.  A value that is no object
      fails in its own way when it is a list of configuration keys, or empty. */
  datatype Content = Garbled | NotObject(keysOnly: bool) | Object(values: Values, order: Order)

  /** What a write puts in the file; none of its entries fails, so their order does not matter. */
  function Saved(values: Values): Content { Object(values, Order(false, false)) }

  datatype Version = Version(content: Content, mtime: int)

  class ConfigFile {
    var version: Option<Version>
    constructor (version: Option<Version>)
      ensures this.version == version
    {
      this.version := version;
    }
  }

  // ---------------------------------------------------------------- merging

  function Known(schema: Schema, m: Values): Values { map k | k in m && k in schema.defaults :: m[k] }

  /** Reading the existing file neither fails on its shape nor on an infinite integer that
      comes before every key refused in the ordinary way. */
  predicate Readable(schema: Schema, current: Option<Content>) {
    match current
    case Some(NotObject(_)) => false
    case Some(Object(m, order)) =>
      !OverflowsFirst(Known(schema, m).Keys, KeyVerdict(schema, Known(schema, m)), order.keys)
    case _ => true
  }

  /** The known keys of the existing file, or nothing when one of them is refused. */
  function Existing(schema: Schema, current: Option<Content>): Values {
    match current
    case Some(Object(m, _)) =>
      if Coercible(schema, Known(schema, m)) then Normalized(schema, Known(schema, m)) else map[]
    case _ => map[]
  }

  predicate Mergeable(schema: Schema, current: Option<Content>, overrides: Values) {
    Readable(schema, current) && Coercible(schema, Known(schema, overrides))
  }

  function Merged(schema: Schema, current: Option<Content>, overrides: Values): Values
    requires Mergeable(schema, current, overrides)
  {
    Existing(schema, current) + Normalized(schema, Known(schema, overrides))
  }

  predicate WriteAccepted(schema: Schema, current: Option<Content>, overrides: Values, live: bool) {
    Mergeable(schema, current, overrides) && Acceptable(schema, Merged(schema, current, overrides), live)
  }

  lemma NormalSum(schema: Schema, a: Values, b: Values)
    requires Normal(schema, a) && Normal(schema, b)
    ensures Normal(schema, a + b)
  {
    forall k | k in a + b ensures Coerce(schema.py, schema.defaults[k], (a + b)[k]) == Some((a + b)[k]) {
      if k in b { assert Normalized(schema, b)[k] == b[k]; } else { assert Normalized(schema, a)[k] == a[k]; }
    }
  }

  lemma ExistingIsNormal(schema: Schema, current: Option<Content>)
    ensures Normal(schema, Existing(schema, current))
  {
    match current
    case Some(Object(m, _)) => if Coercible(schema, Known(schema, m)) { NormalizedIsNormal(schema, Known(schema, m)); }
    case _ =>
  }

  /** What a write puts in the file is in normal form, so validating it changes nothing. */
  lemma MergedIsNormal(schema: Schema, current: Option<Content>, overrides: Values)
    requires Mergeable(schema, current, overrides)
    ensures Normal(schema, Merged(schema, current, overrides))
  {
    ExistingIsNormal(schema, current);
    NormalizedIsNormal(schema, Known(schema, overrides));
    NormalSum(schema, Existing(schema, current), Normalized(schema, Known(schema, overrides)));
  }

  /** A file in normal form is read back as it is. */
  lemma NormalReadsBack(schema: Schema, m: Values, order: Order)
    requires Normal(schema, m)
    ensures Readable(schema, Some(Object(m, order))) && Existing(schema, Some(Object(m, order))) == m
  {
    assert Known(schema, m) == m;
    CoercibleHasNoOverflow(schema, m, order.keys);
  }

  // ---------------------------------------------------------------- the held configuration

  /** What a manager may hold: the defaults, or the defaults overlaid with one validated payload. */
  ghost predicate Holds(schema: Schema, live: bool, source: Option<Values>, values: Values) {
    match source
    case None => values == schema.defaults
    case Some(p) => Normal(schema, p) && Acceptable(schema, p, live) && values == Effective(schema, p)
  }

  /** Every manager state passes the check, keeps the compiled keys, and leaves the
      storage-control fields at their defaults. */
  lemma HeldIsSafe(schema: Schema, live: bool, source: Option<Values>, values: Values)
    requires Sound(schema) && Holds(schema, live, source, values)
    ensures schema.Passes(values, false)
    ensures values.Keys == schema.defaults.Keys
    ensures forall k :: k in INTERNAL_KEYS ==> k in values && values[k] == schema.defaults[k]
  {
    match source
    case None =>
    case Some(p) =>
      InternalAtDefaults(schema, p);
  }

  lemma SameKeys(schema: Schema, live: bool, source: Option<Values>, values: Values, raw: Values)
    requires Sound(schema) && Holds(schema, live, source, values) && Acceptable(schema, raw, live)
    ensures values.Keys == Effective(schema, raw).Keys
  {
    HeldIsSafe(schema, live, source, values);
    InternalAtDefaults(schema, raw);
  }

  /** With the production check, the orders hold in every manager state; the hour thresholds
      descend too exactly when none of them is NaN. */
  lemma HeldIsOrdered(schema: Schema, limits: Limits, live: bool, source: Option<Values>, values: Values)
    requires schema == Production(schema.defaults, schema.py, limits)
    requires Sound(schema) && Holds(schema, live, source, values)
    ensures Rules(schema.py, values) && Ordered(values) && HasHours(values)
    ensures HoursOrdered(values) <==> forall k :: IsHours(k) ==> !values[k].JNaN?
  {
    HeldIsSafe(schema, live, source, values);
    RulesOrder(schema.py, values);
    HoursOrderedIff(values);
  }

  lemma LiveFloorsIff(schema: Schema, limits: Limits, source: Option<Values>, values: Values)
    requires schema == Production(schema.defaults, schema.py, limits) && TradingCompiled(schema.defaults)
    requires Holds(schema, true, source, values)
    ensures LiveFloors(schema.py, values, limits) <==> source.Some?
  {
    CompiledDefaultsMissFloors(schema.py, schema.defaults, limits);
  }

  /** Everything reviewed for live mode: the demands of the check, and every bounded number
      within its bounds. */
  predicate LivePolicy(py: Builtins, c: Values, limits: Limits) { LiveFloors(py, c, limits) && WithinBounds(c, limits) }

  ghost predicate NoBoundedNaN(limits: Limits, p: Values) {
    forall k :: k in p && Bounded(limits, k) ==> !p[k].JNaN?
  }

  lemma PolicyOfEffective(py: Builtins, limits: Limits, defaults: Values, p: Values)
    requires LiveFloors(py, defaults + p, limits) && forall k :: k in defaults ==> DefaultKind(defaults[k])
    ensures WithinBounds(defaults + p, limits) <==> NoBoundedNaN(limits, p)
  {
    var c := defaults + p;
    WithinBoundsIff(py, c, limits);
    forall k | Bounded(limits, k) ensures k in c && (c[k].JNaN? <==> k in p && p[k].JNaN?) {}
  }

  /** With the compiled defaults and the production check, a live manager meets the reviewed
      policy exactly when it holds an accepted file in which no bounded key is NaN. */
  lemma LivePolicyIff(schema: Schema, limits: Limits, source: Option<Values>, values: Values)
    requires schema == Production(schema.defaults, schema.py, limits) && TradingCompiled(schema.defaults)
    requires (forall k :: k in schema.defaults ==> DefaultKind(schema.defaults[k]))
      && Holds(schema, true, source, values)
    ensures LivePolicy(schema.py, values, limits) <==> source.Some? && NoBoundedNaN(limits, source.value)
  {
    LiveFloorsIff(schema, limits, source, values);
    if source.Some? { PolicyOfEffective(schema.py, limits, schema.defaults, source.value); }
  }

  /** `Escaped` is an error the reload does not catch. */
  datatype Reload = Skipped | Rejected | Escaped | Loaded | Unhashed
  datatype Write = Refused | Written | WrittenUnhashed

  predicate LoadAccepted(schema: Schema, content: Content, live: bool) {
    content.Object? && Acceptable(schema, content.values, live)
  }

  /** The error for this content is one the reload does not catch. */
  predicate Escapes(schema: Schema, content: Content) {
    match content
    case NotObject(keysOnly) => keysOnly
    case Object(m, order) => Overflowing(schema, m, order)
    case Garbled => false
  }

  method CheckContent(schema: Schema, content: Content, live: bool) returns (r: Option<Values>, escaped: bool)
    ensures r.Some? <==> LoadAccepted(schema, content, live)
    ensures r.Some? ==> r.value == Normalized(schema, content.values) && r.value.Keys == content.values.Keys
    ensures r.Some? ==> Normal(schema, r.value) && Acceptable(schema, r.value, live)
    ensures escaped <==> Escapes(schema, content)
    ensures escaped ==> r.None?
  {
    if !content.Object? { return None, content.NotObject? && content.keysOnly; }
    r, escaped := ValidateLiveConfig(schema, content.values, live, content.order);
    if r.Some? {
      ValidationIdempotent(schema, content.values, live);
      NormalizedIsNormal(schema, content.values);
    }
  }

  /** What a write finds in the file; nothing where reading it fails. */
  method ReadExisting(schema: Schema, current: Option<Content>) returns (payload: Option<Values>)
    ensures payload.Some? <==> Readable(schema, current)
    ensures payload.Some? ==> payload.value == Existing(schema, current)
  {
    if current.None? || current.value.Garbled? { return Some(map[]); }
    if current.value.NotObject? { return None; }
    var existing, overflow := NormalizeAll(schema, Known(schema, current.value.values), current.value.order.keys);
    if existing.Some? { CoercibleHasNoOverflow(schema, Known(schema, current.value.values), current.value.order.keys); }
    payload := if existing.Some? then existing else if overflow then None else Some(map[]);
  }

  /** What a write would put in the file; nothing when it is refused. */
  method PrepareWrite(schema: Schema, current: Option<Content>, overrides: Values, live: bool)
      returns (r: Option<Values>)
    ensures r.Some? <==> WriteAccepted(schema, current, overrides, live)
    ensures r.Some? ==> r.value == Merged(schema, current, overrides)
    ensures r.Some? ==> Normal(schema, r.value) && Acceptable(schema, r.value, live)
  {
    var payload := ReadExisting(schema, current);
    if payload.None? { return None; }
    var extra, overflow := NormalizeAll(schema, Known(schema, overrides), false);
    if extra.None? { return None; }
    MergedIsNormal(schema, current, overrides);
    r, overflow := ValidateLiveConfig(schema, payload.value + extra.value, live, Order(false, false));
  }

  class Manager {
    const schema: Schema
    const live: bool
    var values: Values
    var lastMtime: int
    var loadedKeys: set<Key>
    /** The configuration the version hash was computed from. */
    var hash: Values
    ghost var source: Option<Values>

    /** The hash belongs to the held values exactly when they can be hashed at all. */
    ghost predicate Valid()
      reads this
    {
      && Sound(schema) && Hashable(schema.defaults)
      && Holds(schema, live, source, values)
      && Hashable(hash) && (hash == values <==> Hashable(values))
    }

    constructor (schema: Schema, live: bool)
      requires Sound(schema) && Hashable(schema.defaults)
      ensures Valid() && this.schema == schema && this.live == live
      ensures values == schema.defaults && lastMtime == 0 && loadedKeys == {} && source == None
    {
      this.schema, this.live := schema, live;
      values, lastMtime, loadedKeys, hash, source := schema.defaults, 0, {}, schema.defaults, None;
    }

    /** Copies the differing keys of the effective configuration, one by one. */
    method Install(effective: Values) returns (changed: bool)
      requires values.Keys == effective.Keys
      modifies `values
      ensures values == effective
      ensures changed <==> old(values) != effective
    {
      changed := false;
      var done: set<Key> := {};
      while effective.Keys - done != {}
        invariant InstalledOn(old(values), effective, done, values)
        invariant changed <==> exists k :: k in done && old(values)[k] != effective[k]
        decreases effective.Keys - done
      {
        var k :| k in effective.Keys - done;
        if values[k] != effective[k] {
          changed := true;
          values := values[k := effective[k]];
        }
        done := done + {k};
      }
      InstalledAll(old(values), effective, done, values);
    }

    /** Skips a file whose modification time is not later than the recorded one, leaves
        everything as it was on a refused file, and otherwise replaces the whole effective
        configuration.  When the new values cannot be hashed the old hash stays. */
    method TryLoad(file: ConfigFile) returns (r: Reload, changed: bool)
      requires Valid()
      modifies this
      ensures Valid() && file.version == old(file.version)
      ensures r.Skipped? <==> file.version.None? || file.version.value.mtime <= old(lastMtime)
      ensures r.Rejected? || r.Escaped? ==> !LoadAccepted(schema, file.version.value.content, live)
      ensures !r.Skipped? ==> (r.Escaped? <==> Escapes(schema, file.version.value.content))
      ensures r.Skipped? || r.Rejected? || r.Escaped? ==> !changed && unchanged(this)
      ensures r.Loaded? || r.Unhashed? ==>
        && LoadAccepted(schema, file.version.value.content, live)
        && values == Effective(schema, Normalized(schema, file.version.value.content.values))
        && lastMtime == file.version.value.mtime && loadedKeys == file.version.value.content.values.Keys
      ensures r.Loaded? ==> Hashable(values) && hash == values && (changed <==> old(values) != values)
      ensures r.Unhashed? ==> !Hashable(values) && hash == old(hash) && !changed
    {
      changed := false;
      if file.version.None? || file.version.value.mtime <= lastMtime { return Skipped, false; }
      var raw, escaped := CheckContent(schema, file.version.value.content, live);
      if raw.None? { return if escaped then Escaped else Rejected, false; }
      var hashed;
      changed, hashed := Adopt(raw.value, file.version.value.mtime);
      r := if hashed then Loaded else Unhashed;
    }

    /** Installs a validated payload read at the given modification time. */
    method Adopt(raw: Values, mtime: int) returns (changed: bool, hashed: bool)
      requires Valid() && Normal(schema, raw) && Acceptable(schema, raw, live)
      modifies this
      ensures Valid()
      ensures values == Effective(schema, raw) && lastMtime == mtime && loadedKeys == raw.Keys
      ensures hashed <==> Hashable(values)
      ensures hash == if hashed then values else old(hash)
      ensures changed <==> hashed && old(values) != values
    {
      SameKeys(schema, live, source, values, raw);
      changed := Install(Effective(schema, raw));
      hashed := Settle(raw, mtime);
      changed := changed && hashed;
    }

    /** Records where the installed values come from, and hashes them if that is possible. */
    method Settle(raw: Values, mtime: int) returns (hashed: bool)
      requires Sound(schema) && Hashable(schema.defaults) && Hashable(hash)
      requires Normal(schema, raw) && Acceptable(schema, raw, live) && values == Effective(schema, raw)
      modifies `lastMtime, `loadedKeys, `hash, `source
      ensures Valid() && lastMtime == mtime && loadedKeys == raw.Keys
      ensures hashed <==> Hashable(values)
      ensures hash == if hashed then values else old(hash)
    {
      lastMtime, loadedKeys, source := mtime, raw.Keys, Some(raw);
      hashed := Rehash();
    }

    method Rehash() returns (hashed: bool)
      requires Hashable(hash)
      modifies `hash
      ensures Hashable(hash) && (hash == values <==> Hashable(values))
      ensures hashed <==> Hashable(values)
      ensures !hashed ==> hash == old(hash)
    {
      hashed := Hashable(values);
      if hashed { hash := values; }
    }

    /** Merges the overrides into the file's known keys, validates, replaces the file, and
        holds what was written. */
    method WriteOverrides(file: ConfigFile, overrides: Values, now: int) returns (r: Write)
      requires Valid()
      modifies this, file
      ensures Valid()
      ensures r.Refused? <==> !WriteAccepted(schema, CurrentContent(old(file.version)), overrides, live)
      ensures r.Refused? ==> unchanged(this) && unchanged(file)
      ensures !r.Refused? ==>
        var payload := Merged(schema, CurrentContent(old(file.version)), overrides);
        && file.version == Some(Version(Saved(payload), now))
        && values == Effective(schema, payload) && lastMtime == now && loadedKeys == payload.Keys
      ensures r.Written? ==> hash == values
      ensures r.WrittenUnhashed? ==> !Hashable(values) && hash == old(hash)
    {
      var accepted := PrepareWrite(schema, CurrentContent(file.version), overrides, live);
      if accepted.None? { return Write.Refused; }
      file.version := Some(Version(Saved(accepted.value), now));
      values := Effective(schema, accepted.value);
      var hashed := Settle(accepted.value, now);
      r := if hashed then Written else WrittenUnhashed;
    }

    /** The values and the wire hash, captured together; nothing when they cannot be encoded. */
    method CanonicalSnapshot() returns (snapshot: Option<(Values, Values)>)
      requires Valid()
      ensures snapshot.Some? <==> Hashable(values)
      ensures snapshot.Some? ==> snapshot.value.0 == values && snapshot.value.1 == hash
    {
      snapshot := if Hashable(values) then Some((values, values)) else None;
    }
  }

  predicate Newer(file: Option<Version>, recorded: int) { file.Some? && file.value.mtime > recorded }

  /** Starts a manager, which loads the file at once: where the error of that load is not
      caught there is no manager, and where it is, the manager holds the defaults. */
  method Open(schema: Schema, live: bool, file: ConfigFile) returns (manager: Manager?)
    requires Sound(schema) && Hashable(schema.defaults)
    ensures manager == null <==> Newer(file.version, 0) && Escapes(schema, file.version.value.content)
    ensures manager != null ==>
      && fresh(manager) && manager.Valid() && manager.schema == schema && manager.live == live
      && if Newer(file.version, 0) && LoadAccepted(schema, file.version.value.content, live)
         then manager.values == Effective(schema, Normalized(schema, file.version.value.content.values))
         else manager.values == schema.defaults && manager.lastMtime == 0
  {
    manager := new Manager(schema, live);
    var r, changed := manager.TryLoad(file);
    if r.Escaped? { manager := null; }
  }

  function CurrentContent(version: Option<Version>): Option<Content> {
    if version.Some? then Some(version.value.content) else None
  }

  ghost predicate InstalledOn(before: Values, effective: Values, done: set<Key>, now: Values) {
    && done <= effective.Keys && before.Keys == effective.Keys == now.Keys
    && forall k :: k in now ==> now[k] == if k in done then effective[k] else before[k]
  }

  lemma InstalledAll(before: Values, effective: Values, done: set<Key>, now: Values)
    requires InstalledOn(before, effective, done, now) && effective.Keys - done == {}
    ensures now == effective
    ensures before != effective <==> exists k :: k in done && before[k] != effective[k]
  {
    forall k | k in effective ensures k in done { assert k !in effective.Keys - done; }
  }

  /** Loading what a write left in the file gives the values the writer holds, so a reload
      after a write changes nothing even when the recorded time would let it run. */
  lemma WriteLoadsBack(schema: Schema, current: Option<Content>, overrides: Values, live: bool)
    requires WriteAccepted(schema, current, overrides, live)
    ensures LoadAccepted(schema, Saved(Merged(schema, current, overrides)), live)
    ensures Normalized(schema, Merged(schema, current, overrides)) == Merged(schema, current, overrides)
  {
    MergedIsNormal(schema, current, overrides);
  }
}
