/** Any number of processes, each with any number of threads, reloading and rewriting one
    configuration file: every interleaving of their file operations. */
module ConfigProtocol {
  import opened Config
  import opened ConfigManager
  import opened Wrappers

  /** `versions` is the history of the file, its last entry the present file; the first
      `initial` entries were there before any write.  `accepted` lists the overrides of the
      writes that replaced the file, in that order. */
  datatype File = File(initial: nat, versions: seq<Version>, accepted: seq<Values>)

  /** Where a thread is inside a reload or a write.  A version is named by its place in the
      history of the file. */
  datatype Pc =
    | Idle
    | Statted(mtime: int)
    | Read(mtime: int, version: nat)
    | Merging(payload: Values, overrides: Values)
    | Replaced(version: nat)
    | Released(version: nat)

  datatype Thread = Thread(manager: nat, pc: Pc)
  datatype Cache = Cache(live: bool, values: Values, source: Option<nat>, lastMtime: int)
  datatype World = World(file: File, lock: Option<nat>, managers: map<nat, Cache>, threads: map<nat, Thread>)

  datatype Step =
    | Stat(t: nat)
    | ReadFile(t: nat)
    | Install(t: nat)
    | Merge(t: nat, overrides: Values)
    | Replace(t: nat, now: int)
    | Unlock(t: nat)
    | Finish(t: nat)
    | Crash(t: nat)

  function Present(f: File): Option<Content> {
    if f.versions == [] then None else Some(f.versions[|f.versions| - 1].content)
  }

  function Latest(f: File): int
    requires f.versions != []
  {
    f.versions[|f.versions| - 1].mtime
  }

  predicate Running(w: World, t: nat) { t in w.threads && w.threads[t].manager in w.managers }

  function CacheOf(w: World, t: nat): Cache
    requires Running(w, t)
  {
    w.managers[w.threads[t].manager]
  }

  /** The clock that stamps replacements never runs backwards. */
  predicate Enabled(schema: Schema, w: World, s: Step) {
    && Running(w, s.t)
    && var pc := w.threads[s.t].pc;
       match s
       case Stat(t) => pc.Idle? && w.file.versions != [] && Latest(w.file) > CacheOf(w, t).lastMtime
       case ReadFile(_) => pc.Statted? && w.lock.None? && w.file.versions != []
       case Install(_) => pc.Read? && pc.version < |w.file.versions|
       case Merge(t, o) => pc.Idle? && w.lock.None? && WriteAccepted(schema, Present(w.file), o, CacheOf(w, t).live)
       case Replace(_, now) => pc.Merging? && (w.file.versions != [] ==> Latest(w.file) <= now)
       case Unlock(_) => pc.Replaced?
       case Finish(_) => pc.Released? && pc.version < |w.file.versions|
       case Crash(_) => true
  }

  function At(w: World, t: nat, pc: Pc): World
    requires Running(w, t)
  {
    w.(threads := w.threads[t := w.threads[t].(pc := pc)])
  }

  function Holding(w: World, t: nat, cache: Cache): World
    requires Running(w, t)
  {
    At(w, t, Idle).(managers := w.managers[w.threads[t].manager := cache])
  }

  function Grown(f: File, payload: Values, overrides: Values, now: int): File {
    f.(versions := f.versions + [Version(Saved(payload), now)], accepted := f.accepted + [overrides])
  }

  function Loading(schema: Schema, f: File, v: nat, mtime: int, cache: Cache): Cache
    requires v < |f.versions|
  {
    var content := f.versions[v].content;
    if LoadAccepted(schema, content, cache.live) then
      cache.(values := Effective(schema, Normalized(schema, content.values)), source := Some(v), lastMtime := mtime)
    else
      cache
  }

  function Adopting(schema: Schema, f: File, v: nat, cache: Cache): Cache
    requires v < |f.versions|
  {
    var content := f.versions[v].content;
    cache.(values := if content.Object? then Effective(schema, content.values) else schema.defaults,
           source := Some(v), lastMtime := Latest(f))
  }

  function Apply(schema: Schema, w: World, s: Step): World
    requires Enabled(schema, w, s)
  {
    var pc := w.threads[s.t].pc;
    match s
    case Stat(t) => At(w, t, Statted(Latest(w.file)))
    case ReadFile(t) => At(w, t, Read(pc.mtime, |w.file.versions| - 1))
    case Install(t) => Holding(w, t, Loading(schema, w.file, pc.version, pc.mtime, CacheOf(w, t)))
    case Merge(t, o) =>
      At(w, t, Merging(Merged(schema, Present(w.file), o), Normalized(schema, Known(schema, o)))).(lock := Some(t))
    case Replace(t, now) =>
      At(w, t, Replaced(|w.file.versions|)).(file := Grown(w.file, pc.payload, pc.overrides, now))
    case Unlock(t) => At(w, t, Released(pc.version)).(lock := None)
    case Finish(t) => Holding(w, t, Adopting(schema, w.file, pc.version, CacheOf(w, t)))
    case Crash(t) => w.(threads := w.threads - {t}, lock := if w.lock == Some(t) then None else w.lock)
  }

  // ---------------------------------------------------------------- what the file must hold

  /** Overrides applied in order, a later one winning key by key. */
  function Fold(base: Values, accepted: seq<Values>): Values {
    if accepted == [] then base else Fold(base, accepted[..|accepted| - 1]) + accepted[|accepted| - 1]
  }

  function Base(schema: Schema, f: File): Values {
    if f.initial == 0 || f.versions == [] then map[] else Existing(schema, Some(f.versions[0].content))
  }

  predicate EntryOk(schema: Schema, f: File, i: nat)
    requires i < |f.accepted| && f.initial + i < |f.versions|
  {
    var p := Fold(Base(schema, f), f.accepted[..i + 1]);
    f.versions[f.initial + i].content == Saved(p) && Normal(schema, p) && Acceptable(schema, p, false)
  }

  predicate TimesAscend(versions: seq<Version>) {
    forall i, j :: 0 <= i <= j < |versions| ==> versions[i].mtime <= versions[j].mtime
  }

  predicate HistoryOk(schema: Schema, f: File) {
    && f.initial <= 1 && |f.versions| == f.initial + |f.accepted|
    && (forall i :: 0 <= i < |f.accepted| ==> EntryOk(schema, f, i))
    && TimesAscend(f.versions)
  }

  predicate WrittenFor(schema: Schema, f: File, v: nat, live: bool) {
    && v < |f.versions| && f.versions[v].content.Object?
    && Normal(schema, f.versions[v].content.values) && Acceptable(schema, f.versions[v].content.values, live)
  }

  predicate MergeOk(schema: Schema, f: File, p: Values, o: Values, live: bool) {
    p == Fold(Base(schema, f), f.accepted) + o && Normal(schema, p) && Acceptable(schema, p, live)
  }

  predicate PcOk(schema: Schema, f: File, mine: bool, live: bool, pc: Pc) {
    match pc
    case Idle => true
    case Statted(m) => f.versions != [] && m <= Latest(f)
    case Read(m, v) => v < |f.versions| && m <= f.versions[v].mtime
    case Merging(p, o) => mine && MergeOk(schema, f, p, o, live)
    case Replaced(v) => mine && WrittenFor(schema, f, v, live)
    case Released(v) => WrittenFor(schema, f, v, live)
  }

  predicate ThreadOk(schema: Schema, w: World, t: nat) {
    Running(w, t) && PcOk(schema, w.file, w.lock == Some(t), CacheOf(w, t).live, w.threads[t].pc)
  }

  /** The cached values are the defaults, or the defaults overlaid with one version of the
      file that validates in this manager's mode. */
  predicate CacheOk(schema: Schema, f: File, cache: Cache) {
    match cache.source
    case None => cache.values == schema.defaults
    case Some(v) =>
      && v < |f.versions| && LoadAccepted(schema, f.versions[v].content, cache.live)
      && cache.values == Effective(schema, Normalized(schema, f.versions[v].content.values))
  }

  predicate Inv(schema: Schema, w: World) {
    && HistoryOk(schema, w.file)
    && (forall t :: t in w.threads ==> ThreadOk(schema, w, t))
    && (forall m :: m in w.managers ==> CacheOk(schema, w.file, w.managers[m]))
  }

  /** Any number of idle threads and managers at the defaults, beside any file or none. */
  predicate Start(schema: Schema, w: World) {
    && w.file.initial <= 1 && |w.file.versions| == w.file.initial && w.file.accepted == [] && w.lock.None?
    && (forall t :: t in w.threads ==> Running(w, t) && w.threads[t].pc.Idle?)
    && (forall m :: m in w.managers ==>
         w.managers[m].source.None? && w.managers[m].values == schema.defaults && w.managers[m].lastMtime == 0)
  }

  lemma StartIsInv(schema: Schema, w: World)
    requires Start(schema, w)
    ensures Inv(schema, w)
  {
  }

  /** What a writer reads under the lock is every accepted override so far. */
  lemma PresentIsFold(schema: Schema, f: File)
    requires HistoryOk(schema, f)
    ensures Existing(schema, Present(f)) == Fold(Base(schema, f), f.accepted)
  {
    if f.accepted != [] {
      var n := |f.accepted| - 1;
      assert EntryOk(schema, f, n);
      assert f.accepted[..n + 1] == f.accepted;
      NormalReadsBack(schema, Fold(Base(schema, f), f.accepted), Order(false, false));
    }
  }

  // ---------------------------------------------------------------- every step keeps it

  /** A thread that moves without touching the file, taking or dropping only its own lock. */
  lemma MoveKeeps(schema: Schema, w: World, t: nat, pc: Pc, lock: Option<nat>)
    requires Inv(schema, w) && Running(w, t)
    requires lock == w.lock || (lock == Some(t) && w.lock.None?) || (lock.None? && w.lock == Some(t))
    requires PcOk(schema, w.file, lock == Some(t), CacheOf(w, t).live, pc)
    ensures Inv(schema, At(w, t, pc).(lock := lock))
  {
    var w' := At(w, t, pc).(lock := lock);
    forall u | u in w'.threads ensures ThreadOk(schema, w', u) {
      assert ThreadOk(schema, w, u);
    }
  }

  /** A thread that ends its operation by giving its manager a new cache. */
  lemma HoldKeeps(schema: Schema, w: World, t: nat, cache: Cache)
    requires Inv(schema, w) && Running(w, t)
    requires cache.live == CacheOf(w, t).live && CacheOk(schema, w.file, cache)
    ensures Inv(schema, Holding(w, t, cache))
  {
    var w' := Holding(w, t, cache);
    forall u | u in w'.threads ensures ThreadOk(schema, w', u) {
      assert ThreadOk(schema, w, u);
    }
  }

  lemma CrashKeeps(schema: Schema, w: World, t: nat)
    requires Inv(schema, w) && Running(w, t)
    ensures Inv(schema, Apply(schema, w, Crash(t)))
  {
    var w' := Apply(schema, w, Crash(t));
    forall u | u in w'.threads ensures ThreadOk(schema, w', u) {
      assert ThreadOk(schema, w, u);
    }
  }

  lemma LoadingIsOk(schema: Schema, f: File, v: nat, mtime: int, cache: Cache)
    requires v < |f.versions| && CacheOk(schema, f, cache)
    ensures CacheOk(schema, f, Loading(schema, f, v, mtime, cache))
  {
  }

  lemma AdoptingIsOk(schema: Schema, f: File, v: nat, cache: Cache)
    requires WrittenFor(schema, f, v, cache.live)
    ensures CacheOk(schema, f, Adopting(schema, f, v, cache))
  {
  }

  lemma MergingIsOk(schema: Schema, f: File, o: Values, live: bool)
    requires HistoryOk(schema, f) && WriteAccepted(schema, Present(f), o, live)
    ensures MergeOk(schema, f, Merged(schema, Present(f), o), Normalized(schema, Known(schema, o)), live)
  {
    PresentIsFold(schema, f);
    MergedIsNormal(schema, Present(f), o);
  }

  // ---------------------------------------------------------------- replacing the file

  lemma BaseStays(schema: Schema, f: File, p: Values, o: Values, now: int)
    requires HistoryOk(schema, f)
    ensures Base(schema, Grown(f, p, o, now)) == Base(schema, f)
  {
  }

  lemma TimesGrow(versions: seq<Version>, v: Version)
    requires TimesAscend(versions) && (versions != [] ==> versions[|versions| - 1].mtime <= v.mtime)
    ensures TimesAscend(versions + [v])
  {
  }

  lemma OldEntryStays(schema: Schema, f: File, p: Values, o: Values, now: int, i: nat)
    requires HistoryOk(schema, f) && i < |f.accepted|
    ensures EntryOk(schema, Grown(f, p, o, now), i)
  {
    BaseStays(schema, f, p, o, now);
    assert EntryOk(schema, f, i);
    assert Grown(f, p, o, now).accepted[..i + 1] == f.accepted[..i + 1];
  }

  lemma NewEntryIsOk(schema: Schema, f: File, p: Values, o: Values, now: int, live: bool)
    requires Sound(schema) && HistoryOk(schema, f) && MergeOk(schema, f, p, o, live)
    ensures EntryOk(schema, Grown(f, p, o, now), |f.accepted|)
  {
    var g := Grown(f, p, o, now);
    BaseStays(schema, f, p, o, now);
    assert g.accepted[..|f.accepted| + 1] == g.accepted;
    assert g.accepted[..|g.accepted| - 1] == f.accepted;
  }

  lemma GrownIsOk(schema: Schema, f: File, p: Values, o: Values, now: int, live: bool)
    requires Sound(schema) && HistoryOk(schema, f) && MergeOk(schema, f, p, o, live)
    requires f.versions != [] ==> Latest(f) <= now
    ensures HistoryOk(schema, Grown(f, p, o, now))
    ensures WrittenFor(schema, Grown(f, p, o, now), |f.versions|, live)
  {
    TimesGrow(f.versions, Version(Saved(p), now));
    forall i | 0 <= i < |f.accepted| + 1 ensures EntryOk(schema, Grown(f, p, o, now), i) {
      if i < |f.accepted| { OldEntryStays(schema, f, p, o, now, i); } else { NewEntryIsOk(schema, f, p, o, now, live); }
    }
  }

  /** What another thread knows about the file survives a replacement. */
  lemma PcSurvives(schema: Schema, f: File, g: File, live: bool, pc: Pc)
    requires PcOk(schema, f, false, live, pc) && TimesAscend(g.versions)
    requires f.versions <= g.versions
    ensures PcOk(schema, g, false, live, pc)
  {
  }

  lemma ReplaceKeeps(schema: Schema, w: World, t: nat, now: int)
    requires Sound(schema) && Inv(schema, w) && Enabled(schema, w, Replace(t, now))
    ensures Inv(schema, Apply(schema, w, Replace(t, now)))
  {
    var w' := Apply(schema, w, Replace(t, now));
    var pc := w.threads[t].pc;
    assert ThreadOk(schema, w, t);
    GrownIsOk(schema, w.file, pc.payload, pc.overrides, now, CacheOf(w, t).live);
    forall u | u in w'.threads ensures ThreadOk(schema, w', u) {
      assert ThreadOk(schema, w, u);
      if u != t { PcSurvives(schema, w.file, w'.file, CacheOf(w, u).live, w.threads[u].pc); }
    }
    forall m | m in w'.managers ensures CacheOk(schema, w'.file, w'.managers[m]) {
      assert CacheOk(schema, w.file, w.managers[m]);
    }
  }

  /** Every step of every thread keeps the invariant. */
  lemma StepKeeps(schema: Schema, w: World, s: Step)
    requires Sound(schema) && Inv(schema, w) && Enabled(schema, w, s)
    ensures Inv(schema, Apply(schema, w, s))
  {
    assert ThreadOk(schema, w, s.t);
    var pc := w.threads[s.t].pc;
    match s
    case Stat(t) => MoveKeeps(schema, w, t, Statted(Latest(w.file)), w.lock);
    case ReadFile(t) => MoveKeeps(schema, w, t, Read(pc.mtime, |w.file.versions| - 1), w.lock);
    case Install(t) =>
      LoadingIsOk(schema, w.file, pc.version, pc.mtime, CacheOf(w, t));
      HoldKeeps(schema, w, t, Loading(schema, w.file, pc.version, pc.mtime, CacheOf(w, t)));
    case Merge(t, o) =>
      MergingIsOk(schema, w.file, o, CacheOf(w, t).live);
      MoveKeeps(schema, w, t, Merging(Merged(schema, Present(w.file), o), Normalized(schema, Known(schema, o))),
                Some(t));
    case Replace(t, now) => ReplaceKeeps(schema, w, t, now);
    case Unlock(t) => MoveKeeps(schema, w, t, Released(pc.version), None);
    case Finish(t) =>
      AdoptingIsOk(schema, w.file, pc.version, CacheOf(w, t));
      HoldKeeps(schema, w, t, Adopting(schema, w.file, pc.version, CacheOf(w, t)));
    case Crash(t) => CrashKeeps(schema, w, t);
  }

  // ---------------------------------------------------------------- whole runs

  /** The worlds a sequence of steps goes through. */
  ghost predicate Run(schema: Schema, ws: seq<World>, steps: seq<Step>) {
    && |ws| == |steps| + 1
    && forall i :: 0 <= i < |steps| ==> Enabled(schema, ws[i], steps[i]) && ws[i + 1] == Apply(schema, ws[i], steps[i])
  }

  lemma {:induction false} RunKeeps(schema: Schema, ws: seq<World>, steps: seq<Step>, i: nat)
    requires Sound(schema) && Run(schema, ws, steps) && Start(schema, ws[0]) && i < |ws|
    ensures Inv(schema, ws[i])
  {
    if i == 0 {
      StartIsInv(schema, ws[0]);
    } else {
      RunKeeps(schema, ws, steps, i - 1);
      StepKeeps(schema, ws[i - 1], steps[i - 1]);
    }
  }

  lemma {:induction false} FoldKeepsLast(base: Values, accepted: seq<Values>, i: nat, k: Key)
    requires LastOverride(accepted, i, k)
    ensures k in Fold(base, accepted) && Fold(base, accepted)[k] == accepted[i][k]
  {
    var n := |accepted| - 1;
    if i < n { FoldKeepsLast(base, accepted[..n], i, k); }
  }

  lemma {:induction false} FoldKeepsBase(base: Values, accepted: seq<Values>, k: Key)
    requires NeverOverridden(accepted, k)
    ensures k in Fold(base, accepted) <==> k in base
    ensures k in base ==> Fold(base, accepted)[k] == base[k]
  {
    if accepted != [] { FoldKeepsBase(base, accepted[..|accepted| - 1], k); }
  }

  predicate LastOverride(accepted: seq<Values>, i: nat, k: Key) {
    i < |accepted| && k in accepted[i] && forall j :: i < j < |accepted| ==> k !in accepted[j]
  }

  predicate NeverOverridden(accepted: seq<Values>, k: Key) { forall j :: 0 <= j < |accepted| ==> k !in accepted[j] }

  /** A key has the value of the last override that names it, or else what it had before. */
  ghost predicate LastWins(base: Values, accepted: seq<Values>, now: Values, k: Key) {
    && (forall i: nat :: LastOverride(accepted, i, k) ==> k in now && now[k] == accepted[i][k])
    && (NeverOverridden(accepted, k) ==> (k in now <==> k in base) && (k in base ==> now[k] == base[k]))
  }

  lemma FoldMeans(base: Values, accepted: seq<Values>, k: Key)
    ensures LastWins(base, accepted, Fold(base, accepted), k)
  {
    forall i: nat | LastOverride(accepted, i, k)
      ensures k in Fold(base, accepted) && Fold(base, accepted)[k] == accepted[i][k]
    {
      FoldKeepsLast(base, accepted, i, k);
    }
    if NeverOverridden(accepted, k) { FoldKeepsBase(base, accepted, k); }
  }

  /** In every run of any number of processes an accepted override stays in the file until a
      later accepted write overrides the same key; a key nobody overrides keeps the value it
      had in the initial file, and no other key appears. */
  lemma NoOverrideIsLost(schema: Schema, ws: seq<World>, steps: seq<Step>, n: nat, k: Key)
    requires Sound(schema) && Run(schema, ws, steps) && Start(schema, ws[0]) && n < |ws| && ws[n].file.accepted != []
    ensures Present(ws[n].file).Some? && Present(ws[n].file).value.Object?
    ensures LastWins(Base(schema, ws[n].file), ws[n].file.accepted, Present(ws[n].file).value.values, k)
  {
    RunKeeps(schema, ws, steps, n);
    LastEntry(schema, ws[n].file);
    FoldMeans(Base(schema, ws[n].file), ws[n].file.accepted, k);
  }

  lemma LastEntry(schema: Schema, f: File)
    requires HistoryOk(schema, f) && f.accepted != []
    ensures Present(f) == Some(Saved(Fold(Base(schema, f), f.accepted)))
  {
    assert EntryOk(schema, f, |f.accepted| - 1);
    assert f.accepted[..|f.accepted|] == f.accepted;
  }

  /** From the first accepted write on, the file always passes the check and names no
      storage-control field. */
  lemma FileStaysValid(schema: Schema, ws: seq<World>, steps: seq<Step>, n: nat)
    requires Sound(schema) && Run(schema, ws, steps) && Start(schema, ws[0]) && n < |ws|
    ensures ws[n].file.accepted != [] ==>
      && Present(ws[n].file).Some? && Present(ws[n].file).value.Object?
      && var p := Present(ws[n].file).value.values;
         && schema.Passes(Effective(schema, p), false)
         && (forall k :: k in INTERNAL_KEYS ==> k !in p)
  {
    RunKeeps(schema, ws, steps, n);
    var f := ws[n].file;
    if f.accepted != [] {
      assert EntryOk(schema, f, |f.accepted| - 1);
      var p := Present(f).value.values;
      forall k | k in INTERNAL_KEYS ensures k !in p { assert k !in p.Keys * INTERNAL_KEYS; }
    }
  }

  /** What a manager holds comes from the version of the file it names, if any. */
  ghost predicate HoldsVersion(schema: Schema, f: File, cache: Cache) {
    match cache.source
    case None => Holds(schema, cache.live, None, cache.values)
    case Some(v) =>
      && v < |f.versions| && LoadAccepted(schema, f.versions[v].content, cache.live)
      && Holds(schema, cache.live, Some(Normalized(schema, f.versions[v].content.values)), cache.values)
  }

  /** Every manager, in every reachable world, holds the defaults or the defaults overlaid
      with one validated version the file has had. */
  lemma EveryCacheHolds(schema: Schema, ws: seq<World>, steps: seq<Step>, n: nat, m: nat)
    requires Sound(schema) && Run(schema, ws, steps) && Start(schema, ws[0]) && n < |ws| && m in ws[n].managers
    ensures HoldsVersion(schema, ws[n].file, ws[n].managers[m])
  {
    RunKeeps(schema, ws, steps, n);
    var c := ws[n].managers[m];
    assert CacheOk(schema, ws[n].file, c);
    if c.source.Some? {
      var p := ws[n].file.versions[c.source.value].content.values;
      ValidationIdempotent(schema, p, c.live);
      NormalizedIsNormal(schema, p);
    }
  }

  // ---------------------------------------------------------------- recorded times

  /** The recorded time is not later than the version the manager holds. */
  predicate Fresh(f: File, cache: Cache) {
    cache.source.Some? ==> cache.source.value < |f.versions| && cache.lastMtime <= f.versions[cache.source.value].mtime
  }

  /** A writer that looks at the clock after another writer moved it. */
  predicate Raced(w: World, s: Step) {
    && s.Finish? && s.t in w.threads && w.threads[s.t].pc.Released? && w.threads[s.t].pc.version < |w.file.versions|
    && w.file.versions[w.threads[s.t].pc.version].mtime < Latest(w.file)
  }

  predicate AllFresh(w: World) { forall m :: m in w.managers ==> Fresh(w.file, w.managers[m]) }

  /** A reload never records a time later than the version it holds; a write does so exactly
      when another writer moved the clock between its unlocking and its look. */
  lemma FreshAfterIff(schema: Schema, w: World, s: Step)
    requires Inv(schema, w) && Enabled(schema, w, s) && AllFresh(w)
    ensures AllFresh(Apply(schema, w, s)) <==> !Raced(w, s)
  {
    assert ThreadOk(schema, w, s.t);
    var w' := Apply(schema, w, s);
    var id := w.threads[s.t].manager;
    if s.Finish? {
      var v := w.threads[s.t].pc.version;
      assert w.file.versions[v].mtime <= Latest(w.file);
      assert Fresh(w'.file, w'.managers[id]) <==> !Raced(w, s);
    }
    forall m | m in w'.managers && (m != id || !s.Finish?) ensures Fresh(w'.file, w'.managers[m]) {
      assert Fresh(w.file, w.managers[m]);
    }
  }

  /** With a clock that always advances, the race is exactly another replacement after ours. */
  lemma RacedMeansOvertaken(schema: Schema, w: World, t: nat)
    requires Inv(schema, w) && Enabled(schema, w, Finish(t))
    requires forall i, j :: 0 <= i < j < |w.file.versions| ==> w.file.versions[i].mtime < w.file.versions[j].mtime
    ensures Raced(w, Finish(t)) <==> w.threads[t].pc.version != |w.file.versions| - 1
  {
  }

  /** A run without such a race keeps every manager fresh. */
  lemma {:induction false} FreshRun(schema: Schema, ws: seq<World>, steps: seq<Step>, i: nat)
    requires Sound(schema) && Run(schema, ws, steps) && Start(schema, ws[0]) && i < |ws|
    requires forall j :: 0 <= j < |steps| ==> !Raced(ws[j], steps[j])
    ensures AllFresh(ws[i])
  {
    if i > 0 {
      FreshRun(schema, ws, steps, i - 1);
      RunKeeps(schema, ws, steps, i - 1);
      FreshAfterIff(schema, ws[i - 1], steps[i - 1]);
    }
  }

  /** A fresh manager whose version was overtaken by a later time is always let in to reload. */
  lemma FreshSeesUpdates(schema: Schema, w: World, t: nat)
    requires Running(w, t) && w.threads[t].pc.Idle? && Fresh(w.file, CacheOf(w, t)) && CacheOf(w, t).source.Some?
    requires w.file.versions[CacheOf(w, t).source.value].mtime < Latest(w.file)
    ensures Enabled(schema, w, Stat(t))
  {
  }

  /** After a race the manager holds an overtaken version, and no reload is let in before
      yet another replacement. */
  lemma RacedWriterIsStuck(schema: Schema, w: World, t: nat)
    requires Inv(schema, w) && Enabled(schema, w, Finish(t)) && Raced(w, Finish(t))
    ensures var w' := Apply(schema, w, Finish(t));
      && Running(w', t) && CacheOf(w', t).source == Some(w.threads[t].pc.version)
      && w.threads[t].pc.version < |w'.file.versions| - 1
      && !Enabled(schema, w', Stat(t))
  {
  }

  lemma RunExtends(schema: Schema, ws: seq<World>, steps: seq<Step>, s: Step)
    requires Run(schema, ws, steps) && Enabled(schema, ws[|ws| - 1], s)
    ensures Run(schema, ws + [Apply(schema, ws[|ws| - 1], s)], steps + [s])
  {
  }

  /** One thread writes up to the release of its lock. */
  lemma WriteUpToRelease(schema: Schema, ws: seq<World>, steps: seq<Step>, t: nat, o: Values, now: int)
      returns (more: seq<World>, all: seq<Step>)
    requires Run(schema, ws, steps) && Enabled(schema, ws[|ws| - 1], Merge(t, o))
    requires var f := ws[|ws| - 1].file; f.versions != [] ==> Latest(f) <= now
    ensures Run(schema, more, all) && ws <= more
    ensures var w, z := ws[|ws| - 1], more[|more| - 1];
      && z.lock.None? && z.managers == w.managers
           && z.threads == w.threads[t := w.threads[t].(pc := Released(|w.file.versions|))]
      && z.file.versions == w.file.versions + [Version(Saved(Merged(schema, Present(w.file), o)), now)]
  {
    more, all := ws, steps;
    RunExtends(schema, more, all, Merge(t, o));
    more, all := more + [Apply(schema, more[|more| - 1], Merge(t, o))], all + [Merge(t, o)];
    RunExtends(schema, more, all, Replace(t, now));
    more, all := more + [Apply(schema, more[|more| - 1], Replace(t, now))], all + [Replace(t, now)];
    RunExtends(schema, more, all, Unlock(t));
    more, all := more + [Apply(schema, more[|more| - 1], Unlock(t))], all + [Unlock(t)];
  }

  /** The race happens: two writers, and the first one is left behind its own file. */
  lemma RaceIsReachable(schema: Schema, w0: World, a: Values, b: Values) returns (ws: seq<World>, steps: seq<Step>)
    requires Start(schema, w0) && w0.file == File(0, [], []) && 0 in w0.threads && 1 in w0.threads
    requires !CacheOf(w0, 0).live && !CacheOf(w0, 1).live
    requires WriteAccepted(schema, None, a, false)
    requires WriteAccepted(schema, Some(Saved(Merged(schema, None, a))), b, false)
    ensures Run(schema, ws, steps) && ws[0] == w0
    ensures Enabled(schema, ws[|ws| - 1], Finish(0)) && Raced(ws[|ws| - 1], Finish(0))
  {
    var first, firstSteps := WriteUpToRelease(schema, [w0], [], 0, a, 1);
    assert Present(first[|first| - 1].file) == Some(Saved(Merged(schema, None, a)));
    ws, steps := WriteUpToRelease(schema, first, firstSteps, 1, b, 2);
  }
}
