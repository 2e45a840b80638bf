/** Entry cooldowns kept in memory and in a table that outlives the process. */
module Cooldown {
  import opened Text
  import opened Wrappers

  datatype Scope = Global | Symbol(name: string)
  datatype Entry = Entry(until: real, reason: string)

  /** An activation the manager took: cooldowns enabled, a positive duration, a symbol named. */
  datatype Activation = Activation(scope: Scope, until: real, reason: string)

  // ---------------------------------------------------------------- what a history means

  predicate Concerns(h: seq<Activation>, i: nat, scope: Scope) { i < |h| && h[i].scope == scope }

  /** The first activation of the scope to reach the scope's latest expiry. */
  ghost predicate Leads(h: seq<Activation>, i: nat, scope: Scope) {
    && Concerns(h, i, scope)
    && (forall j: nat :: Concerns(h, j, scope) ==> h[j].until <= h[i].until)
    && (forall j: nat :: Concerns(h, j, scope) && j < i ==> h[j].until < h[i].until)
  }

  ghost predicate Blocked(h: seq<Activation>, scope: Scope, now: real) {
    exists i: nat :: Concerns(h, i, scope) && h[i].until > now
  }

  /** The row of a scope is its leading activation, and a scope with an activation that
      expires later than the clock has a row. */
  ghost predicate RowOk(h: seq<Activation>, clock: real, rows: map<Scope, Entry>, scope: Scope) {
    && (scope in rows ==> exists i: nat :: Leads(h, i, scope) && rows[scope] == Entry(h[i].until, h[i].reason))
    && (forall i: nat :: Concerns(h, i, scope) && h[i].until > clock ==> scope in rows)
  }

  ghost predicate Consistent(h: seq<Activation>, clock: real, rows: map<Scope, Entry>) {
    forall scope :: RowOk(h, clock, rows, scope)
  }

  /** Symbols are stored in upper case, and never under the empty name. */
  ghost predicate Spelled(rows: map<Scope, Entry>) {
    forall s :: Symbol(s) in rows ==> s != "" && Upper(s) == s
  }

  /** Nothing expired by `now` is left. */
  ghost predicate Live(rows: map<Scope, Entry>, now: real) { forall s :: s in rows ==> rows[s].until > now }

  function Unexpired(rows: map<Scope, Entry>, now: real): map<Scope, Entry> {
    map s | s in rows && rows[s].until > now :: rows[s]
  }

  lemma PruneRow(h: seq<Activation>, clock: real, rows: map<Scope, Entry>, now: real, scope: Scope)
    requires RowOk(h, clock, rows, scope) && clock <= now
    ensures RowOk(h, now, Unexpired(rows, now), scope)
  {
    forall i: nat | Concerns(h, i, scope) && h[i].until > now ensures scope in Unexpired(rows, now) {
      var k: nat :| Leads(h, k, scope) && rows[scope] == Entry(h[k].until, h[k].reason);
    }
  }

  lemma PruneKeeps(h: seq<Activation>, clock: real, rows: map<Scope, Entry>, now: real)
    requires Consistent(h, clock, rows) && clock <= now
    ensures Consistent(h, now, Unexpired(rows, now)) && Live(Unexpired(rows, now), now)
  {
    forall scope ensures RowOk(h, now, Unexpired(rows, now), scope) {
      PruneRow(h, clock, rows, now, scope);
    }
  }

  /** The rows after an activation: a row already reaching as far stays. */
  function Raised(rows: map<Scope, Entry>, a: Activation): map<Scope, Entry> {
    if a.scope in rows && a.until <= rows[a.scope].until then rows else rows[a.scope := Entry(a.until, a.reason)]
  }

  lemma OtherRow(h: seq<Activation>, now: real, rows: map<Scope, Entry>, a: Activation, scope: Scope)
    requires RowOk(h, now, rows, scope) && a.scope != scope
    ensures RowOk(h + [a], now, Raised(rows, a), scope)
  {
    var g := h + [a];
    forall i: nat ensures Concerns(g, i, scope) <==> Concerns(h, i, scope) {}
    if scope in rows {
      var k: nat :| Leads(h, k, scope) && rows[scope] == Entry(h[k].until, h[k].reason);
      assert Leads(g, k, scope) && g[k] == h[k];
    }
  }

  lemma OwnRow(h: seq<Activation>, now: real, rows: map<Scope, Entry>, a: Activation)
    requires RowOk(h, now, rows, a.scope) && a.until > now
    ensures RowOk(h + [a], now, Raised(rows, a), a.scope)
  {
    var g, n := h + [a], |h|;
    forall i: nat | i < n ensures (Concerns(g, i, a.scope) <==> Concerns(h, i, a.scope)) && g[i] == h[i] {}
    if a.scope in rows {
      var k: nat :| Leads(h, k, a.scope) && rows[a.scope] == Entry(h[k].until, h[k].reason);
      if a.until <= h[k].until { assert Leads(g, k, a.scope); } else { assert Leads(g, n, a.scope); }
    } else {
      assert Leads(g, n, a.scope);
    }
  }

  lemma RaiseKeeps(h: seq<Activation>, now: real, rows: map<Scope, Entry>, a: Activation)
    requires Consistent(h, now, rows) && Live(rows, now) && a.until > now
    ensures Consistent(h + [a], now, Raised(rows, a)) && Live(Raised(rows, a), now)
  {
    forall scope ensures RowOk(h + [a], now, Raised(rows, a), scope) {
      assert RowOk(h, now, rows, scope);
      if scope == a.scope { OwnRow(h, now, rows, a); } else { OtherRow(h, now, rows, a, scope); }
    }
  }

  /** A pruned row is there exactly when some activation of the scope is still running. */
  lemma RowMeansBlocked(h: seq<Activation>, now: real, rows: map<Scope, Entry>, scope: Scope)
    requires Consistent(h, now, rows) && Live(rows, now)
    ensures scope in rows <==> Blocked(h, scope, now)
    ensures scope in rows ==>
      exists i: nat :: Leads(h, i, scope) && h[i].until > now && rows[scope].reason == h[i].reason
  {
    assert RowOk(h, now, rows, scope);
    if scope in rows {
      var i: nat :| Leads(h, i, scope) && rows[scope] == Entry(h[i].until, h[i].reason);
      assert rows[scope].until > now;
      assert Concerns(h, i, scope) && h[i].until > now;
    }
  }

  /** The answer of the gate, read off the history alone: refused exactly when some global or
      same-symbol activation is still running, for the reason of the leading one, global first. */
  ghost predicate Answers(h: seq<Activation>, symbol: string, now: real, allowed: bool, reason: string) {
    && (allowed <==> !Blocked(h, Global, now) && !Blocked(h, Symbol(Upper(symbol)), now))
    && (allowed ==> reason == "")
    && (Blocked(h, Global, now) ==> exists i: nat :: Leads(h, i, Global) && h[i].until > now && reason == h[i].reason)
    && (!Blocked(h, Global, now) && !allowed ==>
          exists i: nat :: Leads(h, i, Symbol(Upper(symbol))) && h[i].until > now && reason == h[i].reason)
  }

  // ---------------------------------------------------------------- whole runs

  /** What is committed to the table: a prune, or a prune followed by a row.  Looking,
      restarting, and dying between the two commits of an activation all leave a prune. */
  datatype Commit = Pruned(now: real) | Taken(now: real, a: Activation)

  function After(start: map<Scope, Entry>, run: seq<Commit>): map<Scope, Entry> {
    if run == [] then start else
      var rows := Unexpired(After(start, run[..|run| - 1]), run[|run| - 1].now);
      if run[|run| - 1].Taken? then Raised(rows, run[|run| - 1].a) else rows
  }

  function HistoryOf(run: seq<Commit>): seq<Activation> {
    if run == [] then [] else
    if run[|run| - 1].Taken? then HistoryOf(run[..|run| - 1]) + [run[|run| - 1].a] else HistoryOf(run[..|run| - 1])
  }

  predicate ClockOk(run: seq<Commit>) {
    && (forall i, j :: 0 <= i <= j < |run| ==> run[i].now <= run[j].now)
    && (forall i :: 0 <= i < |run| && run[i].Taken? ==> run[i].a.until > run[i].now)
  }

  lemma {:induction false} RunIsConsistent(run: seq<Commit>)
    requires ClockOk(run) && run != []
    ensures Consistent(HistoryOf(run), run[|run| - 1].now, After(map[], run))
      && Live(After(map[], run), run[|run| - 1].now)
  {
    var n := |run| - 1;
    var before := run[..n];
    if n > 0 { RunIsConsistent(before); }
    PruneKeeps(HistoryOf(before), if n == 0 then run[n].now else run[n - 1].now, After(map[], before), run[n].now);
    if run[n].Taken? {
      RaiseKeeps(HistoryOf(before), run[n].now, Unexpired(After(map[], before), run[n].now), run[n].a);
    }
  }

  lemma GateAnswers(h: seq<Activation>, now: real, rows: map<Scope, Entry>, symbol: string)
    requires Consistent(h, now, rows) && Live(rows, now)
    ensures Answers(h, symbol, now, Refusing(rows, symbol) !in rows, ReasonOf(rows, Refusing(rows, symbol)))
  {
    RowMeansBlocked(h, now, rows, Global);
    RowMeansBlocked(h, now, rows, Symbol(Upper(symbol)));
  }

  function Refusing(rows: map<Scope, Entry>, symbol: string): Scope {
    if Global in rows then Global else Symbol(Upper(symbol))
  }

  function ReasonOf(rows: map<Scope, Entry>, scope: Scope): string { if scope in rows then rows[scope].reason else "" }

  /** After any run with a clock that never goes back, restarted anywhere, the rows answer
      exactly as the whole history demands. */
  lemma RunAnswers(run: seq<Commit>, symbol: string)
    requires ClockOk(run) && run != []
    ensures var rows := After(map[], run);
      Answers(HistoryOf(run), symbol, run[|run| - 1].now, Refusing(rows, symbol) !in rows,
              ReasonOf(rows, Refusing(rows, symbol)))
  {
    RunIsConsistent(run);
    GateAnswers(HistoryOf(run), run[|run| - 1].now, After(map[], run), symbol);
  }

  // ---------------------------------------------------------------- the table and the manager

  /** The table, with every activation ever taken and the latest time any manager saw. */
  class Table {
    var rows: map<Scope, Entry>
    ghost var history: seq<Activation>
    ghost var clock: real

    constructor (start: real)
      ensures rows == map[] && history == [] && clock == start && Valid()
    {
      rows, history, clock := map[], [], start;
    }

    ghost predicate Valid()
      reads this
    {
      Consistent(history, clock, rows) && Spelled(rows)
    }
  }

  /** The table holds what the manager holds in memory. */
  ghost predicate Mirrors(rows: map<Scope, Entry>, global: Option<Entry>, symbols: map<string, Entry>) {
    && (Global in rows <==> global.Some?) && (global.Some? ==> rows[Global] == global.value)
    && (forall s :: Symbol(s) in rows <==> s in symbols) && (forall s :: s in symbols ==> rows[Symbol(s)] == symbols[s])
  }

  lemma MirrorsUnique(r: map<Scope, Entry>, q: map<Scope, Entry>, global: Option<Entry>, symbols: map<string, Entry>)
    requires Mirrors(r, global, symbols) && Mirrors(q, global, symbols)
    ensures r == q
  {
    forall s ensures (s in r <==> s in q) && (s in r ==> r[s] == q[s]) {
      match s
      case Global =>
      case Symbol(name) => assert Symbol(name) in r <==> name in symbols;
    }
  }

  /** What a restart has copied into memory after visiting some of the rows. */
  ghost predicate Restored(rows: map<Scope, Entry>, done: set<Scope>, global: Option<Entry>,
                           symbols: map<string, Entry>) {
    && (Global in done <==> global.Some?) && (global.Some? ==> Global in rows && rows[Global] == global.value)
    && (forall s :: Symbol(s) in done <==> s in symbols)
    && (forall s :: s in symbols ==> Symbol(s) in rows && rows[Symbol(s)] == symbols[s])
  }

  lemma RestoredAll(rows: map<Scope, Entry>, done: set<Scope>, global: Option<Entry>, symbols: map<string, Entry>)
    requires Restored(rows, done, global, symbols) && done <= rows.Keys && rows.Keys - done == {}
    ensures Mirrors(rows, global, symbols)
  {
    forall s | s in rows ensures s in done { assert s !in rows.Keys - done; }
  }

  /** The symbols among the visited ones that have expired. */
  ghost predicate Expired(symbols: map<string, Entry>, done: set<string>, now: real, expired: set<string>) {
    forall s :: s in expired <==> s in done && s in symbols && symbols[s].until <= now
  }

  lemma ExpiredAll(symbols: map<string, Entry>, done: set<string>, now: real, expired: set<string>)
    requires Expired(symbols, done, now, expired) && symbols.Keys - done == {}
    ensures forall s :: s in expired <==> s in symbols && symbols[s].until <= now
  {
    forall s | s in symbols ensures s in done { assert s !in symbols.Keys - done; }
  }

  /** The rows left by the two delete statements, committed together. */
  function Deleted(rows: map<Scope, Entry>, globalExpired: bool, expired: set<string>): map<Scope, Entry> {
    map s | s in rows && (if s.Global? then !globalExpired else s.name !in expired) :: rows[s]
  }

  lemma DeletedAreExpired(rows: map<Scope, Entry>, global: Option<Entry>, symbols: map<string, Entry>, now: real,
                          expired: set<string>)
    requires Mirrors(rows, global, symbols)
    requires forall s :: s in expired <==> s in symbols && symbols[s].until <= now
    ensures Deleted(rows, global.Some? && global.value.until <= now, expired) == Unexpired(rows, now)
  {
    forall s | s in rows
      ensures rows[s].until <= now <==> if s.Global? then global.Some? && global.value.until <= now
        else s.name in expired
    {
      match s
      case Global =>
      case Symbol(name) => assert Symbol(name) in rows <==> name in symbols;
    }
  }

  class Manager {
    const table: Table
    var global: Option<Entry>
    var symbols: map<string, Entry>

    ghost predicate Valid()
      reads this, table
    {
      table.Valid() && Mirrors(table.rows, global, symbols)
    }

    /** A restart: whatever the table holds at any moment is copied and pruned. */
    constructor (table: Table, now: real)
      requires table.Valid() && table.clock <= now
      modifies table
      ensures this.table == table && Valid() && Live(table.rows, now)
      ensures table.clock == now && table.history == old(table.history) && table.rows == Unexpired(old(table.rows), now)
    {
      this.table, global, symbols := table, None, map[];
      new;
      Restore();
      Prune(now);
    }

    method Restore()
      requires table.Valid() && global.None? && symbols == map[]
      modifies this
      ensures Valid()
    {
      var done: set<Scope> := {};
      while table.rows.Keys - done != {}
        invariant done <= table.rows.Keys && Restored(table.rows, done, global, symbols)
        decreases table.rows.Keys - done
      {
        var scope :| scope in table.rows.Keys - done;
        match scope {
          case Global => global := Some(table.rows[scope]);
          case Symbol(name) =>
            assert Upper(name) == name;
            if name != "" { symbols := symbols[Upper(name) := table.rows[scope]]; }
        }
        done := done + {scope};
      }
      RestoredAll(table.rows, done, global, symbols);
    }

    method ExpiredSymbols(now: real) returns (expired: set<string>)
      ensures forall s :: s in expired <==> s in symbols && symbols[s].until <= now
    {
      expired := {};
      var done: set<string> := {};
      while symbols.Keys - done != {}
        invariant Expired(symbols, done, now, expired)
        decreases symbols.Keys - done
      {
        var s :| s in symbols.Keys - done;
        if symbols[s].until <= now { expired := expired + {s}; }
        done := done + {s};
      }
      ExpiredAll(symbols, done, now, expired);
    }

    /** Drops exactly what has expired, from memory and from the table. */
    method Prune(now: real)
      requires Valid() && table.clock <= now
      modifies this, table
      ensures Valid() && Live(table.rows, now)
      ensures table.clock == now && table.history == old(table.history) && table.rows == Unexpired(old(table.rows), now)
    {
      var globalExpired := global.Some? && global.value.until <= now;
      if globalExpired { global := None; }
      var expired := ExpiredSymbols(now);
      symbols := symbols - expired;
      table.rows := Deleted(table.rows, globalExpired, expired);
      table.clock := now;
      DeletedAreExpired(old(table.rows), old(global), old(symbols), now, expired);
      PruneKeeps(table.history, old(table.clock), old(table.rows), now);
    }

    /** Takes the activation when cooldowns are enabled and it lasts; the row is raised only
        when it reaches further. */
    method ActivateGlobal(enabled: bool, duration: real, reason: string, now: real)
      requires Valid() && table.clock <= now
      modifies this, table
      ensures Valid()
      ensures !enabled || duration <= 0.0 ==> unchanged(this) && unchanged(table)
      ensures enabled && duration > 0.0 ==>
        && table.history == old(table.history) + [Activation(Global, now + duration, reason)] && table.clock == now
        && table.rows == Raised(Unexpired(old(table.rows), now), Activation(Global, now + duration, reason))
    {
      if !enabled || duration <= 0.0 { return; }
      Prune(now);
      var a := Activation(Global, now + duration, reason);
      RaiseKeeps(table.history, now, table.rows, a);
      if global.None? || a.until > global.value.until {
        global := Some(Entry(a.until, reason));
        table.rows := table.rows[Global := global.value];
      }
      table.history := table.history + [a];
    }

    method ActivateSymbol(enabled: bool, symbol: string, duration: real, reason: string, now: real)
      requires Valid() && table.clock <= now
      modifies this, table
      ensures Valid()
      ensures !enabled || duration <= 0.0 || symbol == "" ==> unchanged(this) && unchanged(table)
      ensures enabled && duration > 0.0 && symbol != "" ==>
        && table.history == old(table.history) + [Activation(Symbol(Upper(symbol)), now + duration, reason)]
             && table.clock == now
        && table.rows == Raised(Unexpired(old(table.rows), now),
                                Activation(Symbol(Upper(symbol)), now + duration, reason))
    {
      if !enabled || duration <= 0.0 { return; }
      var name := Upper(symbol);
      if name == "" { return; }
      Prune(now);
      var a := Activation(Symbol(name), now + duration, reason);
      RaiseKeeps(table.history, now, table.rows, a);
      UpperTwice(symbol);
      if name !in symbols || a.until > symbols[name].until {
        symbols := symbols[name := Entry(a.until, reason)];
        table.rows := table.rows[Symbol(name) := symbols[name]];
      }
      table.history := table.history + [a];
    }

    method IsGlobalActive(now: real) returns (active: bool)
      requires Valid() && table.clock <= now
      modifies this, table
      ensures Valid() && Live(table.rows, now) && table.clock == now && table.history == old(table.history)
      ensures active <==> Blocked(table.history, Global, now)
    {
      Prune(now);
      RowMeansBlocked(table.history, now, table.rows, Global);
      active := global.Some?;
    }

    method IsSymbolActive(symbol: string, now: real) returns (active: bool)
      requires Valid() && table.clock <= now
      modifies this, table
      ensures Valid() && Live(table.rows, now) && table.clock == now && table.history == old(table.history)
      ensures active <==> Blocked(table.history, Symbol(Upper(symbol)), now)
    {
      Prune(now);
      RowMeansBlocked(table.history, now, table.rows, Symbol(Upper(symbol)));
      active := Upper(symbol) in symbols;
    }

    method AllowSymbol(symbol: string, now: real) returns (allowed: bool, reason: string)
      requires Valid() && table.clock <= now
      modifies this, table
      ensures Valid() && Live(table.rows, now) && table.clock == now && table.history == old(table.history)
      ensures Answers(table.history, symbol, now, allowed, reason)
    {
      Prune(now);
      RowMeansBlocked(table.history, now, table.rows, Global);
      RowMeansBlocked(table.history, now, table.rows, Symbol(Upper(symbol)));
      if global.Some? { return false, global.value.reason; }
      if Upper(symbol) in symbols { return false, symbols[Upper(symbol)].reason; }
      return true, "";
    }

    /** Exactly the asked symbols that the gate refuses, each with the gate's reason. */
    method BlockedSymbols(asked: seq<string>, now: real) returns (blocked: map<string, string>)
      requires Valid() && table.clock <= now
      modifies this, table
      ensures Valid() && table.clock == now && table.history == old(table.history)
      ensures blocked.Keys <= set s | s in asked
      ensures forall s :: s in asked ==>
        Answers(table.history, s, now, s !in blocked, if s in blocked then blocked[s] else "")
    {
      Prune(now);
      blocked := map[];
      for i := 0 to |asked|
        invariant Valid() && table.clock == now && table.history == old(table.history)
        invariant forall s :: s in blocked ==> s in asked[..i]
        invariant forall s :: s in asked[..i] ==>
          Answers(table.history, s, now, s !in blocked, if s in blocked then blocked[s] else "")
      {
        var allowed, reason := AllowSymbol(asked[i], now);
        assert asked[..i + 1] == asked[..i] + [asked[i]];
        if !allowed { blocked := blocked[asked[i] := reason]; }
      }
      assert asked[..|asked|] == asked;
    }
  }
}
