/** Whole processes: any sequence of calls on one backup directory, stopped between any two
    file operations and followed by further processes. */
module BackupSession {
  import opened BackupSet
  import opened BackupDirectory
  import opened BackupCleanup
  import opened BackupStaging
  import opened BackupRetention
  import opened BackupPrune
  import opened BackupCreate
  import opened Wrappers

  datatype Call =
    | Create(plan: Plan, retention: int, now: int)
    | Prune(retention: int, protected: Option<ManifestFile>)
    | CleanStaging(now: int)
    | ResumeCollection

  datatype Reply = OfCreate(outcome: Outcome) | OfPrune(ok: bool) | Done

  /** Whether a call is sound in the directory it finds: a prune protects soundly, and a create
      draws an id that is not in use. */
  predicate SoundCall(d: Disk, c: Call) {
    match c
    case Create(plan, _, _) => Published(plan.setId) !in d
    case Prune(retention, protected) => SoundProtection(Completions(d), retention, protected)
    case _ => true
  }

  /** Whether it is sound in every directory without its id: always, but for a prune that keeps
      one set and names a file to protect. */
  predicate AlwaysSound(c: Call) { c.Prune? ==> c.protected.None? || c.retention >= 2 }

  lemma AlwaysSoundIsSound(d: Disk, c: Call)
    requires AlwaysSound(c) && (c.Create? ==> Published(c.plan.setId) !in d)
    ensures SoundCall(d, c)
  {
  }

  /** What a call has done by the time it returns, as a relation of the stores before and after
      it and what it returned. */
  ghost predicate Did(c: Call, s0: Store, s: Store, r: Reply) {
    match c
    case Create(plan, retention, now) =>
      r.OfCreate? && CreateDid(s0.disk, s0.acked, s.disk, s.acked, plan, retention, now, r.outcome)
    case Prune(retention, protected) =>
      && r.OfPrune? && (r.ok <==> Prunable(s0.disk, retention, protected)) && s.acked == s0.acked
      && (r.ok ==> s.disk == Pruned(s0.disk, retention, protected))
      && SameSets(s0.disk, s.disk, Superseded(Completions(s0.disk), retention, protected))
    case CleanStaging(now) => r.Done? && s == Store(Without(s0.disk, ReclaimableEntries(s0.disk, now)), s0.acked)
    case ResumeCollection => r.Done? && s == Store(Without(s0.disk, CollectableEntries(s0.disk)), s0.acked)
  }

  /** One call; a sound one takes guarded steps only. */
  method Perform(root: BackupRoot, c: Call) returns (r: Reply)
    requires root.Valid()
    modifies root
    ensures root.Valid() && Continues(old(root.trace), root.trace)
    ensures Did(c, Store(old(root.disk), old(root.acked)), Store(root.disk, root.acked), r)
    ensures SoundCall(old(root.disk), c) && Safe(Store(old(root.disk), old(root.acked))) ==>
      Cautious(old(root.trace), root.trace)
  {
    ghost var d0, t0 := root.disk, root.trace;
    match c {
      case Create(plan, retention, now) =>
        var outcome := CreateVerifiedBackupSet(root, plan, retention, now);
        r := OfCreate(outcome);
      case Prune(retention, protected) =>
        var ok := PruneCall(root, retention, protected);
        r := OfPrune(ok);
      case CleanStaging(now) =>
        CleanupAbandonedStaging(root, now);
        OnStagingOnlyIsGuarded(t0, root.trace, d0, root.acked);
        r := Done;
      case ResumeCollection =>
        CleanupInterruptedGc(root);
        OnGcOnlyIsGuarded(t0, root.trace, d0, root.acked);
        r := Done;
    }
  }

  method PruneCall(root: BackupRoot, retention: int, protected: Option<ManifestFile>) returns (ok: bool)
    requires root.Valid()
    modifies root
    ensures root.Valid() && root.acked == old(root.acked) && Continues(old(root.trace), root.trace)
    ensures (ok <==> Prunable(old(root.disk), retention, protected))
    ensures ok ==> root.disk == Pruned(old(root.disk), retention, protected)
    ensures SameSets(old(root.disk), root.disk, Superseded(Completions(old(root.disk)), retention, protected))
    ensures SoundProtection(Completions(old(root.disk)), retention, protected) ==> Cautious(old(root.trace), root.trace)
  {
    ghost var d0, t0 := root.disk, root.trace;
    ok := PruneBackupSets(root, retention, protected);
    assert root.trace.stores[|root.trace.ops|].disk == root.disk;
    if SoundProtection(Completions(d0), retention, protected) {
      SoundPruneIsGuarded(t0, root.trace, d0, root.acked, retention, protected);
    }
  }

  // ---------------------------------------------------------------- one process

  /** A process's trace, where in it each call began and the last one ended, and the replies. */
  datatype Log = Log(trace: Trace, marks: seq<nat>, replies: seq<Reply>)

  ghost predicate Marked(l: Log) {
    && ValidTrace(l.trace) && WellFormedTrace(l.trace) && |l.marks| == |l.replies| + 1
    && l.marks[0] == 0 && l.marks[|l.replies|] == |l.trace.ops|
    && (forall i :: 0 <= i < |l.marks| ==> l.marks[i] < |l.trace.stores|)
    && (forall i, j :: 0 <= i <= j < |l.marks| ==> l.marks[i] <= l.marks[j])
  }

  function StoreAt(l: Log, i: nat): Store
    requires i < |l.marks| && l.marks[i] < |l.trace.stores|
  {
    l.trace.stores[l.marks[i]]
  }

  /** The log of a process that makes these calls in this order. */
  ghost predicate Logs(l: Log, calls: seq<Call>) {
    Marked(l) && |l.replies| == |calls| && forall i :: 0 <= i < |calls| ==> LogsAt(l, calls, i)
  }

  ghost predicate LogsAt(l: Log, calls: seq<Call>, i: nat)
    requires Marked(l) && |l.replies| == |calls| && i < |calls|
  {
    Did(calls[i], StoreAt(l, i), StoreAt(l, i + 1), l.replies[i])
  }

  ghost predicate SoundLog(l: Log, calls: seq<Call>) {
    Logs(l, calls) && forall i :: 0 <= i < |calls| ==> SoundCall(StoreAt(l, i).disk, calls[i])
  }

  lemma LogGrows(l: Log, calls: seq<Call>, c: Call, t: Trace, r: Reply)
    requires Logs(l, calls) && ValidTrace(t) && WellFormedTrace(t) && Continues(l.trace, t)
    requires Did(c, l.trace.stores[|l.trace.ops|], t.stores[|t.ops|], r)
    ensures var m := Log(t, l.marks + [|t.ops|], l.replies + [r]);
      && Logs(m, calls + [c])
      && (SoundLog(m, calls + [c]) <==> SoundLog(l, calls) && SoundCall(l.trace.stores[|l.trace.ops|].disk, c))
  {
    var m, more := Log(t, l.marks + [|t.ops|], l.replies + [r]), calls + [c];
    assert Marked(m);
    forall i | 0 <= i <= |calls| ensures StoreAt(m, i) == StoreAt(l, i) {}
    forall i | 0 <= i < |more| ensures LogsAt(m, more, i) {
      if i < |calls| { assert LogsAt(l, calls, i); }
    }
    forall i | 0 <= i < |calls| ensures more[i] == calls[i] {}
    assert more[|calls|] == c;
  }

  /** The calls of one process. It takes guarded steps only if every call is sound in the
      directory it finds. */
  method RunProcess(start: Store, calls: seq<Call>) returns (log: Log, sound: bool)
    requires WellFormedDisk(start.disk)
    ensures Logs(log, calls) && log.trace.stores[0] == start
    ensures sound <==> SoundLog(log, calls)
    ensures sound ==> CautiousRun(log.trace)
  {
    var root := new BackupRoot(start.disk, start.acked);
    log, sound := Log(root.trace, [0], []), true;
    for i := 0 to |calls|
      invariant root.Valid() && log.trace == root.trace && root.trace.stores[0] == start
      invariant Logs(log, calls[..i]) && (sound <==> SoundLog(log, calls[..i]))
      invariant sound && Safe(start) ==> GuardedFrom(root.trace, 0)
    {
      var fine;
      log, fine := PerformNext(root, log, calls[..i], calls[i], start, sound);
      sound := sound && fine;
      assert calls[..i + 1] == calls[..i] + [calls[i]];
    }
    assert calls[..|calls|] == calls;
  }

  method PerformNext(root: BackupRoot, log: Log, ghost calls: seq<Call>, c: Call, ghost start: Store, ghost sound: bool)
      returns (next: Log, fine: bool)
    requires root.Valid() && log.trace == root.trace && root.trace.stores[0] == start && Logs(log, calls)
    requires sound && Safe(start) ==> GuardedFrom(root.trace, 0)
    modifies root
    ensures root.Valid() && next.trace == root.trace && root.trace.stores[0] == start && Logs(next, calls + [c])
    ensures SoundLog(next, calls + [c]) <==> SoundLog(log, calls) && fine
    ensures sound && fine && Safe(start) ==> GuardedFrom(root.trace, 0)
  {
    ghost var t1 := root.trace;
    if sound && Safe(start) { TraceStaysSafe(t1, 0, |t1.ops|); }
    fine := SoundCall(root.disk, c);
    var r := Perform(root, c);
    LogGrows(log, calls, c, root.trace, r);
    if sound && fine && Safe(start) { StaysGuarded(t1, root.trace); }
    next := Log(root.trace, log.marks + [|root.trace.ops|], log.replies + [r]);
  }

  lemma StaysGuarded(t1: Trace, t2: Trace)
    requires |t1.stores| == |t1.ops| + 1 && GuardedFrom(t1, 0) && Cautious(t1, t2)
    ensures GuardedFrom(t2, 0)
  {
    forall k | 0 <= k < |t2.ops| ensures GuardAt(t2, k) {
      if k < |t1.ops| { assert GuardAt(t1, k); }
    }
  }

  /** A broken published directory is still there, as it was, when a later call begins or the
      process ends, unless a create draws its id. */
  lemma {:induction false} BrokenIsForEver(l: Log, calls: seq<Call>, i: nat, j: nat, id: string)
    requires Logs(l, calls) && i <= j <= |calls|
    requires Published(id) in StoreAt(l, i).disk && !Verified(StoreAt(l, i).disk, id)
    requires forall n :: i <= n < j ==> !(calls[n].Create? && calls[n].plan.setId == id)
    ensures Published(id) in StoreAt(l, j).disk
      && StoreAt(l, j).disk[Published(id)] == StoreAt(l, i).disk[Published(id)]
    decreases j
  {
    if i < j {
      BrokenIsForEver(l, calls, i, j - 1, id);
      assert LogsAt(l, calls, j - 1);
      CallLeavesBroken(calls[j - 1], StoreAt(l, j - 1), StoreAt(l, j), l.replies[j - 1], id);
    }
  }

  lemma CallLeavesBroken(c: Call, s0: Store, s: Store, r: Reply, id: string)
    requires Did(c, s0, s, r) && !(c.Create? && c.plan.setId == id)
    ensures BrokenStays(s0.disk, s.disk, id)
  {
    match c
    case Create(plan, retention, now) =>
    case Prune(retention, protected) => CompletionsAt(s0.disk, id);
    case CleanStaging(now) =>
    case ResumeCollection =>
  }

  // ---------------------------------------------------------------- chains of processes

  function Stopped(t: Trace, after: nat): Store
    requires t.stores != []
  {
    if after < |t.stores| then t.stores[after] else t.stores[|t.stores| - 1]
  }

  /** Process `i` made its calls from the start, or from what the process before it left. */
  ghost predicate LinkAt(start: Store, logs: seq<Log>, processes: seq<seq<Call>>, stops: seq<nat>, i: nat)
    requires i < |logs| <= |processes| && |logs| <= |stops|
  {
    && Logs(logs[i], processes[i])
    && if i == 0 then logs[i].trace.stores[0] == start
       else logs[i - 1].trace.stores != [] && logs[i].trace.stores[0] == Stopped(logs[i - 1].trace, stops[i - 1])
  }

  ghost predicate Linked(start: Store, logs: seq<Log>, processes: seq<seq<Call>>, stops: seq<nat>) {
    && |logs| <= |processes| && |logs| <= |stops|
    && forall i :: 0 <= i < |logs| ==> LinkAt(start, logs, processes, stops, i)
  }

  ghost predicate AllSound(logs: seq<Log>, processes: seq<seq<Call>>)
    requires |logs| <= |processes|
  {
    forall i :: 0 <= i < |logs| ==> SoundLog(logs[i], processes[i])
  }

  ghost predicate AllSafe(logs: seq<Log>) {
    forall i, k :: 0 <= i < |logs| && 0 <= k < |logs[i].trace.stores| ==> Safe(logs[i].trace.stores[k])
  }

  /** Survival over every run. Processes make any calls, each stops after any number of file
      operations, and the next one starts from whatever is left. If every call is sound in
      the directory it finds, every state any of them goes through is safe. */
  method RunProcesses(start: Store, processes: seq<seq<Call>>, stops: seq<nat>) returns (logs: seq<Log>, sound: bool)
    requires WellFormedDisk(start.disk) && |stops| == |processes|
    ensures |logs| == |processes| && Linked(start, logs, processes, stops)
    ensures sound <==> AllSound(logs, processes)
    ensures sound && Safe(start) ==> AllSafe(logs)
  {
    logs, sound := [], true;
    var here := start;
    for n := 0 to |processes|
      invariant |logs| == n && WellFormedDisk(here.disk) && Linked(start, logs, processes, stops)
      invariant (sound <==> AllSound(logs, processes)) && (sound ==> AllCautious(logs))
      invariant n == 0 ==> here == start
      invariant n > 0 ==> logs[n - 1].trace.stores != [] && here == Stopped(logs[n - 1].trace, stops[n - 1])
    {
      var log, fine := RunProcess(here, processes[n]);
      LinksGrow(start, logs, processes, stops, log);
      SoundGrows(logs, processes, log);
      logs, sound := logs + [log], sound && fine;
      here := Stopped(log.trace, stops[n]);
      StoppedIsWellFormed(log.trace, stops[n]);
    }
    if sound && Safe(start) { ChainIsSafe(start, logs, processes, stops); }
  }

  lemma StoppedIsWellFormed(t: Trace, after: nat)
    requires WellFormedTrace(t) && t.stores != []
    ensures WellFormedDisk(Stopped(t, after).disk)
  {
    assert WellFormedAt(t, if after < |t.stores| then after else |t.stores| - 1);
  }

  lemma LinksGrow(start: Store, logs: seq<Log>, processes: seq<seq<Call>>, stops: seq<nat>, log: Log)
    requires Linked(start, logs, processes, stops) && |logs| < |processes| == |stops|
    requires LinkAt(start, logs + [log], processes, stops, |logs|)
    ensures Linked(start, logs + [log], processes, stops)
  {
    var more := logs + [log];
    forall i | 0 <= i < |more| ensures LinkAt(start, more, processes, stops, i) {
      if i < |logs| { assert LinkAt(start, logs, processes, stops, i); }
    }
  }

  lemma SoundGrows(logs: seq<Log>, processes: seq<seq<Call>>, log: Log)
    requires |logs| < |processes|
    ensures AllSound(logs + [log], processes) <==> AllSound(logs, processes) && SoundLog(log, processes[|logs|])
    ensures AllCautious(logs + [log]) <==> AllCautious(logs) && CautiousRun(log.trace)
  {
    var more := logs + [log];
    forall i | 0 <= i < |logs| ensures more[i] == logs[i] {}
    assert more[|logs|] == log;
  }

  ghost predicate AllCautious(logs: seq<Log>) { forall i :: 0 <= i < |logs| ==> CautiousRun(logs[i].trace) }

  function Traces(logs: seq<Log>): seq<Trace> { seq(|logs|, i requires 0 <= i < |logs| => logs[i].trace) }

  lemma ChainIsSafe(start: Store, logs: seq<Log>, processes: seq<seq<Call>>, stops: seq<nat>)
    requires Linked(start, logs, processes, stops) && Safe(start) && AllCautious(logs)
    ensures AllSafe(logs)
  {
    var runs := Traces(logs);
    assert CrashChain(runs) by {
      forall i | 0 < i < |runs| ensures runs[i].stores[0] in runs[i - 1].stores {
        assert LinkAt(start, logs, processes, stops, i) && CautiousRun(logs[i].trace);
      }
    }
    if logs != [] { assert LinkAt(start, logs, processes, stops, 0); }
    forall i, k | 0 <= i < |logs| && 0 <= k < |logs[i].trace.stores| ensures Safe(logs[i].trace.stores[k]) {
      EveryCrashKeepsAVerifiedSet(runs, i, k);
    }
  }

  /** The process got through its call `j`, a create that returned a set, before it stopped. */
  ghost predicate Returned(log: Log, stop: nat, j: nat)
    requires Marked(log)
  {
    && j < |log.replies| && log.replies[j].OfCreate? && log.replies[j].outcome.Created? && log.marks[j + 1] <= stop
  }

  lemma {:induction false} AckedLater(start: Store, logs: seq<Log>, processes: seq<seq<Call>>, stops: seq<nat>, i: nat,
                                      m: nat, n: nat, k: nat)
    requires Linked(start, logs, processes, stops) && i <= n < |logs| && m < |logs[i].trace.stores| && m <= stops[i]
    requires logs[i].trace.stores[m].acked && k < |logs[n].trace.stores| && (n == i ==> m <= k)
    ensures logs[n].trace.stores[k].acked
    decreases n
  {
    assert LinkAt(start, logs, processes, stops, n);
    if n == i {
      AcknowledgementPersists(logs[i].trace, m, k);
    } else {
      var last := |logs[n - 1].trace.stores| - 1;
      AckedLater(start, logs, processes, stops, i, m, n - 1, if stops[n - 1] < last then stops[n - 1] else last);
      AcknowledgementPersists(logs[n].trace, 0, k);
    }
  }

  /** Once a create call has returned, every state the same process reaches after it, and every
      state of every later process, holds a published set that verifies. */
  lemma ReturnedCreateSurvives(start: Store, logs: seq<Log>, processes: seq<seq<Call>>, stops: seq<nat>, i: nat, j: nat,
                               n: nat, k: nat)
    requires Linked(start, logs, processes, stops) && AllSafe(logs) && i <= n < |logs| && Marked(logs[i])
    requires k < |logs[n].trace.stores| && Returned(logs[i], stops[i], j) && (n == i ==> logs[i].marks[j + 1] <= k)
    ensures HasVerified(logs[n].trace.stores[k].disk)
  {
    assert LinkAt(start, logs, processes, stops, i);
    assert LogsAt(logs[i], processes[i], j);
    AckedLater(start, logs, processes, stops, i, logs[i].marks[j + 1], n, k);
    assert Safe(logs[n].trace.stores[k]);
  }
}
