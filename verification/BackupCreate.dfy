/** Creating a complete backup set: stage, verify, publish by one rename, prune, and on
    any exception scrap what was staged or published. */
module BackupCreate {
  import opened BackupSet
  import opened BackupDirectory
  import opened BackupCleanup
  import opened BackupStaging
  import opened BackupRetention
  import opened BackupPrune
  import opened Wrappers

  /** One write of the staged copy: a file or directory put in place, a temporary file
      moved to its final name, or a leftover erased. */
  datatype StageStep =
    | Write(path: Path, node: Node)
    | Replace(source: Path, target: Path)
    | Erase(path: Path)

  /** What the environment decides about one create call: the names drawn, the bytes
      copied, and where, if anywhere, an exception is raised; after the last step that is the
      publishing rename. */
  datatype Plan = Plan(
    uuid: string,
    setId: string,
    marker: Blob,
    markerSize: nat,
    markerTime: int,
    markerWritten: bool,
    steps: seq<StageStep>,
    raiseAt: Option<nat>,
    withinBudget: bool,
    failAfterPublish: bool)

  /** `Clashed` is the failure of a call that drew the id of a set already published. */
  datatype Outcome = Refused | Failed | Clashed | Created(id: string)

  function AsOp(u: string, s: StageStep): Op {
    match s
    case Write(p, n) => Put(u, p, n)
    case Replace(p, q) => Move(u, p, q)
    case Erase(p) => Drop(Staging(u), p)
  }

  // ---------------------------------------------------------------- traces of one entry

  /** `t` continues `t0` by steps that leave everything but entry `e` alone. */
  ghost predicate OnEntry(t0: Trace, t: Trace, d0: Disk, wasAcked: bool, e: Entry) {
    && t0.stores <= t.stores && t0.ops <= t.ops
    && |t.stores| == |t.ops| + 1
    && (forall k :: |t0.ops| <= k < |t.ops| ==> StepOn(t.ops[k], e))
    && (forall k :: |t0.ops| <= k < |t.stores| ==>
          t.stores[k].disk - {e} == d0 - {e} && t.stores[k].acked == wasAcked)
  }

  predicate StepOn(op: Op, e: Entry) {
    match op
    case Put(u, _, _) => e == Staging(u)
    case Move(u, _, _) => e == Staging(u)
    case Stage(u) => e == Staging(u)
    case Drop(x, _) => x == e
    case RemoveEntry(x) => x == e
    case _ => false
  }

  lemma BesideElsewhere(d0: Disk, d: Disk, id: string)
    requires d - {Published(id)} == d0 - {Published(id)} && VerifiedBeside(d0, id)
    ensures VerifiedBeside(d, id)
  {
    var other :| other != id && Verified(d0, other);
    assert Published(other) in d0 - {Published(id)};
    assert (d - {Published(id)})[Published(other)] == d0[Published(other)];
    assert Verified(d, other);
  }

  lemma OnEntryIsGuarded(t0: Trace, t: Trace, d0: Disk, wasAcked: bool, e: Entry)
    requires OnEntry(t0, t, d0, wasAcked, e)
    requires e.Published? && wasAcked ==> VerifiedBeside(d0, e.id)
    ensures GuardedFrom(t, |t0.ops|)
  {
    forall k | |t0.ops| <= k < |t.ops|
      ensures GuardAt(t, k)
    {
      assert StepOn(t.ops[k], e);
      if e.Published? && wasAcked { BesideElsewhere(d0, t.stores[k].disk, e.id); }
    }
  }

  lemma OnEntryExtends(t0: Trace, t: Trace, d0: Disk, wasAcked: bool, e: Entry, op: Op, d: Disk)
    requires OnEntry(t0, t, d0, wasAcked, e) && StepOn(op, e) && d - {e} == d0 - {e}
    ensures OnEntry(t0, Extend(t, op, Store(d, wasAcked)), d0, wasAcked, e)
  {
  }

  lemma OnEntryDrops(t0: Trace, t1: Trace, t2: Trace, d0: Disk, d1: Disk, wasAcked: bool, e: Entry, m: Part)
    requires OnEntry(t0, t1, d0, wasAcked, e) && e in d1 && d1 - {e} == d0 - {e}
    requires Dropping(t1, t2, d1, wasAcked, e, m)
    ensures OnEntry(t0, t2, d0, wasAcked, e)
  {
    forall k | |t1.ops| <= k < |t2.stores|
      ensures t2.stores[k].disk - {e} == d0 - {e}
    {
      var d := t2.stores[k].disk;
      assert ShrunkAt(d1, d, e, m);
      assert d1[e := d[e]] - {e} == d1 - {e};
    }
  }

  lemma StepStaysOnEntry(s: Store, op: Op, e: Entry)
    requires Enabled(s, op) && StepOn(op, e)
    ensures Apply(s, op).disk - {e} == s.disk - {e} && Apply(s, op).acked == s.acked
  {
  }

  lemma SameElsewhere(d0: Disk, d: Disk, id: string)
    requires d - {Published(id)} == d0 - {Published(id)}
    ensures SameSets(d0, d, {id})
  {
    forall o | o != id
      ensures (Published(o) in d <==> Published(o) in d0) && (Published(o) in d ==> d[Published(o)] == d0[Published(o)])
    {
      assert Published(o) in d <==> Published(o) in d - {Published(id)};
      assert Published(o) in d0 <==> Published(o) in d0 - {Published(id)};
      assert Published(o) in d ==> (d - {Published(id)})[Published(o)] == d[Published(o)];
    }
  }

  lemma StagingElsewhere(d0: Disk, d: Disk, u: string)
    requires d - {Staging(u)} == d0 - {Staging(u)}
    ensures SameSets(d0, d, {})
  {
    forall o: string
      ensures (Published(o) in d <==> Published(o) in d0) && (Published(o) in d ==> d[Published(o)] == d0[Published(o)])
    {
      assert Published(o) in d <==> Published(o) in d - {Staging(u)};
      assert Published(o) in d0 <==> Published(o) in d0 - {Staging(u)};
      assert Published(o) in d ==> (d - {Staging(u)})[Published(o)] == d[Published(o)];
    }
  }

  // ---------------------------------------------------------------- guarded composition

  lemma GuardedContinues(t0: Trace, t1: Trace, t2: Trace)
    requires |t1.stores| == |t1.ops| + 1 && |t2.stores| == |t2.ops| + 1
    requires t1.stores <= t2.stores && t1.ops <= t2.ops && |t0.ops| <= |t1.ops|
    requires GuardedFrom(t1, |t0.ops|) && GuardedFrom(t2, |t1.ops|)
    ensures GuardedFrom(t2, |t0.ops|)
  {
    forall k | |t0.ops| <= k < |t2.ops|
      ensures GuardAt(t2, k)
    {
      if k < |t1.ops| { assert GuardAt(t1, k); } else { assert GuardAt(t2, k); }
    }
  }

  // ---------------------------------------------------------------- staging and scrapping

  method DoOn(root: BackupRoot, op: Op, e: Entry, ghost d0: Disk, ghost from: Trace)
    requires root.Valid() && Enabled(Store(root.disk, root.acked), op) && StepOn(op, e)
    requires OnEntry(from, root.trace, d0, root.acked, e) && root.disk - {e} == d0 - {e}
    modifies root
    ensures root.Valid() && root.acked == old(root.acked) && root.disk - {e} == d0 - {e}
    ensures Store(root.disk, root.acked) == Apply(Store(old(root.disk), old(root.acked)), op)
    ensures OnEntry(from, root.trace, d0, root.acked, e)
  {
    StepStaysOnEntry(Store(root.disk, root.acked), op, e);
    ghost var s := Apply(Store(root.disk, root.acked), op);
    OnEntryExtends(from, root.trace, d0, root.acked, e, op, s.disk);
    root.Do(op);
  }

  /** Carries out the copy; an exception is raised where the plan says so or where the
      operating system refuses a step. */
  method RunSteps(root: BackupRoot, plan: Plan, ghost d0: Disk, ghost from: Trace) returns (ok: bool)
    requires root.Valid() && Staging(plan.uuid) in root.disk
    requires OnEntry(from, root.trace, d0, root.acked, Staging(plan.uuid))
      && root.disk - {Staging(plan.uuid)} == d0 - {Staging(plan.uuid)}
    modifies root
    ensures root.Valid() && root.acked == old(root.acked) && Staging(plan.uuid) in root.disk
    ensures root.disk - {Staging(plan.uuid)} == d0 - {Staging(plan.uuid)}
    ensures OnEntry(from, root.trace, d0, root.acked, Staging(plan.uuid))
  {
    ok := true;
    var i := 0;
    while i < |plan.steps| && ok
      invariant 0 <= i <= |plan.steps|
      invariant root.Valid() && root.acked == old(root.acked) && Staging(plan.uuid) in root.disk
      invariant root.disk - {Staging(plan.uuid)} == d0 - {Staging(plan.uuid)}
      invariant OnEntry(from, root.trace, d0, root.acked, Staging(plan.uuid))
      decreases |plan.steps| - i, ok
    {
      var op := AsOp(plan.uuid, plan.steps[i]);
      if plan.raiseAt == Some(i) || !Enabled(Store(root.disk, false), op) {
        ok := false;
      } else {
        DoOn(root, op, Staging(plan.uuid), d0, from);
        i := i + 1;
      }
    }
  }

  method ScrapMember(root: BackupRoot, e: Entry, m: Part, ghost pending: set<Part>, ghost d0: Disk, ghost from: Trace)
      returns (ok: bool)
    requires root.Valid() && e in root.disk && m in pending && Covers(pending, root.disk[e])
    requires OnEntry(from, root.trace, d0, root.acked, e) && root.disk - {e} == d0 - {e}
    modifies root
    ensures root.Valid() && root.acked == old(root.acked) && e in root.disk && root.disk - {e} == d0 - {e}
    ensures OnEntry(from, root.trace, d0, root.acked, e)
    ensures ok ==> Covers(pending - {m}, root.disk[e])
    ensures Owned(old(root.disk)[e]) ==> ok && Owned(root.disk[e])
  {
    ghost var d1, t1 := root.disk, root.trace;
    if Owned(root.disk[e]) { OwnedMember(root.disk[e], m); }
    CoversStep(pending, root.disk[e], m);
    ok := root.RemoveMember(e, m);
    OnEntryDrops(from, t1, root.trace, d0, d1, root.acked, e, m);
    assert root.disk - {e} == d1 - {e};
  }

  /** The exception path: members in any order, then the directory; it stops early at a
      directory that is not an owned Rust container. */
  method Scrap(root: BackupRoot, e: Entry, ghost d0: Disk, ghost from: Trace)
    requires root.Valid() && e in root.disk
    requires OnEntry(from, root.trace, d0, root.acked, e) && root.disk - {e} == d0 - {e}
    modifies root
    ensures root.Valid() && root.acked == old(root.acked) && root.disk - {e} == d0 - {e}
    ensures OnEntry(from, root.trace, d0, root.acked, e)
    ensures Owned(old(root.disk)[e]) ==> e !in root.disk
  {
    var pending := Heads(root.disk[e]);
    ghost var owned := Owned(root.disk[e]);
    assert WellFormed(root.disk[e]) by { assert WellFormedAt(root.trace, |root.trace.ops|); }
    HeadsCover(root.disk[e]);
    while pending != {}
      invariant root.Valid() && root.acked == old(root.acked) && e in root.disk && root.disk - {e} == d0 - {e}
      invariant Covers(pending, root.disk[e]) && (owned ==> Owned(root.disk[e]))
      invariant OnEntry(from, root.trace, d0, root.acked, e)
      decreases pending
    {
      var m :| m in pending;
      var ok := ScrapMember(root, e, m, pending, d0, from);
      if !ok { return; }
      pending := pending - {m};
    }
    assert root.disk[e] == map[];
    assert root.disk - {e} - {e} == root.disk - {e};
    DoOn(root, RemoveEntry(e), e, d0, from);
  }

  /** An owned member can be removed, and leaves an owned tree. */
  lemma OwnedMember(t: Tree, m: Part)
    requires Owned(t) && [m] in t
    ensures t[[m]].File? || (m == RustRecovery && RustOwned(t))
    ensures Owned(WithoutHeads(t, {m}))
  {
    assert |[m]| == 1;
    OwnedShrinks(WithoutHeads(t, {m}), t);
  }

  ghost predicate Covers(heads: set<Part>, t: Tree) {
    && (forall m :: m in heads ==> [m] in t)
    && (forall p :: p in t ==> p != [] && p[0] in heads)
  }

  lemma HeadsCover(t: Tree)
    requires WellFormed(t)
    ensures Covers(Heads(t), t)
  {
    forall m | m in Heads(t) ensures [m] in t { HeadIsPath(t, m); }
    forall p | p in t
      ensures p != [] && p[0] in Heads(t)
    {
      HeadPresent(t, p);
      assert [p[0]] in t && |[p[0]]| == 1;
    }
  }

  lemma CoversStep(heads: set<Part>, t: Tree, m: Part)
    requires Covers(heads, t) && m in heads
    ensures [m] in t && Covers(heads - {m}, WithoutHeads(t, {m}))
  {
  }

  // ---------------------------------------------------------------- the create call

  /** Leftovers that no cleanup at time `now` can finish. */
  ghost predicate Stuck(d: Disk, now: int) {
    || (exists e :: e in StagingEntries(d) && !Reclaimable(d[e], now))
    || (exists e :: e in GcEntries(d) && !Collectable(d, e))
  }

  ghost predicate Continues(t0: Trace, t: Trace) {
    t0.stores <= t.stores && t0.ops <= t.ops && |t.stores| == |t.ops| + 1
  }

  /** Retiring a verified set that is not wholly owned blocks every later create call: what
      the rename leaves can never be collected. */
  lemma UnownedSetBlocksForever(d: Disk, id: string, now: int)
    requires Verified(d, id) && Gc(id) !in d && !Owned(d[Published(id)])
    ensures Stuck(Renamed(d, id), now)
  {
    var r := Renamed(d, id);
    assert Gc(id) in GcEntries(r) && r[Gc(id)] == d[Published(id)];
    assert [Marker] in r[Gc(id)];
    assert !Collectable(r, Gc(id));
  }

  /** The crash points of a create call that a later one can clear, while it stages in a
      directory it found clear: those with nothing staged yet or any more, and those whose
      marker is written and whose members are all on the allow-list. Between `mkdir` and the
      marker, and once scrapping has removed the marker, the leftover blocks for ever. */
  lemma CreateCrashPoints(t0: Trace, t: Trace, d0: Disk, wasAcked: bool, u: string, k: nat)
    requires OnEntry(t0, t, d0, wasAcked, Staging(u)) && |t0.ops| <= k < |t.stores|
    requires StagingEntries(d0) == {} && GcEntries(d0) == {}
    ensures var d := t.stores[k].disk;
      (exists now :: !Stuck(d, now)) <==> Staging(u) !in d || (HasMarker(d[Staging(u)]) && Owned(d[Staging(u)]))
  {
    StagedLeftoverIff(d0, t.stores[k].disk, u);
  }

  lemma StagedLeftoverIff(d0: Disk, d: Disk, u: string)
    requires d - {Staging(u)} == d0 - {Staging(u)} && StagingEntries(d0) == {} && GcEntries(d0) == {}
    ensures (exists now :: !Stuck(d, now)) <==> Staging(u) !in d || (HasMarker(d[Staging(u)]) && Owned(d[Staging(u)]))
  {
    forall e | e in d && e != Staging(u) ensures !e.Staging? && !e.Gc? {
      assert e in d - {Staging(u)};
      assert e in d0;
      assert e !in StagingEntries(d0) && e !in GcEntries(d0);
    }
    if Staging(u) !in d {
      assert !Stuck(d, 0);
    } else {
      EventuallyReclaimableIff(d[Staging(u)]);
      forall now ensures Stuck(d, now) <==> !Reclaimable(d[Staging(u)], now) {
        assert Staging(u) in StagingEntries(d);
      }
    }
  }

  /** `t` continues `t0` and every step it adds is guarded. */
  ghost predicate Cautious(t0: Trace, t: Trace) { Continues(t0, t) && GuardedFrom(t, |t0.ops|) }

  lemma CautiousContinues(t0: Trace, t1: Trace, t2: Trace)
    requires Cautious(t0, t1) && Cautious(t1, t2)
    ensures Cautious(t0, t2)
  {
    GuardedContinues(t0, t1, t2);
  }

  ghost function Cleared(d: Disk, now: int): Disk {
    var d1 := Without(d, ReclaimableEntries(d, now));
    Without(d1, CollectableEntries(d1))
  }

  lemma ClearedIff(d: Disk, now: int)
    ensures StagingEntries(Cleared(d, now)) == {} && GcEntries(Cleared(d, now)) == {} <==> !Stuck(d, now)
    ensures SameSets(d, Cleared(d, now), {})
  {
    var d1 := Without(d, ReclaimableEntries(d, now));
    var d2 := Cleared(d, now);
    AfterStaging(d, now);
    AfterCleanup(d1);
    NonGcSame(d1, d2, {});
    SameSetsCompose(d, d1, d2, {}, {});
    assert StagingEntries(d2) == StagingEntries(d1);
    forall e | e in GcEntries(d)
      ensures Collectable(d1, e) <==> Collectable(d, e)
    {
    }
  }

  /** The two cleanups every create call begins with. */
  method ClearLeftovers(root: BackupRoot, now: int)
    requires root.Valid()
    modifies root
    ensures root.Valid() && root.acked == old(root.acked) && Cautious(old(root.trace), root.trace)
    ensures root.disk == Cleared(old(root.disk), now)
  {
    ghost var d0, t0 := root.disk, root.trace;
    CleanupAbandonedStaging(root, now);
    ghost var d1, t1 := root.disk, root.trace;
    OnStagingOnlyIsGuarded(t0, t1, d0, root.acked);
    CleanupInterruptedGc(root);
    OnGcOnlyIsGuarded(t1, root.trace, d1, root.acked);
    CautiousContinues(t0, t1, root.trace);
  }

  lemma PrunedIsClear(d: Disk, retention: int, p: Option<ManifestFile>)
    requires StagingEntries(d) == {}
    ensures StagingEntries(Pruned(d, retention, p)) == {} && GcEntries(Pruned(d, retention, p)) == {}
  {
    var r := Pruned(d, retention, p);
    assert forall e :: e in r ==> e in d && e !in GcEntries(d);
    assert forall e :: e in d && e.Staging? ==> e in StagingEntries(d);
  }

  method PruneCautiously(root: BackupRoot, retention: int, p: Option<ManifestFile>) returns (ok: bool)
    requires root.Valid() && SoundProtection(Completions(root.disk), retention, p)
    modifies root
    ensures root.Valid() && root.acked == old(root.acked) && Cautious(old(root.trace), root.trace)
    ensures ok ==> root.disk == Pruned(old(root.disk), retention, p)
    ensures SameSets(old(root.disk), root.disk, Superseded(Completions(old(root.disk)), retention, p))
  {
    ghost var d0, t0 := root.disk, root.trace;
    ok := PruneBackupSets(root, retention, p);
    SoundPruneIsGuarded(t0, root.trace, d0, root.acked, retention, p);
    assert root.trace.stores[|root.trace.ops|].disk == root.disk;
  }

  /** Cleanups and the first prune; the directory must come out free of leftovers. */
  method Prepare(root: BackupRoot, now: int, retention: int) returns (ok: bool)
    requires root.Valid()
    modifies root
    ensures root.Valid() && root.acked == old(root.acked) && Cautious(old(root.trace), root.trace)
    ensures Stuck(old(root.disk), now) ==> !ok
    ensures ok ==> StagingEntries(root.disk) == {} && GcEntries(root.disk) == {}
    ensures SameSets(old(root.disk), root.disk, Superseded(Completions(old(root.disk)), retention, None))
  {
    ghost var d0, t0 := root.disk, root.trace;
    ClearLeftovers(root, now);
    ghost var d1, t1 := root.disk, root.trace;
    ClearedIff(d0, now);
    SameSetsSameCompletions(d0, d1);
    if StagingEntries(root.disk) != {} || GcEntries(root.disk) != {} {
      return false;
    }
    ok := PruneCautiously(root, retention, None);
    CautiousContinues(t0, t1, root.trace);
    PrunedIsClear(d1, retention, None);
    SameSetsCompose(d0, d1, root.disk, {}, Superseded(Completions(d0), retention, None));
  }

  lemma SameSetsCompose(d0: Disk, d1: Disk, d2: Disk, a: set<string>, b: set<string>)
    requires SameSets(d0, d1, a) && SameSets(d1, d2, b)
    ensures SameSets(d0, d2, a + b)
    ensures a == {} ==> SameSets(d0, d2, b)
  {
  }

  lemma AfterStaging(d0: Disk, now: int)
    ensures var d1 := Without(d0, ReclaimableEntries(d0, now));
            && SameSets(d0, d1, {})
            && (StagingEntries(d1) == {} <==> forall e :: e in StagingEntries(d0) ==> Reclaimable(d0[e], now))
            && (forall e :: e in GcEntries(d0) <==> e in GcEntries(d1))
            && (forall e :: e in GcEntries(d0) ==> d1[e] == d0[e])
  {
    var d1 := Without(d0, ReclaimableEntries(d0, now));
    forall e | e in StagingEntries(d0)
      ensures e in StagingEntries(d1) <==> !Reclaimable(d0[e], now)
    {
    }
  }

  /** `mkdir` and the marker, both before the guarded region: an exception here leaves the
      staging directory behind. */
  method BeginStaging(root: BackupRoot, plan: Plan) returns (ok: bool)
    requires root.Valid() && StagingEntries(root.disk) == {}
    modifies root
    ensures root.Valid() && root.acked == old(root.acked)
    ensures Staging(plan.uuid) in root.disk && root.disk - {Staging(plan.uuid)} == old(root.disk) - {Staging(plan.uuid)}
    ensures OnEntry(old(root.trace), root.trace, old(root.disk), root.acked, Staging(plan.uuid))
  {
    ghost var d0, t0 := root.disk, root.trace;
    assert Staging(plan.uuid) !in StagingEntries(root.disk);
    DoOn(root, Stage(plan.uuid), Staging(plan.uuid), d0, t0);
    ok := plan.markerWritten;
    if ok {
      DoOn(root, Put(plan.uuid, [Marker], File(plan.marker, plan.markerSize, plan.markerTime)), Staging(plan.uuid),
           d0, t0);
    }
  }

  lemma OnEntryIsCautious(t0: Trace, t: Trace, d0: Disk, wasAcked: bool, e: Entry)
    requires OnEntry(t0, t, d0, wasAcked, e)
    requires e.Published? && wasAcked ==> VerifiedBeside(d0, e.id)
    ensures Cautious(t0, t)
  {
    OnEntryIsGuarded(t0, t, d0, wasAcked, e);
  }

  /** The directory after the staged tree was renamed to its published name. */
  function WithPublished(d: Disk, u: string, id: string): Disk
    requires Staging(u) in d
  {
    (d - {Staging(u)})[Published(id) := d[Staging(u)]]
  }

  method PublishStaged(root: BackupRoot, u: string, id: string)
    requires root.Valid() && Staging(u) in root.disk && Published(id) !in root.disk
    modifies root
    ensures root.Valid() && root.acked == old(root.acked) && Cautious(old(root.trace), root.trace)
    ensures root.disk == WithPublished(old(root.disk), u, id)
  {
    root.Do(Publish(u, id));
  }

  lemma PublishedBeside(d: Disk, u: string, id: string)
    requires Staging(u) in d && Published(id) !in d && HasVerified(d)
    ensures VerifiedBeside(WithPublished(d, u, id), id)
  {
    var other :| Verified(d, other);
    assert WithPublished(d, u, id)[Published(other)] == d[Published(other)];
    assert Verified(WithPublished(d, u, id), other);
  }

  lemma PublishedVerifies(d: Disk, u: string, id: string)
    requires Staging(u) in d && VerifiedTree(d[Staging(u)], id)
    ensures Verified(WithPublished(d, u, id), id)
  {
  }

  lemma PublishSame(d: Disk, u: string, id: string)
    requires Staging(u) in d
    ensures SameSets(d, WithPublished(d, u, id), {id})
  {
  }

  /** Publishes a staged set by one rename; a later exception removes it in place. */
  method PublishSet(root: BackupRoot, plan: Plan) returns (ok: bool)
    requires root.Valid() && Staging(plan.uuid) in root.disk && Published(plan.setId) !in root.disk
    requires VerifiedTree(root.disk[Staging(plan.uuid)], plan.setId)
    modifies root
    ensures root.Valid() && root.acked == old(root.acked) && Continues(old(root.trace), root.trace)
    ensures ok ==> Verified(root.disk, plan.setId)
    ensures SameSets(old(root.disk), root.disk, {plan.setId})
    ensures Safe(Store(old(root.disk), old(root.acked))) ==> Cautious(old(root.trace), root.trace)
  {
    ghost var d0, t0 := root.disk, root.trace;
    PublishSame(d0, plan.uuid, plan.setId);
    PublishedVerifies(d0, plan.uuid, plan.setId);
    if Safe(Store(d0, root.acked)) && root.acked { PublishedBeside(d0, plan.uuid, plan.setId); }
    PublishStaged(root, plan.uuid, plan.setId);
    ghost var d1, t1 := root.disk, root.trace;
    ok := !plan.failAfterPublish;
    if !ok {
      UndoPublication(root, plan.setId);
      if Safe(Store(d0, root.acked)) { CautiousContinues(t0, t1, root.trace); }
      SameSetsCompose(d0, d1, root.disk, {plan.setId}, {plan.setId});
      assert {plan.setId} + {plan.setId} == {plan.setId};
    }
  }

  /** Removing the set of this id is no loss: there is none, or another one verifies. */
  ghost predicate Unclashing(s: Store, id: string) { Published(id) in s.disk && s.acked ==> VerifiedBeside(s.disk, id) }

  /** Copies, verifies and publishes; on an exception scraps what it made.  Where the id it drew
      is taken, the exception path scraps the set that has it, and leaves the staged one. */
  method StageAndPublish(root: BackupRoot, plan: Plan) returns (outcome: Outcome)
    requires root.Valid() && StagingEntries(root.disk) == {}
    modifies root
    ensures root.Valid() && root.acked == old(root.acked) && Continues(old(root.trace), root.trace)
    ensures !outcome.Refused?
    ensures outcome.Created? ==> outcome.id == plan.setId && Verified(root.disk, plan.setId)
    ensures outcome.Created? ==> Published(plan.setId) !in old(root.disk)
    ensures outcome.Clashed? ==> Published(plan.setId) in old(root.disk)
    ensures outcome.Clashed? && Owned(old(root.disk)[Published(plan.setId)]) ==> Published(plan.setId) !in root.disk
    ensures SameSets(old(root.disk), root.disk, {plan.setId})
    ensures Safe(Store(old(root.disk), old(root.acked)))
      && Unclashing(Store(old(root.disk), old(root.acked)), plan.setId)
      ==> Cautious(old(root.trace), root.trace)
  {
    ghost var d0, t0 := root.disk, root.trace;
    var ok := BeginStaging(root, plan);
    if ok { ok := CopyAndVerify(root, plan, d0, t0); }
    ghost var d1, t1 := root.disk, root.trace;
    OnEntryIsCautious(t0, t1, d0, root.acked, Staging(plan.uuid));
    StagingElsewhere(d0, d1, plan.uuid);
    SameSetsCompose(d0, d1, d1, {}, {plan.setId});
    if !ok { return Failed; }
    if Safe(Store(d0, root.acked)) { TraceStaysSafe(t1, |t0.ops|, |t1.ops|); }
    if Unclashing(Store(d0, root.acked), plan.setId) { UnclashingElsewhere(d0, d1, root.acked, plan.setId); }
    outcome := PublishOrClash(root, plan);
    if Safe(Store(d0, root.acked)) && Unclashing(Store(d0, root.acked), plan.setId) {
      CautiousContinues(t0, t1, root.trace);
    }
    SameSetsCompose(d0, d1, root.disk, {}, {plan.setId});
  }

  lemma UnclashingElsewhere(d0: Disk, d: Disk, wasAcked: bool, id: string)
    requires SameSets(d0, d, {}) && Unclashing(Store(d0, wasAcked), id)
    ensures Unclashing(Store(d, wasAcked), id)
  {
    if Published(id) in d && wasAcked {
      var other :| other != id && Verified(d0, other);
      SameSetsVerified(d0, d, {}, other);
    }
  }

  /** The end of the guarded region, once the staged copy verifies. */
  method PublishOrClash(root: BackupRoot, plan: Plan) returns (outcome: Outcome)
    requires root.Valid() && Staging(plan.uuid) in root.disk
    requires VerifiedTree(root.disk[Staging(plan.uuid)], plan.setId)
    modifies root
    ensures root.Valid() && root.acked == old(root.acked) && Continues(old(root.trace), root.trace)
    ensures !outcome.Refused?
    ensures outcome.Created? ==> outcome.id == plan.setId && Verified(root.disk, plan.setId)
    ensures outcome.Created? ==> Published(plan.setId) !in old(root.disk)
    ensures outcome.Clashed? <==> Published(plan.setId) in old(root.disk)
    ensures outcome.Clashed? && Owned(old(root.disk)[Published(plan.setId)]) ==> Published(plan.setId) !in root.disk
    ensures SameSets(old(root.disk), root.disk, {plan.setId})
    ensures Safe(Store(old(root.disk), old(root.acked)))
      && Unclashing(Store(old(root.disk), old(root.acked)), plan.setId)
      ==> Cautious(old(root.trace), root.trace)
  {
    if Published(plan.setId) in root.disk {
      UndoPublication(root, plan.setId);
      return Clashed;
    }
    var ok := PublishSet(root, plan);
    outcome := if ok then Created(plan.setId) else Failed;
  }

  /** The exception path after publication: the published set is removed in place. */
  method UndoPublication(root: BackupRoot, id: string)
    requires root.Valid() && Published(id) in root.disk
    modifies root
    ensures root.Valid() && root.acked == old(root.acked)
    ensures OnEntry(old(root.trace), root.trace, old(root.disk), old(root.acked), Published(id))
    ensures Owned(old(root.disk)[Published(id)]) ==> Published(id) !in root.disk
    ensures SameSets(old(root.disk), root.disk, {id})
    ensures Continues(old(root.trace), root.trace)
    ensures (root.acked ==> VerifiedBeside(old(root.disk), id)) ==> Cautious(old(root.trace), root.trace)
  {
    ghost var d0, t0 := root.disk, root.trace;
    Scrap(root, Published(id), d0, t0);
    if root.acked ==> VerifiedBeside(d0, id) {
      OnEntryIsCautious(t0, root.trace, d0, root.acked, Published(id));
    }
    SameElsewhere(d0, root.disk, id);
  }

  /** The guarded region up to publication. */
  method CopyAndVerify(root: BackupRoot, plan: Plan, ghost d0: Disk, ghost t0: Trace) returns (ok: bool)
    requires root.Valid() && Staging(plan.uuid) in root.disk
    requires OnEntry(t0, root.trace, d0, root.acked, Staging(plan.uuid))
      && root.disk - {Staging(plan.uuid)} == d0 - {Staging(plan.uuid)}
    modifies root
    ensures root.Valid() && root.acked == old(root.acked)
      && root.disk - {Staging(plan.uuid)} == d0 - {Staging(plan.uuid)}
    ensures OnEntry(t0, root.trace, d0, root.acked, Staging(plan.uuid))
    ensures ok ==> Staging(plan.uuid) in root.disk && VerifiedTree(root.disk[Staging(plan.uuid)], plan.setId)
  {
    ok := RunSteps(root, plan, d0, t0);
    var renameFails := plan.raiseAt == Some(|plan.steps|) && Published(plan.setId) !in root.disk;
    if !ok || !VerifiedTree(root.disk[Staging(plan.uuid)], plan.setId) || renameFails {
      Scrap(root, Staging(plan.uuid), d0, t0);
      ok := false;
    }
  }

  method Confirm(root: BackupRoot, id: string)
    requires root.Valid() && Verified(root.disk, id)
    modifies root
    ensures root.Valid() && root.acked && root.disk == old(root.disk) && Cautious(old(root.trace), root.trace)
  {
    root.Do(Acknowledge(id));
  }

  lemma ProtectedSurvives(d0: Disk, d: Disk, retention: int, id: string)
    requires Verified(d0, id) && SameSets(d0, d, Superseded(Completions(d0), retention, Some(OfSet(id))))
    ensures Verified(d, id)
  {
    CompletionsAt(d0, id);
    SameSetsVerified(d0, d, Superseded(Completions(d0), retention, Some(OfSet(id))), id);
  }

  /** The end of a successful call: the retention prune, which may fail, and the return. */
  method PruneAndReturn(root: BackupRoot, id: string, retention: int)
    requires root.Valid() && Verified(root.disk, id)
    modifies root
    ensures root.Valid() && root.acked && Verified(root.disk, id)
    ensures Cautious(old(root.trace), root.trace)
    ensures LeavesBroken(old(root.disk), root.disk, id)
  {
    ghost var d0, t0 := root.disk, root.trace;
    CompletionsAt(d0, id);
    var pruned := PruneCautiously(root, retention, Some(OfSet(id)));
    ghost var t1 := root.trace;
    ProtectedSurvives(d0, root.disk, retention, id);
    PruneLeavesBroken(d0, root.disk, retention, Some(OfSet(id)), id);
    Confirm(root, id);
    CautiousContinues(t0, t1, root.trace);
  }

  /** What a call that found the directory clear has done. */
  ghost predicate ClearDid(d0: Disk, wasAcked: bool, d: Disk, acked: bool, id: string, outcome: Outcome) {
    && !outcome.Refused? && LeavesBroken(d0, d, id)
    && (outcome.Created? ==> outcome.id == id && acked && Verified(d, id) && Published(id) !in d0)
    && (outcome.Clashed? ==> Published(id) in d0 && (Owned(d0[Published(id)]) ==> Published(id) !in d))
    && (!outcome.Created? ==> acked == wasAcked && SameSets(d0, d, {id}))
  }

  method CreateInClear(root: BackupRoot, plan: Plan, retention: int) returns (outcome: Outcome)
    requires root.Valid() && StagingEntries(root.disk) == {}
    modifies root
    ensures root.Valid() && Continues(old(root.trace), root.trace)
    ensures Safe(Store(old(root.disk), old(root.acked)))
      && Unclashing(Store(old(root.disk), old(root.acked)), plan.setId)
      ==> Cautious(old(root.trace), root.trace)
    ensures ClearDid(old(root.disk), old(root.acked), root.disk, root.acked, plan.setId, outcome)
  {
    ghost var d0, t0 := root.disk, root.trace;
    outcome := StageAndPublish(root, plan);
    ghost var t1, d1 := root.trace, root.disk;
    SameLeavesBroken(d0, d1, plan.setId);
    if !outcome.Created? { return; }
    PruneAndReturn(root, plan.setId, retention);
    BrokenTwice(d0, d1, root.disk, plan.setId);
    if Safe(Store(d0, old(root.acked))) && Unclashing(Store(d0, old(root.acked)), plan.setId) {
      CautiousContinues(t0, t1, root.trace);
    }
  }

  /** Clearing and pruning first does not change what such a call comes to. */
  lemma ClearThenDid(d0: Disk, d1: Disk, wasAcked: bool, d: Disk, acked: bool, plan: Plan, retention: int, now: int,
                     outcome: Outcome)
    requires SameSets(d0, d1, Superseded(Completions(d0), retention, None)) && !Stuck(d0, now)
    requires ClearDid(d1, wasAcked, d, acked, plan.setId, outcome)
    ensures CreateDid(d0, wasAcked, d, acked, plan, retention, now, outcome)
  {
    PruneLeavesBroken(d0, d1, retention, None, plan.setId);
    BrokenTwice(d0, d1, d, plan.setId);
    CompletionsAt(d0, plan.setId);
    if !outcome.Created? { SameSetsCompose(d0, d1, d, Superseded(Completions(d0), retention, None), {plan.setId}); }
  }

  lemma RefusedDid(d0: Disk, d1: Disk, wasAcked: bool, plan: Plan, retention: int, now: int)
    requires SameSets(d0, d1, Superseded(Completions(d0), retention, None))
    ensures CreateDid(d0, wasAcked, d1, wasAcked, plan, retention, now, Refused)
  {
    PruneLeavesBroken(d0, d1, retention, None, plan.setId);
    SameSetsCompose(d0, d1, d1, Superseded(Completions(d0), retention, None), {plan.setId});
  }

  lemma PreparedIsUnclashing(d0: Disk, d: Disk, wasAcked: bool, retention: int, id: string)
    requires SameSets(d0, d, Superseded(Completions(d0), retention, None)) && Published(id) !in d0
    ensures Published(id) !in d && Unclashing(Store(d, wasAcked), id)
  {
    CompletionsAt(d0, id);
  }

  /** Creates one complete set. From a safe directory, and with an id not in use, every step is
      guarded, whatever the environment does and wherever the call stops; a created set
      verifies and outlives its own prune; a call that fails costs at most the sets the
      retention count had already superseded and the one whose id it drew; leftovers nobody
      can finish make it refuse. */
  method CreateVerifiedBackupSet(root: BackupRoot, plan: Plan, retention: int, now: int) returns (outcome: Outcome)
    requires root.Valid()
    modifies root
    ensures root.Valid() && Continues(old(root.trace), root.trace)
    ensures Safe(Store(old(root.disk), old(root.acked))) && Published(plan.setId) !in old(root.disk) ==>
      Cautious(old(root.trace), root.trace)
    ensures CreateDid(old(root.disk), old(root.acked), root.disk, root.acked, plan, retention, now, outcome)
  {
    ghost var d0, t0, wasAcked := root.disk, root.trace, root.acked;
    var ready := Prepare(root, now, retention);
    ghost var d1, t1 := root.disk, root.trace;
    RefusedDid(d0, d1, wasAcked, plan, retention, now);
    if !ready || !plan.withinBudget { return Refused; }
    if Safe(Store(d0, wasAcked)) { TraceStaysSafe(t1, |t0.ops|, |t1.ops|); }
    if Published(plan.setId) !in d0 { PreparedIsUnclashing(d0, d1, wasAcked, retention, plan.setId); }
    outcome := CreateInClear(root, plan, retention);
    if Safe(Store(d0, wasAcked)) && Published(plan.setId) !in d0 { CautiousContinues(t0, t1, root.trace); }
    ClearThenDid(d0, d1, wasAcked, root.disk, root.acked, plan, retention, now, outcome);
  }

  /** What a create call has done by the time it returns. */
  ghost predicate CreateDid(d0: Disk, wasAcked: bool, d: Disk, acked: bool, plan: Plan, retention: int, now: int,
                            outcome: Outcome) {
    var gone := Superseded(Completions(d0), retention, None);
    && (Stuck(d0, now) ==> outcome.Refused?) && LeavesBroken(d0, d, plan.setId)
    && (outcome.Created? ==> outcome.id == plan.setId && acked && Verified(d, plan.setId))
    && (outcome.Created? && plan.setId !in gone ==> Published(plan.setId) !in d0)
    && (outcome.Clashed? ==> Published(plan.setId) in d0)
    && (outcome.Clashed? && plan.setId !in gone && Owned(d0[Published(plan.setId)]) ==> Published(plan.setId) !in d)
    && (!outcome.Created? ==> acked == wasAcked && SameSets(d0, d, gone + {plan.setId}))
  }

  // ---------------------------------------------------------------- an id in use

  /** A call that draws the id of the only verified set, and comes to publish its own, leaves
      none. */
  lemma ReusedIdLosesLastSet(d0: Disk, wasAcked: bool, d: Disk, acked: bool, plan: Plan, retention: int, now: int)
    requires CreateDid(d0, wasAcked, d, acked, plan, retention, now, Clashed)
    requires Verified(d0, plan.setId) && Owned(d0[Published(plan.setId)]) && !VerifiedBeside(d0, plan.setId)
    ensures !HasVerified(d)
  {
    var gone := Superseded(Completions(d0), retention, None);
    OnlySetIsKept(d0, retention, plan.setId);
    forall id ensures !Verified(d, id) {
      if id != plan.setId { SameSetsVerified(d0, d, gone + {plan.setId}, id); }
    }
  }

  lemma OnlySetIsKept(d0: Disk, retention: int, id: string)
    requires Verified(d0, id) && !VerifiedBeside(d0, id)
    ensures Superseded(Completions(d0), retention, None) == {}
  {
    var times := Completions(d0);
    forall x | x in times ensures x == id { CompletionsAt(d0, x); }
    CompletionsAt(d0, id);
    SparesOneIff(times, retention, None);
  }

  // ---------------------------------------------------------------- broken published directories

  /** Every published directory that does not verify is left as it is, but for one id. */
  ghost predicate LeavesBroken(d0: Disk, d: Disk, id: string) {
    forall x :: x != id ==> BrokenStays(d0, d, x)
  }

  ghost predicate BrokenStays(d0: Disk, d: Disk, x: string) {
    Published(x) in d0 && !Verified(d0, x) ==> Published(x) in d && d[Published(x)] == d0[Published(x)]
  }

  lemma BrokenTwice(d0: Disk, d1: Disk, d2: Disk, id: string)
    requires LeavesBroken(d0, d1, id) && LeavesBroken(d1, d2, id)
    ensures LeavesBroken(d0, d2, id)
  {
    forall x | x != id ensures BrokenStays(d0, d2, x) { assert BrokenStays(d0, d1, x) && BrokenStays(d1, d2, x); }
  }

  lemma SameLeavesBroken(d0: Disk, d: Disk, id: string)
    requires SameSets(d0, d, {id})
    ensures LeavesBroken(d0, d, id)
  {
    forall x | x != id ensures BrokenStays(d0, d, x) {}
  }

  lemma PruneLeavesBroken(d0: Disk, d: Disk, retention: int, p: Option<ManifestFile>, id: string)
    requires SameSets(d0, d, Superseded(Completions(d0), retention, p))
    ensures LeavesBroken(d0, d, id)
  {
    forall x ensures BrokenStays(d0, d, x) { CompletionsAt(d0, x); }
  }

  /** A part of a verified set verifies exactly when no file and not the Rust directory is
      missing. */
  lemma PartVerifiesIff(t: Tree, u: Tree, id: string)
    requires VerifiedTree(t, id) && Within(u, t)
    ensures VerifiedTree(u, id) <==> Files(u) == Files(t) && [RustRecovery] in u
  {
    if Files(u) == Files(t) && [RustRecovery] in u {
      forall p | p in Files(t) ensures p in u && u[p] == t[p] {}
      assert [Marker] in Files(t) && [SetManifest(id)] in Files(t);
      forall p | p in RecordOf(t, id).members ensures p in u && EvidenceHolds(RecordOf(t, id).members[p], u[p]) {
        assert p in Files(t);
      }
    }
  }

  /** While a publication is undone, what is left of the set is a part of it. */
  lemma {:induction false} UndoShrinks(t0: Trace, t: Trace, d0: Disk, wasAcked: bool, id: string, k: nat)
    requires ValidTrace(t) && |t0.stores| == |t0.ops| + 1 && t0.stores[|t0.ops|].disk == d0 && Published(id) in d0
    requires OnEntry(t0, t, d0, wasAcked, Published(id)) && |t0.ops| <= k < |t.stores|
    ensures Published(id) in t.stores[k].disk ==> Within(t.stores[k].disk[Published(id)], d0[Published(id)])
    decreases k
  {
    if k == |t0.ops| {
      assert t.stores[k] == t0.stores[k];
    } else {
      UndoShrinks(t0, t, d0, wasAcked, id, k - 1);
      assert StepAt(t, k - 1) && StepOn(t.ops[k - 1], Published(id));
    }
  }

  /** The crash points of an undone publication that leave a broken directory: those after its
      first file, or its Rust directory, and before the directory itself is gone. */
  lemma UndoCrashPoints(t0: Trace, t: Trace, d0: Disk, wasAcked: bool, id: string, k: nat)
    requires ValidTrace(t) && |t0.stores| == |t0.ops| + 1 && t0.stores[|t0.ops|].disk == d0 && Verified(d0, id)
    requires OnEntry(t0, t, d0, wasAcked, Published(id)) && |t0.ops| <= k < |t.stores|
    ensures var d := t.stores[k].disk;
      Published(id) in d && !Verified(d, id) <==>
        && Published(id) in d
        && (Files(d[Published(id)]) != Files(d0[Published(id)]) || [RustRecovery] !in d[Published(id)])
  {
    UndoShrinks(t0, t, d0, wasAcked, id, k);
    var d := t.stores[k].disk;
    if Published(id) in d { PartVerifiesIff(d0[Published(id)], d[Published(id)], id); }
  }
}
