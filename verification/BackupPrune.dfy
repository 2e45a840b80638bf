/** Pruning of published generations. */
module BackupPrune {
  import opened BackupSet
  import opened BackupDirectory
  import opened BackupCleanup
  import opened BackupRetention
  import opened Wrappers

  ghost predicate SameSets(d0: Disk, d: Disk, except: set<string>) {
    forall id :: id !in except ==>
      (Published(id) in d <==> Published(id) in d0) && (Published(id) in d ==> d[Published(id)] == d0[Published(id)])
  }

  /** A step of a prune: a rename to the collection name, or a removal below one. */
  predicate PruneStep(op: Op, retired: set<string>) {
    match op
    case Retire(id) => id in retired
    case Drop(e, _) => e.Gc?
    case RemoveEntry(e) => e.Gc?
    case _ => false
  }

  /** `t` continues `t0` by pruning: members are deleted only below collection names, and
      published sets outside `retired` are the same at every point. */
  ghost predicate Pruning(t0: Trace, t: Trace, d0: Disk, wasAcked: bool, retired: set<string>) {
    && t0.stores <= t.stores && t0.ops <= t.ops
    && |t.stores| == |t.ops| + 1
    && (forall k :: |t0.ops| <= k < |t.ops| ==> PruneStep(t.ops[k], retired))
    && (forall k :: |t0.ops| <= k < |t.stores| ==>
          SameSets(d0, t.stores[k].disk, retired) && t.stores[k].acked == wasAcked)
  }

  lemma SameSetsVerified(d0: Disk, d: Disk, except: set<string>, id: string)
    requires SameSets(d0, d, except) && id !in except
    ensures Verified(d, id) <==> Verified(d0, id)
  {
  }

  lemma PruningIsGuarded(t0: Trace, t: Trace, d0: Disk, wasAcked: bool, retired: set<string>, spared: string)
    requires Pruning(t0, t, d0, wasAcked, retired)
    requires spared !in retired && Verified(d0, spared)
    ensures GuardedFrom(t, |t0.ops|)
  {
    forall k | |t0.ops| <= k < |t.ops|
      ensures GuardAt(t, k)
    {
      assert PruneStep(t.ops[k], retired);
      SameSetsVerified(d0, t.stores[k].disk, retired, spared);
      assert t.ops[k].Retire? ==> VerifiedBeside(t.stores[k].disk, t.ops[k].id);
    }
  }

  lemma GcOnlyIsPruning(t0: Trace, t: Trace, d0: Disk, wasAcked: bool, retired: set<string>)
    requires OnGcOnly(t0, t, d0, wasAcked)
    ensures Pruning(t0, t, d0, wasAcked, retired)
  {
    forall k | |t0.ops| <= k < |t.stores|
      ensures SameSets(d0, t.stores[k].disk, retired)
    {
      NonGcSame(d0, t.stores[k].disk, retired);
    }
  }

  lemma NonGcSame(d0: Disk, d: Disk, except: set<string>)
    requires NonGc(d) == NonGc(d0)
    ensures SameSets(d0, d, except)
  {
    forall id
      ensures (Published(id) in d <==> Published(id) in d0)
        && (Published(id) in d ==> d[Published(id)] == d0[Published(id)])
    {
      assert Published(id) in d <==> Published(id) in NonGc(d);
      assert Published(id) in d0 <==> Published(id) in NonGc(d0);
      assert Published(id) in d ==> NonGc(d)[Published(id)] == d[Published(id)];
    }
  }

  lemma PruningContinues(t0: Trace, t1: Trace, t2: Trace, d0: Disk, d1: Disk, wasAcked: bool, r1: set<string>,
                         r2: set<string>)
    requires Pruning(t0, t1, d0, wasAcked, r1) && SameSets(d0, d1, r1) && Pruning(t1, t2, d1, wasAcked, r2) && r1 <= r2
    ensures Pruning(t0, t2, d0, wasAcked, r2)
  {
  }

  lemma CollectingIsPruning(t0: Trace, t: Trace, d0: Disk, wasAcked: bool, e: Entry, retired: set<string>)
    requires e in d0 && e.Gc? && Collecting(t0, t, d0, wasAcked, e)
    ensures Pruning(t0, t, d0, wasAcked, retired)
  {
    forall k | |t0.ops| <= k < |t.stores|
      ensures SameSets(d0, t.stores[k].disk, retired)
    {
      PartlyCollectedNonGc(d0, t.stores[k].disk, e);
      NonGcSame(d0, t.stores[k].disk, retired);
    }
  }

  /** The directory after set `id` was renamed to its collection name. */
  function Renamed(d: Disk, id: string): Disk
    requires Published(id) in d
  {
    (d - {Published(id)})[Gc(id) := d[Published(id)]]
  }

  lemma RenameIsPruning(t: Trace, d: Disk, wasAcked: bool, id: string)
    requires |t.stores| == |t.ops| + 1 && t.stores[|t.ops|] == Store(d, wasAcked)
    requires Published(id) in d && Gc(id) !in d
    ensures Pruning(t, Extend(t, Retire(id), Store(Renamed(d, id), wasAcked)), d, wasAcked, {id})
    ensures SameSets(d, Renamed(d, id), {id})
    ensures Renamed(d, id) - {Gc(id)} == d - {Published(id)}
  {
  }

  lemma VerifiedHasMarker(d: Disk, id: string)
    requires Verified(d, id)
    ensures HasMarker(d[Published(id)]) && IsSetId(id)
  {
  }

  /** A stray empty directory does not keep a set from verifying, but makes it unowned. */
  lemma StrayDirectoryVerifies(t: Tree, id: string, name: string)
    requires VerifiedTree(t, id) && [Unlisted(name)] !in t
    ensures var u := t[[Unlisted(name)] := Directory]; VerifiedTree(u, id) && !Owned(u)
  {
    var u := t[[Unlisted(name)] := Directory];
    assert Files(u) == Files(t);
    assert |[Unlisted(name)]| == 1;
  }

  /** A set that verifies, with its collection name free. */
  predicate Retirable(d: Disk, id: string) { Verified(d, id) && Gc(id) !in d }

  /** Unpublishes one verified set by an atomic rename, then deletes it. The deletion is
      refused, after the rename, exactly when some member is outside the allow-list. */
  method RemoveVerifiedSet(root: BackupRoot, id: string) returns (ok: bool)
    requires root.Valid()
    modifies root
    ensures root.Valid() && root.acked == old(root.acked)
    ensures ok ==> Retirable(old(root.disk), id) && Owned(old(root.disk)[Published(id)])
    ensures !Retirable(old(root.disk), id) ==> !ok && root.disk == old(root.disk) && root.trace == old(root.trace)
    ensures Retirable(old(root.disk), id) ==>
      && (ok <==> Owned(old(root.disk)[Published(id)]))
      && root.disk == (if ok then old(root.disk) - {Published(id)} else Renamed(old(root.disk), id))
      && Pruning(old(root.trace), root.trace, old(root.disk), root.acked, {id})
  {
    if !Retirable(root.disk, id) { return false; }
    ghost var d0, t0 := root.disk, root.trace;
    VerifiedHasMarker(d0, id);
    RenameIsPruning(t0, d0, root.acked, id);
    Rename(root, id);
    ghost var t1 := root.trace;
    ok := root.RemoveOwnedGc(id);
    if ok {
      CollectingIsPruning(t1, root.trace, Renamed(d0, id), root.acked, Gc(id), {id});
      PruningContinues(t0, t1, root.trace, d0, Renamed(d0, id), root.acked, {id}, {id});
    }
  }

  method Rename(root: BackupRoot, id: string)
    requires root.Valid() && Published(id) in root.disk && Gc(id) !in root.disk
    modifies root
    ensures root.Valid() && root.acked == old(root.acked)
    ensures root.disk == Renamed(old(root.disk), id)
    ensures root.trace == Extend(old(root.trace), Retire(id), Store(root.disk, root.acked))
  {
    root.Do(Retire(id));
  }

  // ---------------------------------------------------------------- the prune

  function Sets(ids: set<string>): set<Entry> { set id | id in ids :: Published(id) }

  predicate AllOwned(d: Disk, ids: set<string>) {
    forall id :: id in ids && Published(id) in d ==> Owned(d[Published(id)])
  }

  predicate ProtectedExists(d: Disk, p: Option<ManifestFile>) {
    p.Some? && p.value.OfSet? ==>
      Published(p.value.id) in d && [SetManifest(p.value.id)] in d[Published(p.value.id)]
      && d[Published(p.value.id)][[SetManifest(p.value.id)]].File?
  }

  /** A prune got through removing the named sets, or stopped at one it does not own. */
  ghost predicate DownTo(t0: Trace, t: Trace, d0: Disk, d: Disk, wasAcked: bool, gone: set<string>, ok: bool) {
    && (ok <==> AllOwned(d0, gone)) && (ok ==> d == Without(d0, Sets(gone))) && Pruning(t0, t, d0, wasAcked, gone)
  }

  /** The loop of the removal, from the oldest set down to where it stops. */
  method RemoveDown(root: BackupRoot, vs: seq<Candidate>, kept: set<ManifestFile>) returns (ok: bool, i: nat)
    requires root.Valid() && GcEntries(root.disk) == {} && Lists(vs, Completions(root.disk))
    modifies root
    ensures root.Valid() && root.acked == old(root.acked) && (ok ==> i == 0)
    ensures DownTo(old(root.trace), root.trace, old(root.disk), root.disk, root.acked, Unkept(vs, kept, i), ok)
  {
    ghost var d0, t0 := root.disk, root.trace;
    i := |vs|;
    NothingRemovedYet(d0, vs, kept, root.trace, root.acked);
    ok := true;
    while i > 0 && ok
      invariant i <= |vs| && root.Valid() && root.acked == old(root.acked)
      invariant DownTo(t0, root.trace, d0, root.disk, root.acked, Unkept(vs, kept, i), ok)
    {
      i := i - 1;
      ok := PruneAt(root, vs, kept, i, d0, t0);
    }
  }

  /** Removes, oldest first, the listed sets that are not kept; stops at the first one
      whose members it does not recognise. */
  method RemoveUnkept(root: BackupRoot, vs: seq<Candidate>, kept: set<ManifestFile>) returns (ok: bool)
    requires root.Valid() && GcEntries(root.disk) == {} && Lists(vs, Completions(root.disk))
    modifies root
    ensures root.Valid() && root.acked == old(root.acked)
    ensures ok <==> AllOwned(old(root.disk), Unkept(vs, kept, 0))
    ensures ok ==> root.disk == Without(old(root.disk), Sets(Unkept(vs, kept, 0)))
    ensures Pruning(old(root.trace), root.trace, old(root.disk), root.acked, Unkept(vs, kept, 0))
  {
    ghost var d0, t0 := root.disk, root.trace;
    var i;
    ok, i := RemoveDown(root, vs, kept);
    UnkeptGrows(d0, vs, kept, i);
    PruningWidens(t0, root.trace, d0, root.acked, Unkept(vs, kept, i), Unkept(vs, kept, 0));
  }

  lemma UnkeptGrows(d0: Disk, vs: seq<Candidate>, kept: set<ManifestFile>, i: nat)
    ensures Unkept(vs, kept, i) <= Unkept(vs, kept, 0)
    ensures !AllOwned(d0, Unkept(vs, kept, i)) ==> !AllOwned(d0, Unkept(vs, kept, 0))
  {
    forall id | id in Unkept(vs, kept, i)
      ensures id in Unkept(vs, kept, 0)
    {
      InUnkept(vs, kept, i, id);
      InUnkept(vs, kept, 0, id);
    }
  }

  lemma AllOwnedStep(d0: Disk, gone: set<string>, id: string)
    requires Published(id) in d0
    ensures AllOwned(d0, gone + {id}) <==> AllOwned(d0, gone) && Owned(d0[Published(id)])
  {
  }

  method PruneAt(root: BackupRoot, vs: seq<Candidate>, kept: set<ManifestFile>, i: nat, ghost d0: Disk,
                 ghost from: Trace)
      returns (done: bool)
    requires root.Valid() && GcEntries(d0) == {} && Lists(vs, Completions(d0)) && i < |vs|
    requires DownTo(from, root.trace, d0, root.disk, root.acked, Unkept(vs, kept, i + 1), true)
    modifies root
    ensures root.Valid() && root.acked == old(root.acked)
    ensures DownTo(from, root.trace, d0, root.disk, root.acked, Unkept(vs, kept, i), done)
  {
    if OfSet(vs[i].id) in kept {
      done := true;
    } else {
      done := RemoveOneUnkept(root, vs, kept, i, d0, from);
      AllOwnedStep(d0, Unkept(vs, kept, i + 1), vs[i].id);
    }
  }

  lemma NothingRemovedYet(d0: Disk, vs: seq<Candidate>, kept: set<ManifestFile>, t: Trace, wasAcked: bool)
    requires |t.stores| == |t.ops| + 1 && t.stores[|t.ops|] == Store(d0, wasAcked)
    ensures d0 == Without(d0, Sets(Unkept(vs, kept, |vs|)))
    ensures Pruning(t, t, d0, wasAcked, Unkept(vs, kept, |vs|))
  {
    assert Unkept(vs, kept, |vs|) == {};
  }

  method RemoveOneUnkept(root: BackupRoot, vs: seq<Candidate>, kept: set<ManifestFile>, i: nat, ghost d0: Disk,
                         ghost from: Trace)
    returns (done: bool)
    requires root.Valid() && GcEntries(d0) == {} && Lists(vs, Completions(d0)) && i < |vs| && OfSet(vs[i].id) !in kept
    requires root.disk == Without(d0, Sets(Unkept(vs, kept, i + 1)))
    requires Pruning(from, root.trace, d0, root.acked, Unkept(vs, kept, i + 1))
    modifies root
    ensures root.Valid() && root.acked == old(root.acked)
    ensures Published(vs[i].id) in d0 && (done <==> Owned(d0[Published(vs[i].id)]))
    ensures done ==> root.disk == Without(d0, Sets(Unkept(vs, kept, i)))
    ensures Pruning(from, root.trace, d0, root.acked, Unkept(vs, kept, i))
  {
    ghost var d1, t1, r1 := root.disk, root.trace, Unkept(vs, kept, i + 1);
    StillVerified(d0, vs, kept, i);
    WithoutSet(d0, r1, vs[i].id);
    done := RemoveVerifiedSet(root, vs[i].id);
    PruningWidens(t1, root.trace, d1, root.acked, {vs[i].id}, r1 + {vs[i].id});
    PruningContinues(from, t1, root.trace, d0, d1, root.acked, r1, r1 + {vs[i].id});
  }

  function Unkept(vs: seq<Candidate>, kept: set<ManifestFile>, from: nat): set<string>
    decreases |vs| - from
  {
    if from >= |vs| then {}
    else if OfSet(vs[from].id) in kept then Unkept(vs, kept, from + 1)
    else Unkept(vs, kept, from + 1) + {vs[from].id}
  }

  lemma {:induction false} InUnkept(vs: seq<Candidate>, kept: set<ManifestFile>, from: nat, id: string)
    ensures id in Unkept(vs, kept, from) <==> exists j :: from <= j < |vs| && OfSet(vs[j].id) !in kept && vs[j].id == id
    decreases |vs| - from
  {
    if from < |vs| { InUnkept(vs, kept, from + 1, id); }
  }

  lemma WithoutSet(d: Disk, ids: set<string>, id: string)
    ensures Without(d, Sets(ids)) - {Published(id)} == Without(d, Sets(ids + {id}))
    ensures SameSets(d, Without(d, Sets(ids)), ids)
  {
    assert Sets(ids + {id}) == Sets(ids) + {Published(id)};
  }

  lemma PruningWidens(t0: Trace, t: Trace, d0: Disk, wasAcked: bool, small: set<string>, big: set<string>)
    requires Pruning(t0, t, d0, wasAcked, small) && small <= big
    ensures Pruning(t0, t, d0, wasAcked, big)
  {
  }

  lemma NoGcEntry(d: Disk, id: string)
    requires GcEntries(d) == {}
    ensures Gc(id) !in d
  {
    var e := Gc(id);
    assert e !in GcEntries(d);
  }

  lemma StillVerified(d0: Disk, vs: seq<Candidate>, kept: set<ManifestFile>, i: nat)
    requires GcEntries(d0) == {} && Lists(vs, Completions(d0)) && i < |vs|
    ensures Published(vs[i].id) in d0
    ensures var d := Without(d0, Sets(Unkept(vs, kept, i + 1)));
            Verified(d, vs[i].id) && Gc(vs[i].id) !in d && d[Published(vs[i].id)] == d0[Published(vs[i].id)]
  {
    CompletionsAt(d0, vs[i].id);
    forall j | i < j < |vs|
      ensures vs[j].id != vs[i].id
    {
      NewerDistinct(vs[i], vs[j]);
    }
    var d := Without(d0, Sets(Unkept(vs, kept, i + 1)));
    InUnkept(vs, kept, i + 1, vs[i].id);
    assert Published(vs[i].id) !in Sets(Unkept(vs, kept, i + 1));
    SameSetsVerified(d0, d, Unkept(vs, kept, i + 1), vs[i].id) by { WithoutSet(d0, Unkept(vs, kept, i + 1), ""); }
    NoGcEntry(d0, vs[i].id);
  }

  // ---------------------------------------------------------------- the whole prune

  lemma SameSetsSameCompletions(d0: Disk, d: Disk)
    requires SameSets(d0, d, {})
    ensures Completions(d) == Completions(d0)
  {
    forall id: string
      ensures id in Completions(d) <==> id in Completions(d0)
      ensures id in Completions(d) ==> Completions(d)[id] == Completions(d0)[id]
    {
      CompletionsAt(d, id);
      CompletionsAt(d0, id);
      SameSetsVerified(d0, d, {}, id);
    }
  }

  lemma UnkeptIsSuperseded(vs: seq<Candidate>, times: map<string, int>, retention: int, p: Option<ManifestFile>, n: nat)
    requires Lists(vs, times) && n <= |vs|
    requires n == |vs| || |KeptPrefix(Protected(p), vs, n)| >= KeepCount(retention)
    requires n > 0 ==> |KeptPrefix(Protected(p), vs, n - 1)| < KeepCount(retention)
    ensures Unkept(vs, KeptPrefix(Protected(p), vs, n), 0) == Superseded(times, retention, p)
  {
    var kept := KeptPrefix(Protected(p), vs, n);
    forall i | 0 <= i < |vs|
      ensures OfSet(vs[i].id) in kept <==> Retained(times, retention, p, vs[i].id)
    {
      ChosenAreRetained(vs, times, retention, p, n, i);
    }
    forall id | id in times
      ensures id in Unkept(vs, kept, 0) <==> id in Superseded(times, retention, p)
    {
      var i :| 0 <= i < |vs| && vs[i].id == id;
      InUnkept(vs, kept, 0, id);
    }
    forall id | id in Unkept(vs, kept, 0)
      ensures id in times
    {
      InUnkept(vs, kept, 0, id);
    }
  }

  /** A prune runs to its end. */
  ghost predicate Prunable(d: Disk, retention: int, p: Option<ManifestFile>) {
    && (forall e :: e in GcEntries(d) ==> Collectable(d, e))
    && ProtectedExists(d, p)
    && AllOwned(d, Superseded(Completions(d), retention, p))
  }

  /** The directory a completed prune leaves. */
  ghost function Pruned(d: Disk, retention: int, p: Option<ManifestFile>): Disk {
    Without(d, GcEntries(d) + Sets(Superseded(Completions(d), retention, p)))
  }

  lemma AfterCleanup(d0: Disk)
    ensures var d1 := Without(d0, CollectableEntries(d0));
            && NonGc(d1) == NonGc(d0)
            && (GcEntries(d1) == {} <==> forall e :: e in GcEntries(d0) ==> Collectable(d0, e))
            && (GcEntries(d1) == {} ==> CollectableEntries(d0) == GcEntries(d0))
  {
    var d1 := Without(d0, CollectableEntries(d0));
    forall e | e in GcEntries(d0)
      ensures e in GcEntries(d1) <==> !Collectable(d0, e)
    {
    }
  }

  lemma WithoutTwice(d: Disk, a: set<Entry>, b: set<Entry>)
    ensures Without(Without(d, a), b) == Without(d, a + b)
  {
  }

  lemma NonGcAgrees(d0: Disk, d: Disk, retention: int, p: Option<ManifestFile>)
    requires NonGc(d) == NonGc(d0)
    ensures SameSets(d0, d, {}) && Completions(d) == Completions(d0)
    ensures ProtectedExists(d, p) <==> ProtectedExists(d0, p)
    ensures AllOwned(d, Superseded(Completions(d), retention, p)) <==>
      AllOwned(d0, Superseded(Completions(d0), retention, p))
  {
    NonGcSame(d0, d, {});
    SameSetsSameCompletions(d0, d);
  }

  /** Prunes a directory without interrupted collections. */
  method PruneClear(root: BackupRoot, retention: int, p: Option<ManifestFile>) returns (ok: bool)
    requires root.Valid() && GcEntries(root.disk) == {} && ProtectedExists(root.disk, p)
    modifies root
    ensures root.Valid() && root.acked == old(root.acked)
    ensures ok <==> AllOwned(old(root.disk), Superseded(Completions(old(root.disk)), retention, p))
    ensures ok ==> root.disk == Without(old(root.disk), Sets(Superseded(Completions(old(root.disk)), retention, p)))
    ensures Pruning(old(root.trace), root.trace, old(root.disk), root.acked,
                    Superseded(Completions(old(root.disk)), retention, p))
  {
    var vs := CollectVerified(root.disk);
    var kept, n := ChooseKept(vs, KeepCount(retention), p);
    UnkeptIsSuperseded(vs, Completions(root.disk), retention, p, n);
    ok := RemoveUnkept(root, vs, kept);
  }

  /** Prunes one directory. At every point, only superseded sets have been unpublished;
      whether it completes, and what it then leaves, is decided by the directory found. */
  method PruneBackupSets(root: BackupRoot, retention: int, p: Option<ManifestFile>) returns (ok: bool)
    requires root.Valid()
    modifies root
    ensures root.Valid() && root.acked == old(root.acked)
    ensures ok <==> Prunable(old(root.disk), retention, p)
    ensures ok ==> root.disk == Pruned(old(root.disk), retention, p)
    ensures Pruning(old(root.trace), root.trace, old(root.disk), root.acked,
                    Superseded(Completions(old(root.disk)), retention, p))
  {
    ghost var d0 := root.disk;
    ghost var gone := Superseded(Completions(d0), retention, p);
    CleanupInterruptedGc(root);
    AfterCleanup(d0);
    GcOnlyIsPruning(old(root.trace), root.trace, d0, root.acked, gone);
    ghost var d1, t1 := root.disk, root.trace;
    NonGcAgrees(d0, d1, retention, p);
    if GcEntries(root.disk) != {} || !ProtectedExists(root.disk, p) { return false; }
    ok := PruneClear(root, retention, p);
    NonGcSame(d0, d1, gone);
    PruningContinues(old(root.trace), t1, root.trace, d0, d1, root.acked, gone, gone);
    WithoutTwice(d0, GcEntries(d0), Sets(gone));
  }

  /** Sound protection makes every prune guarded, wherever it stops. */
  lemma SoundPruneIsGuarded(t0: Trace, t: Trace, d0: Disk, wasAcked: bool, retention: int, p: Option<ManifestFile>)
    requires SoundProtection(Completions(d0), retention, p)
    requires Pruning(t0, t, d0, wasAcked, Superseded(Completions(d0), retention, p))
    ensures GuardedFrom(t, |t0.ops|)
  {
    var times := Completions(d0);
    if times == map[] {
      assert Superseded(times, retention, p) == {};
    } else {
      SparesOneIff(times, retention, p);
      var spared :| spared in times && spared !in Superseded(times, retention, p);
      CompletionsAt(d0, spared);
      PruningIsGuarded(t0, t, d0, wasAcked, Superseded(times, retention, p), spared);
    }
  }

  lemma SupersededIsGone(d0: Disk, retention: int, p: Option<ManifestFile>, id: string)
    requires id in Completions(d0) ==> id in Superseded(Completions(d0), retention, p)
    ensures !Verified(Pruned(d0, retention, p), id)
  {
    var times, d := Completions(d0), Pruned(d0, retention, p);
    CompletionsAt(d0, id);
    if id in times {
      assert Published(id) in Sets(Superseded(times, retention, p));
    } else if Published(id) in d {
      assert d[Published(id)] == d0[Published(id)];
    }
  }

  /** Without it, a completed prune leaves no verified set at all. */
  lemma UnsoundPruneLosesAll(d0: Disk, retention: int, p: Option<ManifestFile>)
    requires !SoundProtection(Completions(d0), retention, p)
    ensures !HasVerified(Pruned(d0, retention, p))
  {
    var times := Completions(d0);
    if times != map[] { SparesOneIff(times, retention, p); }
    forall id ensures !Verified(Pruned(d0, retention, p), id) { SupersededIsGone(d0, retention, p, id); }
  }
}
