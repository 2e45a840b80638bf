/** Finishing what an interrupted process left behind: unpublished generations whose
    collection stopped half way, and staging directories that were never published. */
module BackupCleanup {
  import opened BackupSet
  import opened BackupDirectory

  // ---------------------------------------------------------------- interrupted collection

  predicate Collectable(d: Disk, e: Entry) {
    e in d && e.Gc? && IsSetId(e.id) && Resumable(d[e])
  }

  function GcEntries(d: Disk): set<Entry> { set e | e in d && e.Gc? }

  function NonGc(d: Disk): Disk { map e | e in d && !e.Gc? :: d[e] }

  function Without(d: Disk, gone: set<Entry>): Disk { map e | e in d && e !in gone :: d[e] }

  function CollectableEntries(d: Disk): set<Entry> { set e | e in d && Collectable(d, e) }

  /** `t` continues `t0` by dropping and removing below collection entries only. */
  ghost predicate OnGcOnly(t0: Trace, t: Trace, d0: Disk, wasAcked: bool) {
    && t0.stores <= t.stores && t0.ops <= t.ops
    && |t.stores| == |t.ops| + 1
    && (forall k :: |t0.ops| <= k < |t.ops| ==> (t.ops[k].Drop? || t.ops[k].RemoveEntry?) && t.ops[k].entry.Gc?)
    && (forall k :: |t0.ops| <= k < |t.stores| ==>
          NonGc(t.stores[k].disk) == NonGc(d0) && t.stores[k].acked == wasAcked)
  }

  lemma OnGcOnlyIsGuarded(t0: Trace, t: Trace, d0: Disk, wasAcked: bool)
    requires OnGcOnly(t0, t, d0, wasAcked)
    ensures GuardedFrom(t, |t0.ops|)
  {
  }

  lemma PartlyCollectedNonGc(d0: Disk, d: Disk, e: Entry)
    requires e in d0 && e.Gc? && PartlyCollected(d0, d, e)
    ensures NonGc(d) == NonGc(d0)
  {
  }

  lemma OnGcOnlyCollects(t0: Trace, t1: Trace, t2: Trace, d0: Disk, d1: Disk, wasAcked: bool, e: Entry)
    requires OnGcOnly(t0, t1, d0, wasAcked) && NonGc(d1) == NonGc(d0)
    requires e in d1 && e.Gc? && Collecting(t1, t2, d1, wasAcked, e)
    ensures OnGcOnly(t0, t2, d0, wasAcked)
  {
    forall k | |t1.ops| <= k < |t2.stores|
      ensures NonGc(t2.stores[k].disk) == NonGc(d0)
    {
      PartlyCollectedNonGc(d1, t2.stores[k].disk, e);
    }
  }

  lemma WithoutStep(d: Disk, gone: set<Entry>, e: Entry)
    ensures Without(d, gone) - {e} == Without(d, gone + {e})
    ensures e.Gc? ==> NonGc(Without(d, gone) - {e}) == NonGc(Without(d, gone))
  {
  }

  method CollectOne(root: BackupRoot, e: Entry, ghost d0: Disk, ghost gone: set<Entry>, ghost from: Trace)
      returns (ok: bool)
    requires root.Valid() && e in d0 && e.Gc? && e !in gone && root.disk == Without(d0, gone)
    requires NonGc(root.disk) == NonGc(d0) && OnGcOnly(from, root.trace, d0, root.acked)
    modifies root
    ensures root.Valid() && root.acked == old(root.acked) && (ok <==> Collectable(d0, e))
    ensures root.disk == Without(d0, if ok then gone + {e} else gone)
    ensures NonGc(root.disk) == NonGc(d0) && OnGcOnly(from, root.trace, d0, root.acked)
  {
    ghost var d1, t1 := root.disk, root.trace;
    WithoutStep(d0, gone, e);
    assert e == Gc(e.id) && d1[e] == d0[e];
    ok := root.RemoveOwnedGc(e.id);
    if ok { OnGcOnlyCollects(from, t1, root.trace, d0, d1, root.acked, e); }
  }

  /** Resumes every interrupted collection. Afterwards exactly the entries it could not
      recognise are left, and nothing but collection entries was ever changed. */
  method CleanupInterruptedGc(root: BackupRoot)
    requires root.Valid()
    modifies root
    ensures root.Valid() && root.acked == old(root.acked)
    ensures root.disk == Without(old(root.disk), CollectableEntries(old(root.disk)))
    ensures OnGcOnly(old(root.trace), root.trace, old(root.disk), root.acked)
  {
    ghost var d0 := root.disk;
    var pending := GcEntries(root.disk);
    ghost var gone: set<Entry> := {};
    assert root.disk == Without(d0, gone);
    while pending != {}
      invariant root.Valid() && root.acked == old(root.acked)
      invariant root.disk == Without(d0, gone)
      invariant NonGc(root.disk) == NonGc(d0)
      invariant pending <= GcEntries(d0) && gone !! pending
      invariant gone == CollectableEntries(d0) - pending
      invariant OnGcOnly(old(root.trace), root.trace, d0, root.acked)
      decreases pending
    {
      var e :| e in pending;
      var ok := CollectOne(root, e, d0, gone, old(root.trace));
      if ok { gone := gone + {e}; }
      pending := pending - {e};
    }
    assert gone == CollectableEntries(d0);
  }

  // ---------------------------------------------------------------- crash points of a collection

  function Remaining(d: Disk, e: Entry): nat { if e in d then |d[e]| + 1 else 0 }

  lemma RemovalCounts(s: Store, op: Op, e: Entry)
    requires Enabled(s, op) && (op.Drop? || op.RemoveEntry?) && op.entry == e
    ensures Remaining(Apply(s, op).disk, e) == Remaining(s.disk, e) - 1
  {
    if op.Drop? {
      assert (s.disk[e] - {op.path}).Keys == s.disk[e].Keys - {op.path};
    }
  }

  lemma RemainderResumes(d0: Disk, d: Disk, e: Entry)
    requires e in d0 && e.Gc? && IsSetId(e.id) && PartlyCollected(d0, d, e)
    ensures e in d ==> Collectable(d, e)
    ensures Without(d, {e}) == Without(d0, {e})
  {
  }

  ghost predicate RemovesAt(t: Trace, k: nat, e: Entry)
    requires k < |t.ops|
  {
    (t.ops[k].Drop? || t.ops[k].RemoveEntry?) && t.ops[k].entry == e
  }

  /** Along a stretch of removals from one entry, operations done and entries left add up. */
  lemma {:induction false} RemovalsCount(t: Trace, from: nat, e: Entry, k: nat)
    requires ValidTrace(t) && from <= k < |t.stores| && forall i :: from <= i < |t.ops| ==> RemovesAt(t, i, e)
    ensures Remaining(t.stores[k].disk, e) + (k - from) == Remaining(t.stores[from].disk, e)
    decreases k
  {
    if from < k {
      RemovalsCount(t, from, e, k - 1);
      assert StepAt(t, k - 1) && RemovesAt(t, k - 1, e);
      RemovalCounts(t.stores[k - 1], t.ops[k - 1], e);
    }
  }

  /** Whatever number of operations of a collection a process got through, a later one
      recognises the remainder, ends in the same directory, and has exactly the
      outstanding operations left to do. */
  lemma EveryCrashPointResumes(t0: Trace, t: Trace, d0: Disk, wasAcked: bool, e: Entry, k: nat)
    requires e in d0 && e.Gc? && IsSetId(e.id) && ValidTrace(t)
    requires |t0.stores| == |t0.ops| + 1 && t0.stores[|t0.ops|].disk == d0
    requires Collecting(t0, t, d0, wasAcked, e)
    requires |t0.ops| <= k < |t.stores|
    ensures e in t.stores[k].disk ==> Collectable(t.stores[k].disk, e)
    ensures Without(t.stores[k].disk, {e}) == Without(d0, {e})
    ensures Remaining(t.stores[k].disk, e) + (k - |t0.ops|) == Remaining(d0, e)
  {
    RemainderResumes(d0, t.stores[k].disk, e);
    assert t.stores[|t0.ops|] == t0.stores[|t0.ops|];
    RemovalsCount(t, |t0.ops|, e, k);
  }
}
