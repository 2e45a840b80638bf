/** Abandoned staging directories. Their cleanup removes the ownership marker first, so
    unlike a collection it cannot be resumed once it has begun. */
module BackupStaging {
  import opened BackupSet
  import opened BackupDirectory
  import opened BackupCleanup

  // ---------------------------------------------------------------- order of removal

  predicate LexLeq(a: string, b: string) {
    a == [] || (b != [] && (a[0] < b[0] || (a[0] == b[0] && LexLeq(a[1..], b[1..]))))
  }

  lemma {:induction false} LexTotal(a: string, b: string)
    ensures LexLeq(a, b) || LexLeq(b, a)
  {
    if a != [] && b != [] && a[0] == b[0] { LexTotal(a[1..], b[1..]); }
  }

  lemma {:induction false} LexTransitive(a: string, b: string, c: string)
    requires LexLeq(a, b) && LexLeq(b, c)
    ensures LexLeq(a, c)
  {
    if a != [] && a[0] == b[0] && b[0] == c[0] { LexTransitive(a[1..], b[1..], c[1..]); }
  }

  function RoleName(role: Role): string {
    match role case State => "state" case Audit => "audit" case Research => "research"
  }

  function Spelling(m: Part): string {
    match m
    case Marker => ".backup-set-generation-v1"
    case DatabaseTemp(role, stem) => "." + RoleName(role) + "." + stem + ".db.tmp"
    case Image(role, stem) => RoleName(role) + "." + stem + ".db"
    case ImageManifest(role, stem) => RoleName(role) + "." + stem + ".db.manifest.json"
    case SetManifest(id) => "backup-set." + id + ".json"
    case LiveConfig => "live_config.json"
    case MigrationManifest => "migration-manifest.json"
    case AtomicJsonTemp(target, random) => "." + target + "." + random + ".tmp"
    case RustRecovery => "rust-recovery"
    case Generation(name) => "generation-" + name
    case ManifestJson => "manifest.json"
    case Members => "members"
    case PrivateStreamCursors => "private_stream_cursors"
    case ExecutionFile(_) => "execution"
    case CursorFile(_) => "cursor"
    case Unlisted(text) => text
  }

  /** Manifests and the marker come before inert payloads. */
  function Rank(m: Part): nat {
    if m.Marker? || m.ImageManifest? || m.SetManifest? || m.LiveConfig? || m.MigrationManifest? then 0 else 1
  }

  /** The sort key as one text: rank first, then the name. */
  function SortKey(m: Part): string { (if Rank(m) == 0 then "0" else "1") + Spelling(m) }

  predicate SortsFirst(a: Part, b: Part) { LexLeq(SortKey(a), SortKey(b)) }

  ghost predicate IsLeast(k: string, keys: set<string>) { k in keys && forall q :: q in keys ==> LexLeq(k, q) }

  lemma LeastOfMore(keys: set<string>, x: string, k: string)
    requires x in keys && IsLeast(k, keys - {x})
    ensures IsLeast(x, keys) || IsLeast(k, keys)
  {
    LexTotal(x, k);
    LexTotal(x, x);
    if LexLeq(x, k) {
      forall q | q in keys && q != x
        ensures LexLeq(x, q)
      {
        assert q in keys - {x};
        LexTransitive(x, k, q);
      }
    } else {
      assert forall q :: q in keys ==> q == x || q in keys - {x};
    }
  }

  lemma {:induction false} LeastKey(keys: set<string>) returns (k: string)
    requires keys != {}
    ensures IsLeast(k, keys)
  {
    var x :| x in keys;
    if keys == {x} {
      k := x;
      LexTotal(x, x);
    } else {
      k := LeastKey(keys - {x});
      LeastOfMore(keys, x, k);
      if !IsLeast(k, keys) { k := x; }
    }
  }

  /** Among the members a cleanup accepts, none sorts before the marker. */
  lemma MarkerSortsFirst(m: Part)
    requires (IsListed(m) || m == RustRecovery) && m != Marker
    ensures !SortsFirst(m, Marker)
  {
    var key, first := SortKey(m), SortKey(Marker);
    assert first[0] == '0' && first[1..] == Spelling(Marker) && Spelling(Marker)[0] == '.';
    if Rank(m) == 0 {
      FirstLetter(m);
      assert key[0] == '0' && key[1..] == Spelling(m);
      assert !LexLeq(key[1..], first[1..]);
    } else {
      assert key[0] == '1';
    }
  }

  /** No JSON member is spelled with a leading dot. */
  lemma FirstLetter(m: Part)
    requires m.ImageManifest? || m.SetManifest? || m.LiveConfig? || m.MigrationManifest?
    ensures Spelling(m) != [] && Spelling(m)[0] > '.'
  {
    match m
    case ImageManifest(role, stem) =>
      assert Spelling(m)[0] == RoleName(role)[0];
    case SetManifest(id) =>
      assert Spelling(m)[0] == 'b';
    case _ =>
  }

  // ---------------------------------------------------------------- one abandoned directory

  /** `d` is `d0`, or `d0` with staging entry `e` begun: its marker is gone. */
  ghost predicate Unmarked(d0: Disk, d: Disk, e: Entry)
    requires e in d0
  {
    if e in d then d == d0[e := d[e]] && Within(d[e], d0[e]) && [Marker] !in d[e] else d == d0 - {e}
  }

  /** `t` continues `t0` by reclaiming `e`: from its first operation on, the marker is
      gone until the entry is. */
  ghost predicate Reclaiming(t0: Trace, t: Trace, d0: Disk, wasAcked: bool, e: Entry)
    requires e in d0
  {
    && t0.stores <= t.stores && t0.ops <= t.ops
    && |t.stores| == |t.ops| + 1
    && (forall k :: |t0.ops| <= k < |t.ops| ==> (t.ops[k].Drop? || t.ops[k].RemoveEntry?) && t.ops[k].entry == e)
    && (forall k :: |t0.ops| < k < |t.stores| ==>
          Unmarked(d0, t.stores[k].disk, e) && t.stores[k].acked == wasAcked)
  }

  lemma ReclaimingDrops(t0: Trace, t1: Trace, t2: Trace, d0: Disk, wasAcked: bool, e: Entry, tree: Tree, m: Part)
    requires e in d0 && Within(tree, d0[e]) && [Marker] !in tree
    requires Reclaiming(t0, t1, d0, wasAcked, e)
    requires Dropping(t1, t2, d0[e := tree], wasAcked, e, m)
    ensures Reclaiming(t0, t2, d0, wasAcked, e)
  {
    forall k | |t1.ops| <= k < |t2.stores|
      ensures Unmarked(d0, t2.stores[k].disk, e)
    {
      assert ShrunkAt(d0[e := tree], t2.stores[k].disk, e, m);
      Overwrite(d0, e, tree, t2.stores[k].disk[e]);
    }
  }

  lemma ReclaimingBegins(t0: Trace, t1: Trace, d0: Disk, wasAcked: bool, e: Entry, tree: Tree)
    requires e in d0 && |t0.stores| == |t0.ops| + 1 && |t1.ops| == |t0.ops| + 1
    requires Dropping(t0, t1, d0, wasAcked, e, Marker)
    requires tree == WithoutHeads(d0[e], {Marker}) && t1.stores[|t1.ops|].disk == d0[e := tree]
    ensures Reclaiming(t0, t1, d0, wasAcked, e)
  {
    Overwrite(d0, e, tree, tree);
    assert Within(tree, d0[e]) && [Marker] !in tree;
    assert Unmarked(d0, d0[e := tree], e);
  }

  lemma ReclaimingExtends(t0: Trace, t: Trace, d0: Disk, wasAcked: bool, e: Entry, op: Op, d: Disk)
    requires e in d0 && Reclaiming(t0, t, d0, wasAcked, e)
    requires (op.Drop? || op.RemoveEntry?) && op.entry == e && Unmarked(d0, d, e)
    ensures Reclaiming(t0, Extend(t, op, Store(d, wasAcked)), d0, wasAcked, e)
  {
  }

  /** Removes one member in the sorted order and keeps the bookkeeping of the loop. */
  method ReclaimMember(root: BackupRoot, e: Entry, m: Part, ghost d0: Disk, ghost done: set<Part>, tree: Tree,
                       ghost from: Trace)
    requires root.Valid() && e in d0 && root.disk == d0[e := tree] && tree == WithoutHeads(d0[e], done)
    requires WellFormed(d0[e]) && Owned(d0[e]) && HasMarker(d0[e]) && m in Heads(d0[e]) && m !in done
    requires if done == {} then m == Marker && from == root.trace && root.disk == d0
             else Marker in done && m != Marker && Reclaiming(from, root.trace, d0, root.acked, e)
    modifies root
    ensures root.Valid() && root.acked == old(root.acked)
    ensures root.disk == d0[e := WithoutHeads(tree, {m})]
    ensures WithoutHeads(tree, {m}) == WithoutHeads(d0[e], done + {m})
    ensures |root.trace.ops| - |old(root.trace).ops| + |WithoutHeads(tree, {m})| == |tree|
    ensures Reclaiming(from, root.trace, d0, root.acked, e)
  {
    WithoutMore(d0[e], done, m);
    OwnedShrinks(tree, d0[e]);
    HeadIsPath(d0[e], m);
    Overwrite(d0, e, tree, WithoutHeads(tree, {m}));
    ghost var before := root.trace;
    if m == Marker {
      FileHead(d0[e], Marker);
      assert tree == d0[e];
      DropOne(tree, [Marker]);
      root.RemoveFile(e, m);
      ReclaimingBegins(before, root.trace, d0, root.acked, e, WithoutHeads(tree, {m}));
    } else {
      var ok := root.RemoveMember(e, m);
      assert ok;
      ReclaimingDrops(from, before, root.trace, d0, root.acked, e, tree, m);
    }
  }

  /** Removes an accepted staging directory: marker and manifests first, payloads after. */
  method ReclaimMembers(root: BackupRoot, e: Entry)
    requires root.Valid() && e in root.disk && HasMarker(root.disk[e]) && Owned(root.disk[e])
    modifies root
    ensures root.Valid() && root.acked == old(root.acked) && root.disk == old(root.disk)[e := map[]]
    ensures |root.trace.ops| == |old(root.trace).ops| + |old(root.disk)[e]|
    ensures Reclaiming(old(root.trace), root.trace, old(root.disk), root.acked, e)
  {
    ghost var d0, t0 := root.disk, root.disk[e];
    Untouched(root.disk, e, Marker);
    assert WellFormed(t0) by { assert WellFormedAt(root.trace, |root.trace.ops|); }
    assert Marker in Heads(t0) by { assert [Marker] in t0 && |[Marker]| == 1; }
    ReclaimInOrder(root, e, d0);
    assert Heads(t0) - {} == Heads(t0);
    AllHeadsGone(t0, {});
    assert WithoutHeads(t0, Heads(t0)) == map[];
  }

  /** The member to remove next, as the sort puts it. */
  method NextMember(pending: set<Part>) returns (m: Part)
    requires pending != {}
    ensures m in pending && forall q :: q in pending ==> SortsFirst(m, q)
  {
    ghost var keys := set q | q in pending :: SortKey(q);
    ghost var some :| some in pending;
    assert SortKey(some) in keys;
    ghost var k := LeastKey(keys);
    ghost var first :| first in pending && SortKey(first) == k;
    assert forall q :: q in pending ==> SortKey(q) in keys;
    assert forall q :: q in pending ==> SortsFirst(first, q);
    m :| m in pending && forall q :: q in pending ==> SortsFirst(m, q);
  }

  lemma MarkerIsNext(t: Tree, pending: set<Part>, m: Part)
    requires TopOwned(t) && pending <= Heads(t) && Marker in pending
    requires m in pending && SortsFirst(m, Marker)
    ensures m == Marker
  {
    HeadIsPath(t, m);
    assert [m][0] == m && |[m]| == 1;
    if m != Marker { MarkerSortsFirst(m); }
  }

  method ReclaimNext(root: BackupRoot, e: Entry, pending: set<Part>, ghost d0: Disk, ghost done: set<Part>,
                     tree: Tree, ghost from: Trace)
    returns (m: Part)
    requires root.Valid() && e in d0 && root.disk == d0[e := tree] && tree == WithoutHeads(d0[e], done)
    requires WellFormed(d0[e]) && Owned(d0[e]) && HasMarker(d0[e]) && Marker in Heads(d0[e])
    requires pending != {} && pending == Heads(d0[e]) - done
    requires if done == {} then from == root.trace && root.disk == d0
             else Marker in done && Reclaiming(from, root.trace, d0, root.acked, e)
    modifies root
    ensures m in pending && root.Valid() && root.acked == old(root.acked)
    ensures Marker in done + {m}
    ensures root.disk == d0[e := WithoutHeads(tree, {m})]
    ensures WithoutHeads(tree, {m}) == WithoutHeads(d0[e], done + {m})
    ensures |root.trace.ops| - |old(root.trace).ops| + |WithoutHeads(tree, {m})| == |tree|
    ensures Reclaiming(from, root.trace, d0, root.acked, e)
  {
    m := NextMember(pending);
    if Marker in pending { MarkerIsNext(d0[e], pending, m); }
    ReclaimMember(root, e, m, d0, done, tree, from);
  }

  method ReclaimInOrder(root: BackupRoot, e: Entry, ghost d0: Disk)
    requires root.Valid() && e in root.disk && root.disk == d0 && d0 == d0[e := d0[e]]
    requires WellFormed(d0[e]) && HasMarker(d0[e]) && Owned(d0[e]) && Marker in Heads(d0[e])
    modifies root
    ensures root.Valid() && root.acked == old(root.acked)
    ensures root.disk == d0[e := WithoutHeads(d0[e], Heads(d0[e]))]
    ensures |root.trace.ops| - |old(root.trace).ops| + |WithoutHeads(d0[e], Heads(d0[e]))| == |d0[e]|
    ensures Reclaiming(old(root.trace), root.trace, d0, root.acked, e)
  {
    ghost var t0 := root.disk[e];
    var tree := root.disk[e];
    var pending := Heads(tree);
    ghost var done: set<Part> := {};
    assert tree == WithoutHeads(t0, done);
    while pending != {}
      invariant root.Valid() && root.acked == old(root.acked)
      invariant root.disk == d0[e := tree] && tree == WithoutHeads(t0, done)
      invariant pending == Heads(t0) - done && done <= Heads(t0)
      invariant |root.trace.ops| - |old(root.trace).ops| + |tree| == |t0|
      invariant done == {} ==> root.trace == old(root.trace)
      invariant done != {} ==> Marker in done && Reclaiming(old(root.trace), root.trace, d0, root.acked, e)
      decreases pending
    {
      var m := ReclaimNext(root, e, pending, d0, done, tree, old(root.trace));
      pending, done, tree := pending - {m}, done + {m}, WithoutHeads(tree, {m});
    }
    assert done == Heads(t0);
  }

  method ReclaimStaging(root: BackupRoot, e: Entry)
    requires root.Valid() && e in root.disk && HasMarker(root.disk[e]) && Owned(root.disk[e])
    modifies root
    ensures root.Valid() && root.acked == old(root.acked) && root.disk == old(root.disk) - {e}
    ensures |root.trace.ops| == |old(root.trace).ops| + |old(root.disk)[e]| + 1
    ensures Reclaiming(old(root.trace), root.trace, old(root.disk), root.acked, e)
  {
    ghost var d0 := root.disk;
    ReclaimMembers(root, e);
    Overwrite(d0, e, map[], map[]);
    assert d0[e := map[]] - {e} == d0 - {e};
    ReclaimingExtends(old(root.trace), root.trace, d0, root.acked, e, RemoveEntry(e), d0 - {e});
    root.RemoveEmpty(e);
  }

  // ---------------------------------------------------------------- all abandoned directories

  function StagingEntries(d: Disk): set<Entry> { set e | e in d && e.Staging? }

  function NonStaging(d: Disk): Disk { map e | e in d && !e.Staging? :: d[e] }

  function ReclaimableEntries(d: Disk, now: int): set<Entry> {
    set e | e in d && e.Staging? && Reclaimable(d[e], now)
  }

  /** Each staging directory is as it was, or has lost its marker, or is gone. */
  ghost predicate WholeOrUnmarked(d0: Disk, d: Disk) {
    forall e :: e in d && e.Staging? ==> e in d0 && (d[e] == d0[e] || [Marker] !in d[e])
  }

  ghost predicate OnStagingOnly(t0: Trace, t: Trace, d0: Disk, wasAcked: bool) {
    && t0.stores <= t.stores && t0.ops <= t.ops
    && |t.stores| == |t.ops| + 1
    && (forall k :: |t0.ops| <= k < |t.ops| ==> (t.ops[k].Drop? || t.ops[k].RemoveEntry?) && t.ops[k].entry.Staging?)
    && (forall k :: |t0.ops| <= k < |t.stores| ==>
          && NonStaging(t.stores[k].disk) == NonStaging(d0) && WholeOrUnmarked(d0, t.stores[k].disk)
          && t.stores[k].acked == wasAcked)
  }

  lemma OnStagingOnlyIsGuarded(t0: Trace, t: Trace, d0: Disk, wasAcked: bool)
    requires OnStagingOnly(t0, t, d0, wasAcked)
    ensures GuardedFrom(t, |t0.ops|)
  {
  }

  lemma UnmarkedStep(d0: Disk, d1: Disk, d: Disk, e: Entry)
    requires e in d1 && e.Staging? && Unmarked(d1, d, e)
    requires NonStaging(d1) == NonStaging(d0) && WholeOrUnmarked(d0, d1)
    ensures NonStaging(d) == NonStaging(d0) && WholeOrUnmarked(d0, d)
  {
  }

  lemma OnStagingOnlyReclaims(t0: Trace, t1: Trace, t2: Trace, d0: Disk, d1: Disk, wasAcked: bool, e: Entry)
    requires OnStagingOnly(t0, t1, d0, wasAcked) && NonStaging(d1) == NonStaging(d0) && WholeOrUnmarked(d0, d1)
    requires e in d1 && e.Staging? && Reclaiming(t1, t2, d1, wasAcked, e)
    ensures OnStagingOnly(t0, t2, d0, wasAcked)
  {
    forall k | |t1.ops| < k < |t2.stores|
      ensures NonStaging(t2.stores[k].disk) == NonStaging(d0) && WholeOrUnmarked(d0, t2.stores[k].disk)
    {
      UnmarkedStep(d0, d1, t2.stores[k].disk, e);
    }
  }

  lemma WithoutStaging(d: Disk, gone: set<Entry>, e: Entry)
    ensures Without(d, gone) - {e} == Without(d, gone + {e})
    ensures WholeOrUnmarked(d, Without(d, gone + {e}))
    ensures e.Staging? ==> NonStaging(Without(d, gone + {e})) == NonStaging(Without(d, gone))
  {
  }

  /** Reclaims exactly the sentinel-owned, old enough, fully listed staging directories
      and never changes anything that is not a staging directory. */
  method CleanupAbandonedStaging(root: BackupRoot, now: int)
    requires root.Valid()
    modifies root
    ensures root.Valid() && root.acked == old(root.acked)
    ensures root.disk == Without(old(root.disk), ReclaimableEntries(old(root.disk), now))
    ensures OnStagingOnly(old(root.trace), root.trace, old(root.disk), root.acked)
  {
    ghost var d0 := root.disk;
    var pending := StagingEntries(root.disk);
    ghost var gone: set<Entry> := {};
    assert root.disk == Without(d0, gone);
    while pending != {}
      invariant root.Valid() && root.acked == old(root.acked)
      invariant root.disk == Without(d0, gone)
      invariant NonStaging(root.disk) == NonStaging(d0) && WholeOrUnmarked(d0, root.disk)
      invariant pending <= StagingEntries(d0) && gone !! pending
      invariant gone == ReclaimableEntries(d0, now) - pending
      invariant OnStagingOnly(old(root.trace), root.trace, d0, root.acked)
      decreases pending
    {
      var e :| e in pending;
      assert e in root.disk && root.disk[e] == d0[e];
      if Reclaimable(root.disk[e], now) {
        ghost var d1, t1 := root.disk, root.trace;
        WithoutStaging(d0, gone, e);
        ReclaimStaging(root, e);
        gone := gone + {e};
        OnStagingOnlyReclaims(old(root.trace), t1, root.trace, d0, d1, root.acked, e);
      }
      pending := pending - {e};
    }
    assert gone == ReclaimableEntries(d0, now);
  }

  /** The crash points of a staging cleanup a later run can finish are exactly two:
      before its first operation and after its last. At every other point the remainder
      has no marker and is not reclaimable at any later time. */
  lemma {:induction false} StagingCrashPoints(t0: Trace, t: Trace, d0: Disk, wasAcked: bool, e: Entry, k: nat,
                                              later: int)
    requires e in d0 && e.Staging? && ValidTrace(t)
    requires |t0.stores| == |t0.ops| + 1 && t0.stores[|t0.ops|].disk == d0
    requires Reclaiming(t0, t, d0, wasAcked, e)
    requires |t.ops| == |t0.ops| + |d0[e]| + 1
    requires Reclaimable(d0[e], later)
    requires |t0.ops| <= k < |t.stores|
    ensures var d := t.stores[k].disk;
            (e !in d || Reclaimable(d[e], later)) <==> k == |t0.ops| || k == |t.ops|
  {
    ReclaimingCounts(t0, t, d0, wasAcked, e, k);
    if k == |t0.ops| {
      assert t.stores[k] == t0.stores[k];
    } else {
      assert Unmarked(d0, t.stores[k].disk, e);
    }
  }

  lemma ReclaimingCounts(t0: Trace, t: Trace, d0: Disk, wasAcked: bool, e: Entry, k: nat)
    requires e in d0 && ValidTrace(t)
    requires |t0.stores| == |t0.ops| + 1 && t0.stores[|t0.ops|].disk == d0
    requires Reclaiming(t0, t, d0, wasAcked, e)
    requires |t0.ops| <= k < |t.stores|
    ensures Remaining(t.stores[k].disk, e) + (k - |t0.ops|) == Remaining(d0, e)
  {
    assert t.stores[|t0.ops|] == t0.stores[|t0.ops|];
    RemovalsCount(t, |t0.ops|, e, k);
  }

  /** A leftover can be reclaimed at some later time exactly when it has its marker and
      nothing but owned members. */
  lemma EventuallyReclaimableIff(t: Tree)
    ensures (exists now :: Reclaimable(t, now)) <==> HasMarker(t) && Owned(t)
  {
    if HasMarker(t) && Owned(t) { assert Reclaimable(t, MarkerTime(t[[Marker]]) + MINIMUM_STAGING_AGE); }
  }

  lemma HeadIsPath(t: Tree, m: Part)
    requires m in Heads(t)
    ensures [m] in t
  {
    var p :| p in t && |p| == 1 && p[0] == m;
    assert p == [m];
  }

  lemma DropOne(t: Tree, p: Path)
    requires p in t
    ensures |t - {p}| == |t| - 1
  {
    assert (t - {p}).Keys == t.Keys - {p};
  }
}
