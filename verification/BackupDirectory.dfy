/** The backup directory as the code changes it: one file operation at a time, each of
    which may be the last one a crashed process performs. */
module BackupDirectory {
  import opened BackupSet

  function Heads(t: Tree): set<Part> { set p | p in t && |p| == 1 :: p[0] }

  function WithoutHeads(t: Tree, heads: set<Part>): Tree {
    map p | p in t && (p == [] || p[0] !in heads) :: t[p]
  }

  /** `t` is `t0` with some of the paths below member `m` gone. */
  ghost predicate Shrunk(t0: Tree, t: Tree, m: Part) {
    && Within(t, t0)
    && forall p :: p in t0 && (p == [] || p[0] != m) ==> p in t
  }

  lemma ShrunkStep(t0: Tree, t: Tree, m: Part, p: Path)
    requires Shrunk(t0, t, m) && p in t && p != [] && p[0] == m
    ensures Shrunk(t0, t - {p}, m)
    ensures |t - {p}| == |t| - 1
  {
    assert (t - {p}).Keys == t.Keys - {p};
  }

  /** `d` differs from `d0` at entry `e` only, where it holds a shrunk tree. */
  ghost predicate ShrunkAt(d0: Disk, d: Disk, e: Entry, m: Part)
    requires e in d0
  {
    e in d && d == d0[e := d[e]] && Shrunk(d0[e], d[e], m)
  }

  lemma Overwrite(d: Disk, e: Entry, t: Tree, u: Tree)
    ensures d[e := t][e] == t
    ensures d[e := t][e := u] == d[e := u]
  {
  }

  lemma HeadPresent(t: Tree, p: Path)
    requires WellFormed(t) && p in t
    ensures p != [] && [p[0]] in t && (|p| > 1 ==> t[[p[0]]].Directory?)
    decreases |p|
  {
    if |p| == 1 {
      assert p == [p[0]];
    } else {
      var parent := p[..|p| - 1];
      HeadPresent(t, parent);
      if |parent| == 1 { assert parent == [p[0]]; }
    }
  }

  lemma DeepestExists(s: set<Path>)
    requires s != {}
    ensures exists p :: p in s && forall q :: q in s ==> |q| <= |p|
  {
    var p :| p in s;
    if s == {p} {
    } else {
      DeepestExists(s - {p});
      var r :| r in s - {p} && forall q :: q in s - {p} ==> |q| <= |r|;
      if |r| < |p| {
        assert forall q :: q in s ==> |q| <= |p|;
      } else {
        assert forall q :: q in s ==> |q| <= |r|;
      }
    }
  }

  lemma Untouched(d: Disk, e: Entry, m: Part)
    requires e in d
    ensures d == d[e := d[e]] && ShrunkAt(d, d, e, m)
  {
  }

  /** `t` continues `t0` by dropping paths below member `m` of entry `e` only. */
  ghost predicate Dropping(t0: Trace, t: Trace, d0: Disk, wasAcked: bool, e: Entry, m: Part)
    requires e in d0
  {
    && t0.stores <= t.stores && t0.ops <= t.ops
    && |t.stores| == |t.ops| + 1
    && (forall k :: |t0.ops| <= k < |t.ops| ==> t.ops[k].Drop? && t.ops[k].entry == e)
    && (forall k :: |t0.ops| <= k < |t.stores| ==>
          ShrunkAt(d0, t.stores[k].disk, e, m) && t.stores[k].acked == wasAcked)
  }

  lemma DroppingStep(t0: Trace, t: Trace, d0: Disk, wasAcked: bool, e: Entry, m: Part, p: Path, tree: Tree)
    requires e in d0 && Dropping(t0, t, d0, wasAcked, e, m) && Shrunk(d0[e], tree, m)
    ensures Dropping(t0, Extend(t, Drop(e, p), Store(d0[e := tree], wasAcked)), d0, wasAcked, e, m)
  {
    assert d0[e := tree][e] == tree;
    assert ShrunkAt(d0, d0[e := tree], e, m);
  }

  function RustPaths(t: Tree): set<Path> { set p | p in t && UnderRust(p) }

  lemma RustPathsStep(t: Tree, p: Path)
    requires p in RustPaths(t)
    ensures RustPaths(t - {p}) == RustPaths(t) - {p}
  {
  }

  lemma DeepestIsChildless(t: Tree, p: Path)
    requires p in RustPaths(t) && forall q :: q in RustPaths(t) ==> |q| <= |p|
    ensures Childless(t, p)
  {
    forall q | q in t && |q| == |p| + 1
      ensures q[..|p|] != p
    {
      assert q[0] == q[..|p|][0];
      assert UnderRust(q) ==> q in RustPaths(t);
    }
  }

  /** A path with nothing below it, as long as there is a path at all. */
  method Deepest(t: Tree, pending: set<Path>) returns (p: Path)
    requires pending == RustPaths(t) && pending != {}
    ensures p in pending && Childless(t, p) && RustPaths(t - {p}) == pending - {p}
  {
    DeepestExists(pending);
    p :| p in pending && forall q :: q in pending ==> |q| <= |p|;
    DeepestIsChildless(t, p);
    RustPathsStep(t, p);
  }

  lemma EmptyContainer(t: Tree)
    requires RustPaths(t) == {}
    ensures Childless(t, [RustRecovery])
  {
    forall q | q in t && |q| == 2
      ensures q[..1] != [RustRecovery]
    {
      assert q !in RustPaths(t);
      assert q[0] == q[..1][0];
    }
  }

  lemma RustGone(t0: Tree, t: Tree)
    requires WellFormed(t0) && Shrunk(t0, t, RustRecovery) && RustPaths(t) == {}
    ensures t - {[RustRecovery]} == WithoutHeads(t0, {RustRecovery})
  {
    forall p | p in t && p != [RustRecovery]
      ensures p[0] != RustRecovery
    {
      assert p !in RustPaths(t);
      assert |p| == 1 ==> p == [p[0]];
    }
  }

  // ---------------------------------------------------------------- collection of one entry

  lemma FileHead(t: Tree, m: Part)
    requires WellFormed(t) && [m] in t && t[[m]].File?
    ensures t - {[m]} == WithoutHeads(t, {m})
    ensures Childless(t, [m])
  {
    FileIsChildless(t, [m]);
    forall p | p in t && p != [m]
      ensures p != [] && p[0] != m
    {
      HeadPresent(t, p);
      assert |p| == 1 ==> p == [p[0]];
    }
  }

  lemma FileDrop(t: Trace, d: Disk, wasAcked: bool, e: Entry, m: Part)
    requires |t.stores| == |t.ops| + 1 && t.stores[|t.ops|] == Store(d, wasAcked)
    requires e in d && WellFormed(d[e]) && [m] in d[e] && d[e][[m]].File?
    ensures d[e] - {[m]} == WithoutHeads(d[e], {m}) && Childless(d[e], [m])
    ensures |d[e] - {[m]}| == |d[e]| - 1
    ensures Dropping(t, Extend(t, Drop(e, [m]), Store(d[e := d[e] - {[m]}], wasAcked)), d, wasAcked, e, m)
  {
    FileHead(d[e], m);
    ShrunkStep(d[e], d[e], m, [m]);
    DroppingBegins(t, d, wasAcked, e, m);
    DroppingStep(t, t, d, wasAcked, e, m, [m], d[e] - {[m]});
  }

  lemma DroppingBegins(t: Trace, d: Disk, wasAcked: bool, e: Entry, m: Part)
    requires |t.stores| == |t.ops| + 1 && t.stores[|t.ops|] == Store(d, wasAcked) && e in d
    ensures Dropping(t, t, d, wasAcked, e, m)
  {
    Untouched(d, e, m);
  }

  lemma WithoutMore(t: Tree, done: set<Part>, m: Part)
    ensures WithoutHeads(WithoutHeads(t, done), {m}) == WithoutHeads(t, done + {m})
    ensures Within(WithoutHeads(t, done), t)
  {
  }

  lemma AllHeadsGone(t: Tree, keep: set<Part>)
    requires WellFormed(t)
    ensures forall p :: p in WithoutHeads(t, Heads(t) - keep) ==> p != [] && p[0] in keep
  {
    forall p | p in WithoutHeads(t, Heads(t) - keep)
      ensures p != [] && p[0] in keep
    {
      HeadPresent(t, p);
      assert [p[0]] in t && |[p[0]]| == 1;
      assert p[0] in Heads(t);
    }
  }

  lemma OnlyMarkerLeft(t: Tree)
    requires WellFormed(t) && HasMarker(t)
    ensures WithoutHeads(t, Heads(t) - {Marker}) == map[[Marker] := t[[Marker]]]
  {
    var left := WithoutHeads(t, Heads(t) - {Marker});
    AllHeadsGone(t, {Marker});
    FileHead(t, Marker);
    forall p | p in left
      ensures p == [Marker]
    {
      assert p != [Marker] ==> p in t - {[Marker]};
    }
    assert [Marker] in left;
  }

  /** `d` is `d0` with entry `e` partly collected, but still recognisable, or gone. */
  ghost predicate PartlyCollected(d0: Disk, d: Disk, e: Entry)
    requires e in d0
  {
    if e in d
    then d == d0[e := d[e]] && Within(d[e], d0[e]) && Resumable(d[e])
    else d == d0 - {e}
  }

  /** `t` continues `t0` by collecting entry `e` only, recognisable at every point. */
  ghost predicate Collecting(t0: Trace, t: Trace, d0: Disk, wasAcked: bool, e: Entry)
    requires e in d0
  {
    && t0.stores <= t.stores && t0.ops <= t.ops
    && |t.stores| == |t.ops| + 1
    && (forall k :: |t0.ops| <= k < |t.ops| ==> (t.ops[k].Drop? || t.ops[k].RemoveEntry?) && t.ops[k].entry == e)
    && (forall k :: |t0.ops| <= k < |t.stores| ==>
          PartlyCollected(d0, t.stores[k].disk, e) && t.stores[k].acked == wasAcked)
  }

  lemma CollectingBegins(t: Trace, d: Disk, wasAcked: bool, e: Entry)
    requires |t.stores| == |t.ops| + 1 && t.stores[|t.ops|] == Store(d, wasAcked) && e in d && Resumable(d[e])
    ensures Collecting(t, t, d, wasAcked, e) && d == d[e := d[e]]
  {
    Untouched(d, e, Marker);
    assert PartlyCollected(d, d, e);
  }

  lemma CollectingExtends(t0: Trace, t: Trace, d0: Disk, wasAcked: bool, e: Entry, op: Op, d: Disk)
    requires e in d0 && Collecting(t0, t, d0, wasAcked, e)
    requires (op.Drop? || op.RemoveEntry?) && op.entry == e && PartlyCollected(d0, d, e)
    ensures Collecting(t0, Extend(t, op, Store(d, wasAcked)), d0, wasAcked, e)
  {
  }

  lemma ShrunkIsPartlyCollected(d0: Disk, e: Entry, tree: Tree, d: Disk, m: Part)
    requires e in d0 && Owned(d0[e]) && Within(tree, d0[e]) && HasMarker(tree) && m != Marker
    requires ShrunkAt(d0[e := tree], d, e, m)
    ensures PartlyCollected(d0, d, e)
  {
    Overwrite(d0, e, tree, d[e]);
    assert Within(d[e], d0[e]);
    OwnedShrinks(d[e], d0[e]);
  }

  lemma CollectingDrops(t0: Trace, t1: Trace, t2: Trace, d0: Disk, wasAcked: bool, e: Entry, tree: Tree, m: Part)
    requires e in d0 && Owned(d0[e]) && Within(tree, d0[e]) && HasMarker(tree) && m != Marker
    requires Collecting(t0, t1, d0, wasAcked, e)
    requires Dropping(t1, t2, d0[e := tree], wasAcked, e, m)
    ensures Collecting(t0, t2, d0, wasAcked, e)
  {
    forall k | |t1.ops| <= k < |t2.stores|
      ensures PartlyCollected(d0, t2.stores[k].disk, e)
    {
      ShrunkIsPartlyCollected(d0, e, tree, t2.stores[k].disk, m);
    }
  }

  class BackupRoot {
    var disk: Disk
    /** Whether some create call has returned, and every state since this process began:
        kept so that a later process can start from any of them. */
    var acked: bool
    var trace: Trace

    ghost predicate Valid()
      reads this
    {
      && ValidTrace(trace)
      && trace.stores[|trace.ops|] == Store(disk, acked)
      && WellFormedTrace(trace)
    }

    /** Opening the directory after a restart: nothing is known but what is on disk. */
    constructor (onDisk: Disk, wasAcked: bool)
      requires WellFormedDisk(onDisk)
      ensures Valid() && disk == onDisk && acked == wasAcked
      ensures trace == Trace([Store(onDisk, wasAcked)], [])
    {
      disk := onDisk;
      acked := wasAcked;
      trace := Trace([Store(onDisk, wasAcked)], []);
    }

    /** One file operation. */
    method Do(op: Op)
      requires Valid() && Enabled(Store(disk, acked), op)
      modifies this
      ensures Valid()
      ensures Store(disk, acked) == Apply(Store(old(disk), old(acked)), op)
      ensures trace == Extend(old(trace), op, Store(disk, acked))
    {
      ExtendIsValid(trace, op);
      var next := Apply(Store(disk, acked), op);
      disk, acked := next.disk, next.acked;
      trace := Extend(trace, op, next);
    }

    /** `unlink` or `rmdir` of one path below entry `e`. */
    method DropPath(e: Entry, p: Path)
      requires Valid() && e in disk && p in disk[e] && Childless(disk[e], p)
      modifies this
      ensures Valid() && acked == old(acked)
      ensures disk == old(disk)[e := old(disk)[e] - {p}]
      ensures trace == Extend(old(trace), Drop(e, p), Store(disk, acked))
    {
      Do(Drop(e, p));
    }

    method RemoveEmpty(e: Entry)
      requires Valid() && e in disk && disk[e] == map[]
      modifies this
      ensures Valid() && acked == old(acked)
      ensures disk == old(disk) - {e}
      ensures trace == Extend(old(trace), RemoveEntry(e), Store(disk, acked))
    {
      Do(RemoveEntry(e));
    }

    /** One more path of the Rust container; the tree stays a remainder of the original. */
    method DropBelowRust(e: Entry, tree: Tree, p: Path, ghost d0: Disk, ghost from: Trace)
      requires Valid() && e in d0 && disk == d0[e := tree] && Shrunk(d0[e], tree, RustRecovery)
      requires p in tree && p != [] && p[0] == RustRecovery && Childless(tree, p)
      requires Dropping(from, trace, d0, acked, e, RustRecovery)
      modifies this
      ensures Valid() && acked == old(acked) && disk == d0[e := tree - {p}]
      ensures Shrunk(d0[e], tree - {p}, RustRecovery) && |trace.ops| == |old(trace).ops| + 1
      ensures Dropping(from, trace, d0, acked, e, RustRecovery)
    {
      ShrunkStep(d0[e], tree, RustRecovery, p);
      DroppingStep(from, trace, d0, acked, e, RustRecovery, p, tree - {p});
      Overwrite(d0, e, tree, tree - {p});
      DropPath(e, p);
    }

    /** Deepest-first removal of everything below the Rust container: no directory is removed
        while it still has children. */
    method DropRustContents(e: Entry, ghost d0: Disk, ghost from: Trace) returns (tree: Tree)
      requires Valid() && e in disk && disk == d0 && [RustRecovery] in disk[e] && WellFormed(disk[e])
      requires Dropping(from, trace, d0, acked, e, RustRecovery)
      modifies this
      ensures Valid() && acked == old(acked) && disk == d0[e := tree] && [RustRecovery] in tree && RustPaths(tree) == {}
      ensures Shrunk(d0[e], tree, RustRecovery) && |trace.ops| - |old(trace).ops| + |tree| == |d0[e]|
      ensures Dropping(from, trace, d0, acked, e, RustRecovery)
    {
      tree := disk[e];
      var pending := RustPaths(tree);
      assert disk == d0[e := tree];
      while pending != {}
        invariant Valid() && acked == old(acked) && disk == d0[e := tree]
        invariant Shrunk(d0[e], tree, RustRecovery) && [RustRecovery] in tree && pending == RustPaths(tree)
        invariant |trace.ops| - |old(trace).ops| + |tree| == |d0[e]|
        invariant Dropping(from, trace, d0, acked, e, RustRecovery)
        decreases pending
      {
        var p := Deepest(tree, pending);
        DropBelowRust(e, tree, p, d0, from);
        pending, tree := pending - {p}, tree - {p};
      }
    }

    /** The contents of the Rust container, then the container. */
    method DropRustTree(e: Entry)
      requires Valid() && e in disk && [RustRecovery] in disk[e]
      modifies this
      ensures Valid() && acked == old(acked)
      ensures disk == old(disk)[e := WithoutHeads(old(disk)[e], {RustRecovery})]
      ensures |trace.ops| - |old(trace).ops| + |disk[e]| == |old(disk)[e]|
      ensures Dropping(old(trace), trace, old(disk), old(acked), e, RustRecovery)
    {
      ghost var d0, from := disk, trace;
      assert WellFormed(d0[e]) by { assert WellFormedAt(trace, |trace.ops|); }
      Untouched(d0, e, RustRecovery);
      var tree := DropRustContents(e, d0, from);
      EmptyContainer(tree);
      RustGone(d0[e], tree);
      DropBelowRust(e, tree, [RustRecovery], d0, from);
    }

    /** Unlinks one member, or removes the Rust container if it has the owned shape. */
    method RemoveMember(e: Entry, m: Part) returns (ok: bool)
      requires Valid() && e in disk && [m] in disk[e]
      modifies this
      ensures Valid() && acked == old(acked)
      ensures ok <==> old(disk)[e][[m]].File? || (m == RustRecovery && RustOwned(old(disk)[e]))
      ensures !ok ==> disk == old(disk) && trace == old(trace)
      ensures ok ==> disk == old(disk)[e := WithoutHeads(old(disk)[e], {m})]
      ensures ok ==> |trace.ops| - |old(trace).ops| + |disk[e]| == |old(disk)[e]|
      ensures Dropping(old(trace), trace, old(disk), old(acked), e, m)
    {
      Untouched(disk, e, m);
      if disk[e][[m]].File? {
        RemoveFile(e, m);
        ok := true;
      } else if m == RustRecovery && RustOwned(disk[e]) {
        DropRustTree(e);
        ok := true;
      } else {
        ok := false;
      }
    }

    method RemoveFile(e: Entry, m: Part)
      requires Valid() && e in disk && [m] in disk[e] && disk[e][[m]].File?
      modifies this
      ensures Valid() && acked == old(acked)
      ensures disk == old(disk)[e := WithoutHeads(old(disk)[e], {m})]
      ensures |trace.ops| - |old(trace).ops| + |disk[e]| == |old(disk)[e]|
      ensures Dropping(old(trace), trace, old(disk), old(acked), e, m)
    {
      assert WellFormed(disk[e]) by { assert WellFormedAt(trace, |trace.ops|); }
      FileDrop(trace, disk, acked, e, m);
      DropPath(e, [m]);
    }

    /** Finishes one unpublished generation, keeping its marker until nothing else is
        left. Succeeds exactly on a recognisable remainder, in as many operations as
        there are entries plus one; whatever prefix of them happens, the remainder is
        recognisable again. */
    method RemoveOwnedGc(id: string) returns (ok: bool)
      requires Valid() && Gc(id) in disk
      modifies this
      ensures Valid() && acked == old(acked)
      ensures ok <==> IsSetId(id) && Resumable(old(disk)[Gc(id)])
      ensures !ok ==> disk == old(disk) && trace == old(trace)
      ensures ok ==> disk == old(disk) - {Gc(id)}
      ensures ok ==> |trace.ops| == |old(trace).ops| + |old(disk)[Gc(id)]| + 1
      ensures ok ==> Collecting(old(trace), trace, old(disk), old(acked), Gc(id))
    {
      var e := Gc(id);
      if !IsSetId(id) || !(disk[e] == map[] || (HasMarker(disk[e]) && Owned(disk[e]))) { return false; }
      ghost var d0 := disk;
      CollectingBegins(trace, disk, acked, e);
      if disk[e] != map[] { CollectMembers(e); }
      RemoveLast(e, d0, old(trace));
      ok := true;
    }

    /** The collection loop: every member but the marker in any order, then the marker. */
    method CollectMembers(e: Entry)
      requires Valid() && e in disk && HasMarker(disk[e]) && Owned(disk[e])
      modifies this
      ensures Valid() && acked == old(acked) && disk == old(disk)[e := map[]]
      ensures |trace.ops| == |old(trace).ops| + |old(disk)[e]|
      ensures Collecting(old(trace), trace, old(disk), acked, e)
    {
      ghost var d0, t0 := disk, disk[e];
      CollectingBegins(trace, disk, acked, e);
      assert WellFormed(t0) by { assert WellFormedAt(trace, |trace.ops|); }
      CollectAllButMarker(e, d0, trace);
      OnlyMarkerLeft(t0);
      Overwrite(d0, e, WithoutHeads(t0, Heads(t0) - {Marker}), map[]);
      RemoveMarker(e, d0, disk[e], old(trace));
    }

    method CollectAllButMarker(e: Entry, ghost d0: Disk, ghost from: Trace)
      requires Valid() && e in disk && disk == d0 && WellFormed(disk[e]) && HasMarker(disk[e]) && Owned(disk[e])
      requires Collecting(from, trace, d0, acked, e)
      modifies this
      ensures Valid() && acked == old(acked)
      ensures disk == d0[e := WithoutHeads(d0[e], Heads(d0[e]) - {Marker})]
      ensures |trace.ops| - |old(trace).ops| + |disk[e]| == |d0[e]|
      ensures Collecting(from, trace, d0, acked, e)
    {
      ghost var t0 := disk[e];
      var tree := disk[e];
      assert disk == d0[e := tree];
      var pending := Heads(tree) - {Marker};
      ghost var done: set<Part> := {};
      assert tree == WithoutHeads(t0, done);
      while pending != {}
        invariant Valid() && acked == old(acked)
        invariant disk == d0[e := tree] && tree == WithoutHeads(t0, done)
        invariant pending == Heads(t0) - {Marker} - done && done <= Heads(t0) - {Marker}
        invariant |trace.ops| - |old(trace).ops| + |tree| == |t0|
        invariant Collecting(from, trace, d0, acked, e)
        decreases pending
      {
        var m :| m in pending;
        RemoveGcMember(e, m, d0, t0, done, tree, from);
        pending, done, tree := pending - {m}, done + {m}, WithoutHeads(tree, {m});
      }
      assert done == Heads(t0) - {Marker};
    }

    /** One iteration of the collection loop. */
    method RemoveGcMember(e: Entry, m: Part, ghost d0: Disk, ghost t0: Tree, ghost done: set<Part>, tree: Tree,
                          ghost from: Trace)
      requires Valid() && e in d0 && d0[e] == t0 && disk == d0[e := tree] && tree == WithoutHeads(t0, done)
      requires WellFormed(t0) && HasMarker(t0) && Owned(t0) && m in Heads(t0) && m != Marker && m !in done
        && Marker !in done
      requires Collecting(from, trace, d0, acked, e)
      modifies this
      ensures Valid() && acked == old(acked)
      ensures disk == d0[e := WithoutHeads(tree, {m})]
      ensures WithoutHeads(tree, {m}) == WithoutHeads(t0, done + {m})
      ensures |trace.ops| - |old(trace).ops| + |WithoutHeads(tree, {m})| == |tree|
      ensures Collecting(from, trace, d0, acked, e)
    {
      WithoutMore(t0, done, m);
      OwnedShrinks(tree, t0);
      assert [m] in t0 by { var p :| p in t0 && |p| == 1 && p[0] == m; assert p == [m]; }
      assert [m] in tree;
      Overwrite(d0, e, tree, WithoutHeads(tree, {m}));
      ghost var before := trace;
      var ok := RemoveMember(e, m);
      assert ok;
      CollectingDrops(from, before, trace, d0, acked, e, tree, m);
    }

    method RemoveMarker(e: Entry, ghost d0: Disk, tree: Tree, ghost from: Trace)
      requires Valid() && e in d0 && disk == d0[e := tree] && HasMarker(tree) && tree == map[[Marker] := tree[[Marker]]]
      requires Collecting(from, trace, d0, acked, e)
      modifies this
      ensures Valid() && acked == old(acked) && disk == d0[e := map[]]
      ensures |trace.ops| == |old(trace).ops| + 1
      ensures Collecting(from, trace, d0, acked, e)
    {
      Overwrite(d0, e, tree, map[]);
      assert tree - {[Marker]} == map[];
      assert Childless(tree, [Marker]);
      CollectingExtends(from, trace, d0, acked, e, Drop(e, [Marker]), d0[e := map[]]);
      DropPath(e, [Marker]);
    }

    method RemoveLast(e: Entry, ghost d0: Disk, ghost from: Trace)
      requires Valid() && e in d0 && disk == d0[e := map[]]
      requires Collecting(from, trace, d0, acked, e)
      modifies this
      ensures Valid() && acked == old(acked) && disk == d0 - {e}
      ensures |trace.ops| == |old(trace).ops| + 1
      ensures Collecting(from, trace, d0, acked, e)
    {
      assert d0[e := map[]] - {e} == d0 - {e};
      CollectingExtends(from, trace, d0, acked, e, RemoveEntry(e), d0 - {e});
      RemoveEmpty(e);
    }
  }
}
