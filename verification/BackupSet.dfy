/** The on-disk vocabulary of split-store backup sets: generation directories, what it
    means for one to verify, which trees the cleanup code recognises as its own, and the
    file operations the backup code performs. */
module BackupSet {

  datatype Role = State | Audit | Research

  /** One component of a file name below a generation directory, already parsed.
      `AtomicJsonTemp` is the temporary sibling of a JSON file being replaced; it and
      `Unlisted` are the names outside the cleanup allow-list. */
  datatype Part =
    | Marker
    | DatabaseTemp(role: Role, stem: string)
    | Image(role: Role, stem: string)
    | ImageManifest(role: Role, stem: string)
    | SetManifest(id: string)
    | LiveConfig
    | MigrationManifest
    | AtomicJsonTemp(target: string, random: string)
    | RustRecovery
    | Generation(name: string)
    | ManifestJson
    | Members
    | PrivateStreamCursors
    | ExecutionFile(index: nat)
    | CursorFile(index: nat)
    | Unlisted(text: string)

  type Path = seq<Part>

  datatype Blob =
    | Stamp(time: int)
    | SetManifestJson(record: SetRecord)
    | Payload(text: string)

  datatype Node =
    | File(blob: Blob, size: nat, mtime: int)
    | Directory

  type Tree = map<Path, Node>

  /** A shallow verification compares content for manifests and recovery files and only
      the size of a database image. */
  datatype Evidence = SameContent(blob: Blob) | SameSize(size: nat)

  datatype SourceRecord = SourceRecord(manifest: Path, image: Path, createdAt: int)

  /** Times are microseconds since the epoch; the Rust timestamp is in milliseconds. */
  datatype SetRecord = SetRecord(
    setId: string,
    startedAt: int,
    completedAt: int,
    sources: map<Role, SourceRecord>,
    rustCreatedAtMs: int,
    members: map<Path, Evidence>)

  datatype Entry =
    | Staging(uuid: string)
    | Published(id: string)
    | Gc(id: string)
    | Foreign(name: string)

  type Disk = map<Entry, Tree>

  const MAX_SOURCE_SKEW := 900_000_000
  const MINIMUM_STAGING_AGE := 60_000_000

  // ---------------------------------------------------------------- set identifiers

  predicate IsDigit(c: char) { '0' <= c <= '9' }

  predicate IsHex(c: char) { IsDigit(c) || 'a' <= c <= 'f' }

  /** `YYYYMMDDTHHMMSS.ffffffZ-` followed by 32 lower-case hexadecimal digits. */
  predicate IsSetId(id: string) {
    && |id| == 56
    && id[8] == 'T' && id[15] == '.' && id[22] == 'Z' && id[23] == '-'
    && (forall i :: 0 <= i < 22 && i != 8 && i != 15 ==> IsDigit(id[i]))
    && (forall i :: 24 <= i < 56 ==> IsHex(id[i]))
  }

  // ---------------------------------------------------------------- verification

  /** Python's floor of a microsecond instant to whole milliseconds. */
  function Milliseconds(instant: int): (ms: int) { instant / 1000 }

  predicate RustTimestampOk(createdAtMs: int, startedAt: int, completedAt: int) {
    startedAt <= completedAt && Milliseconds(startedAt) <= createdAtMs <= Milliseconds(completedAt)
  }

  /** Instant `t` is one the recorded millisecond may denote, and lies in the window. */
  ghost predicate DenotedInside(t: int, createdAtMs: int, startedAt: int, completedAt: int) {
    1000 * createdAtMs <= t < 1000 * createdAtMs + 1000 && startedAt <= t <= completedAt
  }

  /** Comparing at millisecond precision accepts exactly the recorded milliseconds some
      instant of which lies inside the set window: no skew is admitted on either side. */
  lemma RustTimestampIsOverlap(createdAtMs: int, startedAt: int, completedAt: int)
    ensures RustTimestampOk(createdAtMs, startedAt, completedAt) <==>
            exists t :: DenotedInside(t, createdAtMs, startedAt, completedAt)
  {
    if RustTimestampOk(createdAtMs, startedAt, completedAt) {
      var t := if 1000 * createdAtMs <= startedAt then startedAt else 1000 * createdAtMs;
      assert DenotedInside(t, createdAtMs, startedAt, completedAt);
    }
  }

  predicate RecordOk(r: SetRecord) {
    && IsSetId(r.setId)
    && r.startedAt <= r.completedAt
    && r.sources.Keys == {State, Audit, Research}
    && (forall role :: role in r.sources ==> r.startedAt <= r.sources[role].createdAt <= r.completedAt)
    && (forall a, b :: a in r.sources && b in r.sources ==>
          r.sources[a].createdAt - r.sources[b].createdAt <= MAX_SOURCE_SKEW)
    && (forall role :: role in r.sources ==>
          && r.sources[role].manifest in r.members && r.members[r.sources[role].manifest].SameContent?
          && r.sources[role].image in r.members && r.members[r.sources[role].image].SameSize?)
    && [LiveConfig] in r.members && r.members[[LiveConfig]].SameContent?
    && RustTimestampOk(r.rustCreatedAtMs, r.startedAt, r.completedAt)
  }

  predicate EvidenceHolds(e: Evidence, n: Node) {
    match e
    case SameContent(blob) => n.File? && n.blob == blob
    case SameSize(size) => n.File? && n.size == size
  }

  function Files(t: Tree): set<Path> { set p | p in t && t[p].File? }

  function RecordOf(t: Tree, id: string): SetRecord
    requires [SetManifest(id)] in t && t[[SetManifest(id)]].File? && t[[SetManifest(id)]].blob.SetManifestJson?
  {
    t[[SetManifest(id)]].blob.record
  }

  predicate HasMarker(t: Tree) { [Marker] in t && t[[Marker]].File? }

  predicate HasManifest(t: Tree, id: string) {
    && [SetManifest(id)] in t && t[[SetManifest(id)]].File? && t[[SetManifest(id)]].blob.SetManifestJson?
  }

  /** The completeness predicate of a generation directory (shallow form). */
  predicate VerifiedTree(t: Tree, id: string) {
    && HasManifest(t, id)
    && HasMarker(t)
    && var r := RecordOf(t, id);
    && r.setId == id
    && RecordOk(r)
    && [RustRecovery] in t && t[[RustRecovery]].Directory?
    && Files(t) == r.members.Keys + {[Marker], [SetManifest(id)]}
    && (forall p :: p in r.members ==> p in t && EvidenceHolds(r.members[p], t[p]))
  }

  predicate Verified(d: Disk, id: string) {
    Published(id) in d && VerifiedTree(d[Published(id)], id)
  }

  ghost predicate HasVerified(d: Disk) { exists id :: Verified(d, id) }

  ghost predicate VerifiedBeside(d: Disk, id: string) { exists other :: other != id && Verified(d, other) }

  function CompletedAt(d: Disk, id: string): int
    requires Verified(d, id)
  {
    RecordOf(d[Published(id)], id).completedAt
  }

  // ---------------------------------------------------------------- ownership

  predicate IsListed(part: Part) {
    part.Marker? || part.DatabaseTemp? || part.Image? || part.ImageManifest? || part.SetManifest?
    || part.LiveConfig? || part.MigrationManifest?
  }

  /** `p` is relative to the Rust container, so `p[0]` names the generation. */
  predicate OwnedRustPath(p: Path, n: Node) {
    && |p| > 0 && p[0].Generation?
    && match n
       case Directory => p[1..] in {[], [Members], [Members, PrivateStreamCursors]}
       case File(_, _, _) =>
         || p[1..] == [ManifestJson]
         || (|p| == 3 && p[1] == Members && p[2].ExecutionFile?)
         || (|p| == 4 && p[1] == Members && p[2] == PrivateStreamCursors && p[3].CursorFile?)
  }

  predicate UnderRust(p: Path) { |p| > 1 && p[0] == RustRecovery }

  predicate SoleGeneration(t: Tree, p: Path)
    requires UnderRust(p)
  {
    forall q :: q in t && UnderRust(q) ==> q[1] == p[1]
  }

  /** The exact, possibly partial, shape of one copied Rust generation. */
  predicate RustOwned(t: Tree) {
    && (forall p :: p in t && UnderRust(p) ==> OwnedRustPath(p[1..], t[p]))
    && (forall p :: p in t && UnderRust(p) ==> SoleGeneration(t, p))
  }

  predicate TopOwned(t: Tree) {
    forall p :: p in t && |p| == 1 ==> if t[p].File? then IsListed(p[0]) else p[0] == RustRecovery
  }

  /** Every member may be deleted by a cleanup. */
  predicate Owned(t: Tree) { TopOwned(t) && RustOwned(t) }

  /** What an interrupted collection may leave behind and still be finished later. */
  predicate Resumable(t: Tree) { t == map[] || (HasMarker(t) && Owned(t)) }

  /** Start time recorded by a staging marker, or its modification time when the
      content was lost. */
  function MarkerTime(n: Node): int
    requires n.File?
  {
    if n.blob.Stamp? then n.blob.time else n.mtime
  }

  predicate Reclaimable(t: Tree, now: int) {
    && HasMarker(t)
    && now - MarkerTime(t[[Marker]]) >= MINIMUM_STAGING_AGE
    && Owned(t)
  }

  /** Every entry lies below a directory of the tree. */
  predicate WellFormed(t: Tree) {
    && [] !in t
    && forall p :: p in t && |p| > 1 ==> p[..|p| - 1] in t && t[p[..|p| - 1]].Directory?
  }

  predicate WellFormedDisk(d: Disk) { forall e :: e in d ==> WellFormed(d[e]) }

  predicate Within(small: Tree, big: Tree) {
    forall p :: p in small ==> p in big && small[p] == big[p]
  }

  /** Ownership is closed under removing members in any order. */
  lemma OwnedShrinks(small: Tree, big: Tree)
    requires Within(small, big) && Owned(big)
    ensures Owned(small)
  {
    forall p | p in small && UnderRust(p)
      ensures SoleGeneration(small, p)
    {
      assert SoleGeneration(big, p);
    }
  }

  // ---------------------------------------------------------------- file operations

  /** `acked` records that some create call has returned normally. */
  datatype Store = Store(disk: Disk, acked: bool)

  datatype Op =
    | Stage(uuid: string)
    | Put(uuid: string, path: Path, node: Node)
    | Move(uuid: string, source: Path, target: Path)
    | Publish(uuid: string, id: string)
    | Retire(id: string)
    | Drop(entry: Entry, path: Path)
    | RemoveEntry(entry: Entry)
    | Acknowledge(id: string)

  predicate ParentOk(t: Tree, p: Path) {
    p != [] && (|p| > 1 ==> p[..|p| - 1] in t && t[p[..|p| - 1]].Directory?)
  }

  predicate Childless(t: Tree, p: Path) {
    forall q :: q in t && |q| == |p| + 1 ==> q[..|p|] != p
  }

  /** The operating-system call succeeds. */
  predicate Enabled(s: Store, op: Op) {
    match op
    case Stage(u) => Staging(u) !in s.disk
    case Put(u, p, n) =>
      Staging(u) in s.disk && ParentOk(s.disk[Staging(u)], p)
      && (p in s.disk[Staging(u)] ==> n.File? && s.disk[Staging(u)][p].File?)
    case Move(u, p, q) =>
      Staging(u) in s.disk && p in s.disk[Staging(u)] && s.disk[Staging(u)][p].File? && p != q
      && ParentOk(s.disk[Staging(u)], q)
      && (q in s.disk[Staging(u)] ==> s.disk[Staging(u)][q].File?)
    case Publish(u, id) => Staging(u) in s.disk && Published(id) !in s.disk
    case Retire(id) => Published(id) in s.disk && Gc(id) !in s.disk
    case Drop(e, p) => e in s.disk && p in s.disk[e] && Childless(s.disk[e], p)
    case RemoveEntry(e) => e in s.disk && s.disk[e] == map[]
    case Acknowledge(id) => true
  }

  function Apply(s: Store, op: Op): (r: Store)
    requires Enabled(s, op)
  {
    match op
    case Stage(u) => s.(disk := s.disk[Staging(u) := map[]])
    case Put(u, p, n) => s.(disk := s.disk[Staging(u) := s.disk[Staging(u)][p := n]])
    case Move(u, p, q) =>
      var t := s.disk[Staging(u)];
      s.(disk := s.disk[Staging(u) := (t - {p})[q := t[p]]])
    case Publish(u, id) => s.(disk := (s.disk - {Staging(u)})[Published(id) := s.disk[Staging(u)]])
    case Retire(id) => s.(disk := (s.disk - {Published(id)})[Gc(id) := s.disk[Published(id)]])
    case Drop(e, p) => s.(disk := s.disk[e := s.disk[e] - {p}])
    case RemoveEntry(e) => s.(disk := s.disk - {e})
    case Acknowledge(id) => s.(acked := true)
  }

  /** The caution each destructive step must observe. */
  ghost predicate Guard(s: Store, op: Op) {
    match op
    case Retire(id) => s.acked ==> VerifiedBeside(s.disk, id)
    case Drop(e, _) => e.Published? && s.acked ==> VerifiedBeside(s.disk, e.id)
    case RemoveEntry(e) => e.Published? && s.acked ==> VerifiedBeside(s.disk, e.id)
    case Acknowledge(id) => Verified(s.disk, id)
    case _ => true
  }

  ghost predicate Safe(s: Store) { s.acked ==> HasVerified(s.disk) }

  lemma PutKeepsWellFormed(t: Tree, p: Path, n: Node)
    requires WellFormed(t) && ParentOk(t, p) && (p in t ==> t[p].File? && n.File?)
    ensures WellFormed(t[p := n])
  {
  }

  lemma DropKeepsWellFormed(t: Tree, p: Path)
    requires WellFormed(t) && Childless(t, p)
    ensures WellFormed(t - {p})
  {
    forall q | q in t - {p} && |q| > 1
      ensures q[..|q| - 1] in t - {p}
    {
      assert |q| == |p| + 1 ==> q[..|p|] != p;
    }
  }

  lemma FileIsChildless(t: Tree, p: Path)
    requires WellFormed(t) && p in t && t[p].File?
    ensures Childless(t, p)
  {
    forall q | q in t && |q| == |p| + 1
      ensures q[..|p|] != p
    {
      assert p != [];
      assert q[..|q| - 1] in t;
    }
  }

  lemma MoveKeepsWellFormed(t: Tree, p: Path, q: Path)
    requires WellFormed(t) && p in t && t[p].File? && ParentOk(t, q) && p != q && (q in t ==> t[q].File?)
    ensures WellFormed((t - {p})[q := t[p]])
  {
    FileIsChildless(t, p);
    DropKeepsWellFormed(t, p);
    PutKeepsWellFormed(t - {p}, q, t[p]);
  }

  lemma WithTree(d: Disk, e: Entry, t: Tree)
    requires WellFormedDisk(d) && WellFormed(t)
    ensures WellFormedDisk(d[e := t])
  {
  }

  lemma WithoutEntry(d: Disk, e: Entry)
    requires WellFormedDisk(d)
    ensures WellFormedDisk(d - {e})
  {
  }

  lemma ApplyKeepsWellFormed(s: Store, op: Op)
    requires Enabled(s, op) && WellFormedDisk(s.disk)
    ensures WellFormedDisk(Apply(s, op).disk)
  {
    var d := s.disk;
    match op
    case Stage(u) =>
      WithTree(d, Staging(u), map[]);
    case Put(u, p, n) =>
      PutKeepsWellFormed(d[Staging(u)], p, n);
      WithTree(d, Staging(u), d[Staging(u)][p := n]);
    case Move(u, p, q) =>
      MoveKeepsWellFormed(d[Staging(u)], p, q);
      WithTree(d, Staging(u), (d[Staging(u)] - {p})[q := d[Staging(u)][p]]);
    case Publish(u, id) =>
      WithoutEntry(d, Staging(u));
      WithTree(d - {Staging(u)}, Published(id), d[Staging(u)]);
    case Retire(id) =>
      WithoutEntry(d, Published(id));
      WithTree(d - {Published(id)}, Gc(id), d[Published(id)]);
    case Drop(e, p) =>
      DropKeepsWellFormed(d[e], p);
      WithTree(d, e, d[e] - {p});
    case RemoveEntry(e) =>
      WithoutEntry(d, e);
    case Acknowledge(id) =>
  }

  lemma SameTreeVerifies(d: Disk, r: Disk, id: string)
    requires Verified(d, id) && Published(id) in r && r[Published(id)] == d[Published(id)]
    ensures HasVerified(r)
  {
    assert Verified(r, id);
  }

  predicate Touches(op: Op, id: string) {
    || (op.Retire? && op.id == id)
    || ((op.Drop? || op.RemoveEntry?) && op.entry == Published(id))
  }

  lemma UntouchedStays(s: Store, op: Op, id: string)
    requires Enabled(s, op) && Published(id) in s.disk && !Touches(op, id)
    ensures Published(id) in Apply(s, op).disk
    ensures Apply(s, op).disk[Published(id)] == s.disk[Published(id)]
  {
  }

  lemma UntouchedVerifies(s: Store, op: Op, keep: string)
    requires Enabled(s, op) && Verified(s.disk, keep) && !Touches(op, keep)
    ensures Verified(Apply(s, op).disk, keep)
  {
    UntouchedStays(s, op, keep);
    SameTreeVerifies(s.disk, Apply(s, op).disk, keep);
  }

  lemma GuardLeavesOne(s: Store, op: Op) returns (keep: string)
    requires Guard(s, op) && HasVerified(s.disk) && s.acked && !op.Acknowledge?
    ensures Verified(s.disk, keep) && !Touches(op, keep)
  {
    keep :| Verified(s.disk, keep) && !Touches(op, keep);
  }

  /** No guarded operation can leave an acknowledged directory without a verified set. */
  lemma GuardKeepsSafe(s: Store, op: Op)
    requires Enabled(s, op) && Guard(s, op) && Safe(s)
    ensures Safe(Apply(s, op))
  {
    if s.acked && !op.Acknowledge? {
      var keep := GuardLeavesOne(s, op);
      UntouchedVerifies(s, op, keep);
    }
  }

  // ---------------------------------------------------------------- runs and crashes

  /** What one process did to the directory: the stores it went through, in order. */
  datatype Trace = Trace(stores: seq<Store>, ops: seq<Op>)

  ghost predicate StepAt(t: Trace, k: nat)
    requires k < |t.ops| && k + 1 < |t.stores|
  {
    Enabled(t.stores[k], t.ops[k]) && t.stores[k + 1] == Apply(t.stores[k], t.ops[k])
  }

  ghost predicate ValidTrace(t: Trace) {
    && |t.stores| == |t.ops| + 1
    && forall k :: 0 <= k < |t.ops| ==> StepAt(t, k)
  }

  ghost predicate GuardAt(t: Trace, k: nat)
    requires k < |t.ops| && k < |t.stores|
  {
    Guard(t.stores[k], t.ops[k])
  }

  ghost predicate GuardedFrom(t: Trace, from: nat)
    requires |t.stores| == |t.ops| + 1
  {
    forall k :: from <= k < |t.ops| ==> GuardAt(t, k)
  }

  ghost predicate WellFormedAt(t: Trace, k: nat)
    requires k < |t.stores|
  {
    WellFormedDisk(t.stores[k].disk)
  }

  ghost predicate WellFormedTrace(t: Trace) { forall k :: 0 <= k < |t.stores| ==> WellFormedAt(t, k) }

  function Extend(t: Trace, op: Op, s: Store): Trace { Trace(t.stores + [s], t.ops + [op]) }

  lemma ExtendIsValid(t: Trace, op: Op)
    requires ValidTrace(t) && WellFormedTrace(t) && Enabled(t.stores[|t.ops|], op)
    ensures ValidTrace(Extend(t, op, Apply(t.stores[|t.ops|], op)))
    ensures WellFormedTrace(Extend(t, op, Apply(t.stores[|t.ops|], op)))
  {
    var last := t.stores[|t.ops|];
    var r := Extend(t, op, Apply(last, op));
    forall k | 0 <= k < |r.ops|
      ensures StepAt(r, k)
    {
      if k < |t.ops| { assert StepAt(t, k); }
    }
    forall k | 0 <= k < |r.stores|
      ensures WellFormedAt(r, k)
    {
      if k < |t.stores| { assert WellFormedAt(t, k); } else {
        assert WellFormedAt(t, |t.ops|);
        ApplyKeepsWellFormed(last, op);
      }
    }
  }

  lemma {:induction false} TraceStaysSafe(t: Trace, from: nat, k: nat)
    requires ValidTrace(t) && GuardedFrom(t, from) && from <= k < |t.stores| && Safe(t.stores[from])
    ensures Safe(t.stores[k])
    decreases k
  {
    if k > from {
      TraceStaysSafe(t, from, k - 1);
      assert StepAt(t, k - 1) && GuardAt(t, k - 1);
      GuardKeepsSafe(t.stores[k - 1], t.ops[k - 1]);
    }
  }

  /** What a process promises: from a safe store it takes only guarded steps. */
  ghost predicate CautiousRun(t: Trace) {
    ValidTrace(t) && (Safe(t.stores[0]) ==> GuardedFrom(t, 0))
  }

  /** Each process starts from whatever store an earlier one left when it stopped, which
      may be any store it ever went through. */
  ghost predicate CrashChain(runs: seq<Trace>) {
    && (forall i :: 0 <= i < |runs| ==> CautiousRun(runs[i]))
    && forall i :: 0 < i < |runs| ==> runs[i].stores[0] in runs[i - 1].stores
  }

  /** Survival over every run: processes may stop between any two file operations and be
      followed by any number of further processes; from the moment one create call has
      returned, every store ever reached holds a published set that verifies. */
  lemma {:induction false} EveryCrashKeepsAVerifiedSet(runs: seq<Trace>, i: nat, k: nat)
    requires CrashChain(runs) && i < |runs| && k < |runs[i].stores|
    requires Safe(runs[0].stores[0])
    ensures Safe(runs[i].stores[k])
    decreases i
  {
    assert CautiousRun(runs[i]);
    if i > 0 {
      assert CautiousRun(runs[i - 1]);
      var j :| 0 <= j < |runs[i - 1].stores| && runs[i - 1].stores[j] == runs[i].stores[0];
      EveryCrashKeepsAVerifiedSet(runs, i - 1, j);
    }
    TraceStaysSafe(runs[i], 0, k);
  }

  /** Acknowledgement is never withdrawn, so safety covers the rest of the run. */
  lemma {:induction false} AcknowledgementPersists(t: Trace, i: nat, k: nat)
    requires ValidTrace(t) && i <= k < |t.stores| && t.stores[i].acked
    ensures t.stores[k].acked
    decreases k
  {
    if i < k {
      AcknowledgementPersists(t, i, k - 1);
      assert StepAt(t, k - 1);
    }
  }
}
