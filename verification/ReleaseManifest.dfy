/** Release packages: the manifest written for a tree of files, and the check of a tree
    against a manifest.  Development packages, which carry no whole-manifest signature. */
module ReleaseManifest {
  import opened Text
  import opened Wrappers

  /** A path below the root, part by part; a checksum stands for the content itself. */
  type Path = seq<string>
  datatype File = File(size: nat, content: int)
  type Tree = map<Path, File>

  const MANIFEST_PATH: Path := ["release-manifest.json"]
  const SIGNATURE_PATH: Path := ["signatures", "release-manifest.sig"]
  const APPLICATION_MAX_BYTES := 200_000_000

  predicate IsControl(p: Path) { p == MANIFEST_PATH || p == SIGNATURE_PATH }

  /** The package: every file but the two that describe it. */
  function Package(t: Tree): Tree { map p | p in t && !IsControl(p) :: t[p] }

  predicate HasBackslash(p: Path) { exists i :: 0 <= i < |p| && '\\' in p[i] }

  /** A path as a directory walk yields it. */
  predicate Walked(p: Path) {
    p != [] && forall i :: 0 <= i < |p| ==> p[i] != "" && p[i] != "." && p[i] != ".." && '/' !in p[i]
  }

  /** What the verifier admits as a path of the inventory. */
  predicate SafePath(p: Path) { Walked(p) && !HasBackslash(p) && !IsControl(p) }

  datatype Record = Record(path: Path, file: File)

  function Total(records: seq<Record>): nat {
    if records == [] then 0 else Total(records[..|records| - 1]) + records[|records| - 1].file.size
  }

  predicate IsWheel(p: Path) { |p| > 1 && p[0] == "wheelhouse" }

  function WheelTotal(records: seq<Record>): nat {
    if records == [] then 0 else
      WheelTotal(records[..|records| - 1])
        + (if IsWheel(records[|records| - 1].path) then records[|records| - 1].file.size else 0)
  }

  /** One record for every file of the package, and nothing else. */
  ghost predicate Inventories(records: seq<Record>, package: Tree) {
    && (forall i, j :: 0 <= i < j < |records| ==> records[i].path != records[j].path)
    && (forall i :: 0 <= i < |records| ==> records[i].path in package && package[records[i].path] == records[i].file)
    && (forall p :: p in package ==> exists i :: 0 <= i < |records| && records[i].path == p)
  }

  // ---------------------------------------------------------------- what is read off a package

  datatype Processes = Processes(manifestPath: Path, rustPath: Path)
  datatype Wheels = Wheels(wheels: nat, requirements: nat)
  datatype Format = Pe | Elf
  datatype Executable = Executable(format: Format, machine: string)

  /** Parsers this model does not look into: the process manifest, the wheelhouse against its
      pinned requirements, the optional wheelhouse lock, an executable's header, a detached
      signature, and the reviewed Python version. */
  datatype Parsers = Parsers(
    processes: Tree -> Option<Processes>,
    wheels: Tree -> Option<Wheels>,
    lock: Tree -> Option<string>,
    executable: int -> Option<Executable>,
    detached: (Tree, Path, Path, string) -> bool,
    reviewed: string -> bool)

  datatype Signer = Signer(status: string, thumbprint: string, subject: string, scheme: string, fingerprint: string,
                           signature: Option<Path>, publicKey: Option<Path>)

  datatype RustRecord = RustRecord(path: Path, file: File, executable: Executable, scheme: string, status: string,
                                   fingerprint: string, subject: string, thumbprint: string)

  datatype Manifest = Manifest(python: string, rust: string, offline: bool, lock: string, requirements: nat,
                               processPath: Path, binary: RustRecord, applicationBytes: nat, wheelhouseBytes: nat,
                               fileCount: nat, totalBytes: nat, files: seq<Record>)

  datatype Request = Request(python: string, rust: string, requireWheelhouse: bool, signer: Signer)

  function Or(given: string, otherwise: string): string { if given == "" then otherwise else given }

  function SchemeOf(s: Signer, format: Format): string {
    Or(Lower(Strip(s.scheme)), if format.Pe? then "authenticode" else "openssl-sha256")
  }

  function FingerprintOf(s: Signer, format: Format): string {
    if format.Pe? then Or(Lower(Strip(s.fingerprint)), Lower(Upper(Strip(s.thumbprint))))
      else Lower(Strip(s.fingerprint))
  }

  /** The signature files of a Linux package must be there and verify, if both are named. */
  predicate SignerOk(parsers: Parsers, package: Tree, s: Signer, format: Format) {
    && (s.signature.Some? ==> SafePath(s.signature.value)) && (s.publicKey.Some? ==> SafePath(s.publicKey.value))
    && (format.Elf? && s.signature.Some? && s.publicKey.Some? ==>
          && s.signature.value in package && s.publicKey.value in package
          && parsers.detached(package, s.signature.value, s.publicKey.value, FingerprintOf(s, format)))
  }

  function RustRecordOf(path: Path, file: File, e: Executable, s: Signer): RustRecord {
    RustRecord(path, file, e, SchemeOf(s, e.format), Strip(s.status), FingerprintOf(s, e.format), Strip(s.subject),
               Upper(Strip(s.thumbprint)))
  }

  // ---------------------------------------------------------------- creating

  /** What creation demands of the package before it writes anything. */
  predicate Creatable(parsers: Parsers, package: Tree, r: Request) {
    && parsers.reviewed(r.python)
    && parsers.processes(package).Some?
    && parsers.wheels(package).Some? && (r.requireWheelhouse ==> parsers.wheels(package).value.wheels > 0)
    && parsers.lock(package).Some?
    && var rust := parsers.processes(package).value.rustPath;
       && rust in package && parsers.executable(package[rust].content).Some?
       && SignerOk(parsers, package, r.signer, parsers.executable(package[rust].content).value.format)
  }

  /** The manifest of a package, given its inventory. */
  function ManifestOf(parsers: Parsers, package: Tree, r: Request, files: seq<Record>): Manifest
    requires Creatable(parsers, package, r)
  {
    var processes := parsers.processes(package).value;
    var wheels := parsers.wheels(package).value;
    var binary := package[processes.rustPath];
    Manifest(r.python, r.rust, wheels.wheels > 0, parsers.lock(package).value, wheels.requirements,
             processes.manifestPath,
             RustRecordOf(processes.rustPath, binary, parsers.executable(binary.content).value, r.signer),
             Total(files), WheelTotal(files), |files|, Total(files), files)
  }

  function Part(package: Tree, done: set<Path>): Tree { map p | p in package && p in done :: package[p] }

  ghost predicate Listed(records: seq<Record>, package: Tree, done: set<Path>) {
    && done <= package.Keys
    && Inventories(records, Part(package, done))
  }

  lemma ListOne(records: seq<Record>, package: Tree, done: set<Path>, p: Path)
    requires Listed(records, package, done) && p in package && p !in done
    ensures Listed(records + [Record(p, package[p])], package, done + {p})
  {
    var more := records + [Record(p, package[p])];
    forall q | q in done + {p} ensures exists i :: 0 <= i < |more| && more[i].path == q {
      if q == p {
        assert more[|records|].path == p;
      } else {
        assert q in Part(package, done);
        var i :| 0 <= i < |records| && records[i].path == q;
        assert more[i].path == q;
      }
    }
  }

  /** One record per file, with the byte totals. */
  method TakeInventory(package: Tree) returns (files: seq<Record>, total: nat, wheels: nat)
    ensures Inventories(files, package) && total == Total(files) && wheels == WheelTotal(files)
  {
    files, total, wheels := [], 0, 0;
    var done: set<Path> := {};
    while package.Keys - done != {}
      invariant Listed(files, package, done) && total == Total(files) && wheels == WheelTotal(files)
      decreases package.Keys - done
    {
      var p :| p in package.Keys - done;
      ListOne(files, package, done, p);
      ghost var before := files;
      files := files + [Record(p, package[p])];
      assert files[..|files| - 1] == before;
      total := total + package[p].size;
      if IsWheel(p) { wheels := wheels + package[p].size; }
      done := done + {p};
    }
    forall p | p in package ensures p in done { assert p !in package.Keys - done; }
    assert Part(package, done) == package;
  }

  /** Writes a manifest beside an acceptable package that fits the size limit. */
  method CreateManifest(parsers: Parsers, tree: Tree, r: Request) returns (m: Option<Manifest>)
    ensures m.Some? ==> Creatable(parsers, Package(tree), r) && Inventories(m.value.files, Package(tree))
    ensures m.Some? ==>
      m.value == ManifestOf(parsers, Package(tree), r, m.value.files) && m.value.totalBytes <= APPLICATION_MAX_BYTES
    ensures m.None? && Creatable(parsers, Package(tree), r) ==>
      exists files :: Inventories(files, Package(tree)) && Total(files) > APPLICATION_MAX_BYTES
  {
    var package := Package(tree);
    if !Creatable(parsers, package, r) { return None; }
    var files, total, wheels := TakeInventory(package);
    if total > APPLICATION_MAX_BYTES { return None; }
    m := Some(ManifestOf(parsers, package, r, files));
  }

  // ---------------------------------------------------------------- verifying

  predicate RecordsOk(files: seq<Record>) {
    && (forall i :: 0 <= i < |files| ==> SafePath(files[i].path))
    && (forall i, j :: 0 <= i < j < |files| ==> files[i].path != files[j].path)
  }

  /** The Authenticode record of a Windows binary and the generic one say the same. */
  predicate SignatureAgrees(b: RustRecord) {
    b.executable.format.Pe? ==> b.scheme == "authenticode" && b.fingerprint == Lower(b.thumbprint)
  }

  predicate BinaryMatches(parsers: Parsers, package: Tree, b: RustRecord, rustPath: Path) {
    && b.path == rustPath && rustPath in package && package[rustPath] == b.file
    && parsers.executable(b.file.content) == Some(b.executable) && SignatureAgrees(b)
  }

  predicate FieldsMatch(parsers: Parsers, package: Tree, m: Manifest) {
    && parsers.processes(package).Some? && m.processPath == parsers.processes(package).value.manifestPath
    && parsers.wheels(package).Some? && m.offline == (parsers.wheels(package).value.wheels > 0)
    && m.requirements == parsers.wheels(package).value.requirements && parsers.lock(package) == Some(m.lock)
    && BinaryMatches(parsers, package, m.binary, parsers.processes(package).value.rustPath)
  }

  predicate CountsMatch(m: Manifest) {
    && m.fileCount == |m.files| && m.totalBytes == Total(m.files) && m.applicationBytes == Total(m.files)
    && m.wheelhouseBytes == WheelTotal(m.files) && Total(m.files) <= APPLICATION_MAX_BYTES
  }

  /** What the verifier demands of a tree and a development manifest. */
  ghost predicate Accepted(parsers: Parsers, package: Tree, m: Manifest, requireOffline: bool) {
    && parsers.reviewed(m.python) && Strip(m.rust) != "" && (requireOffline ==> m.offline)
    && RecordsOk(m.files) && Inventories(m.files, package) && CountsMatch(m) && FieldsMatch(parsers, package, m)
  }

  /** The records so far as a dictionary, with safe and distinct names. */
  ghost predicate Gathered(files: seq<Record>, n: nat, expected: Tree) {
    && n <= |files| && RecordsOk(files[..n])
    && (forall i :: 0 <= i < n ==> files[i].path in expected && expected[files[i].path] == files[i].file)
    && (forall p :: p in expected ==> exists i :: 0 <= i < n && files[i].path == p)
  }

  lemma GatherOne(files: seq<Record>, n: nat, expected: Tree)
    requires n < |files| && Gathered(files, n, expected)
    ensures SafePath(files[n].path) && files[n].path !in expected ==>
      Gathered(files, n + 1, expected[files[n].path := files[n].file])
    ensures !SafePath(files[n].path) || files[n].path in expected ==> !RecordsOk(files)
  {
    var p := files[n].path;
    if SafePath(p) && p !in expected {
      var more := expected[p := files[n].file];
      forall q | q in more ensures exists i :: 0 <= i < n + 1 && files[i].path == q {
        if q != p { var i :| 0 <= i < n && files[i].path == q; }
      }
      var front, longer := files[..n], files[..n + 1];
      forall i, j | 0 <= i < j < |longer| ensures longer[i].path != longer[j].path {
        if j < n { assert front[i].path != front[j].path; }
      }
      forall i | 0 <= i < |longer| ensures SafePath(longer[i].path) {
        if i < n { assert SafePath(front[i].path); }
      }
    } else if p in expected {
      var i :| 0 <= i < n && files[i].path == p;
    }
  }

  lemma GatheredAll(files: seq<Record>, expected: Tree, package: Tree)
    requires Gathered(files, |files|, expected)
    ensures RecordsOk(files) && (expected == package <==> Inventories(files, package))
  {
    assert files[..|files|] == files;
    if Inventories(files, package) {
      forall p ensures p in expected <==> p in package {
        if p in package { var i :| 0 <= i < |files| && files[i].path == p; }
      }
      forall p | p in expected ensures expected[p] == package[p] {
        var i :| 0 <= i < |files| && files[i].path == p;
      }
      assert expected == package;
    }
  }

  method GatherRecords(files: seq<Record>) returns (expected: Option<Tree>, total: nat, wheels: nat)
    ensures expected.Some? <==> RecordsOk(files)
    ensures expected.Some? ==>
      Gathered(files, |files|, expected.value) && total == Total(files) && wheels == WheelTotal(files)
  {
    var found: Tree := map[];
    total, wheels := 0, 0;
    for n := 0 to |files|
      invariant Gathered(files, n, found) && total == Total(files[..n]) && wheels == WheelTotal(files[..n])
    {
      GatherOne(files, n, found);
      assert files[..n + 1][..n] == files[..n];
      if !SafePath(files[n].path) || files[n].path in found { return None, total, wheels; }
      found := found[files[n].path := files[n].file];
      total := total + files[n].file.size;
      if IsWheel(files[n].path) { wheels := wheels + files[n].file.size; }
    }
    assert files[..|files|] == files;
    GatheredAll(files, found, map[]);
    expected := Some(found);
  }

  method VerifyManifest(parsers: Parsers, tree: Tree, m: Manifest, requireOffline: bool) returns (ok: bool)
    ensures ok <==> Accepted(parsers, Package(tree), m, requireOffline)
  {
    if !parsers.reviewed(m.python) || Strip(m.rust) == "" || (requireOffline && !m.offline) { return false; }
    var expected, total, wheels := GatherRecords(m.files);
    if expected.None? { return false; }
    GatheredAll(m.files, expected.value, Package(tree));
    if expected.value != Package(tree) { return false; }
    var counts := m.fileCount == |m.files| && m.totalBytes == total && m.applicationBytes == total
      && m.wheelhouseBytes == wheels;
    var fits := total <= APPLICATION_MAX_BYTES;
    var fields := FieldsMatch(parsers, Package(tree), m);
    ok := counts && fits && fields;
  }

  // ---------------------------------------------------------------- what the pair promises

  /** Exactly when the Windows signature fields given to creation agree. */
  predicate SignerAgrees(s: Signer) {
    && (Lower(Strip(s.scheme)) == "" || Lower(Strip(s.scheme)) == "authenticode")
    && (Lower(Strip(s.fingerprint)) == "" || Lower(Strip(s.fingerprint)) == Lower(Upper(Strip(s.thumbprint))))
  }

  lemma SignatureAgreesIff(path: Path, file: File, e: Executable, s: Signer)
    ensures SignatureAgrees(RustRecordOf(path, file, e, s)) <==> (e.format.Pe? ==> SignerAgrees(s))
  {
  }

  lemma RecordsOkIff(files: seq<Record>, package: Tree)
    requires Inventories(files, package) && forall p :: p in package ==> Walked(p) && !IsControl(p)
    ensures RecordsOk(files) <==> forall p :: p in package ==> !HasBackslash(p)
  {
    if RecordsOk(files) {
      forall p | p in package ensures !HasBackslash(p) {
        var i :| 0 <= i < |files| && files[i].path == p;
        assert SafePath(files[i].path);
      }
    }
  }

  /** A tree is accepted with the manifest created for it exactly when no file name holds a
      backslash, the Rust toolchain is not blank, and a Windows package's signature scheme
      and fingerprint agree with its thumbprint. */
  lemma CreateThenVerifyIff(parsers: Parsers, tree: Tree, r: Request, m: Manifest, requireOffline: bool)
    requires forall p :: p in tree ==> Walked(p)
    requires Creatable(parsers, Package(tree), r) && Inventories(m.files, Package(tree))
    requires m == ManifestOf(parsers, Package(tree), r, m.files) && Total(m.files) <= APPLICATION_MAX_BYTES
    ensures Accepted(parsers, Package(tree), m, requireOffline) <==>
      && (forall p :: p in Package(tree) ==> !HasBackslash(p)) && Strip(r.rust) != "" && (requireOffline ==> m.offline)
      && (m.binary.executable.format.Pe? ==> SignerAgrees(r.signer))
  {
    RecordsOkIff(m.files, Package(tree));
    SignatureAgreesIff(m.binary.path, m.binary.file, m.binary.executable, r.signer);
  }

  /** Whatever tree is accepted with a manifest has the very files the manifest was made of. */
  lemma AcceptedTreeIsTheSame(parsers: Parsers, tree: Tree, other: Tree, m: Manifest, requireOffline: bool)
    requires Inventories(m.files, Package(tree)) && Accepted(parsers, Package(other), m, requireOffline)
    ensures Package(other) == Package(tree)
  {
    var a, b := Package(tree), Package(other);
    forall p ensures p in a <==> p in b {
      if p in a { var i :| 0 <= i < |m.files| && m.files[i].path == p; }
      if p in b { var i :| 0 <= i < |m.files| && m.files[i].path == p; }
    }
    forall p | p in a ensures a[p] == b[p] {
      var i :| 0 <= i < |m.files| && m.files[i].path == p;
    }
  }
}
