/** Retention of complete backup sets: which generations a prune supersedes, and how it
    removes them one atomic rename at a time. */
module BackupRetention {
  import opened BackupSet
  import opened BackupStaging
  import opened Wrappers

  /** A manifest path handed in as protected: the manifest of a published directory, or
      some other existing file. */
  datatype ManifestFile = OfSet(id: string) | Elsewhere(name: string)

  datatype Candidate = Candidate(id: string, completedAt: int)

  predicate Newer(a: Candidate, b: Candidate) {
    a.completedAt > b.completedAt || (a.completedAt == b.completedAt && a.id != b.id && LexLeq(b.id, a.id))
  }

  predicate NewestFirst(vs: seq<Candidate>) { forall i, j :: 0 <= i < j < |vs| ==> Newer(vs[i], vs[j]) }

  function VerifiedIds(d: Disk): set<string> { set e | e in d && e.Published? && Verified(d, e.id) :: e.id }

  /** The completion time of every set that verifies. */
  function Completions(d: Disk): map<string, int> { map id | id in VerifiedIds(d) :: CompletedAt(d, id) }

  ghost predicate Mentions(vs: seq<Candidate>, id: string) { exists i :: 0 <= i < |vs| && vs[i].id == id }

  ghost predicate Lists(vs: seq<Candidate>, times: map<string, int>) {
    && (forall i :: 0 <= i < |vs| ==> vs[i].id in times && vs[i].completedAt == times[vs[i].id])
    && (forall id :: id in times ==> Mentions(vs, id))
    && NewestFirst(vs)
  }

  // ---------------------------------------------------------------- the sorted list

  lemma {:induction false} LexAntisymmetric(a: string, b: string)
    requires LexLeq(a, b) && LexLeq(b, a)
    ensures a == b
  {
    if a != [] {
      LexAntisymmetric(a[1..], b[1..]);
      assert a == [a[0]] + a[1..] && b == [b[0]] + b[1..];
    }
  }

  lemma NewerTransitive(a: Candidate, b: Candidate, c: Candidate)
    requires Newer(a, b) && Newer(b, c)
    ensures Newer(a, c)
  {
    if a.completedAt == c.completedAt {
      LexTransitive(c.id, b.id, a.id);
      if a.id == c.id { LexAntisymmetric(a.id, b.id); }
    }
  }

  lemma NewerTotal(a: Candidate, b: Candidate)
    requires a.id != b.id
    ensures Newer(a, b) || Newer(b, a)
  {
    LexTotal(a.id, b.id);
  }

  lemma NewerAsymmetric(a: Candidate, b: Candidate)
    requires Newer(a, b)
    ensures !Newer(b, a)
  {
    if Newer(b, a) { LexAntisymmetric(a.id, b.id); }
  }

  function Insert(vs: seq<Candidate>, c: Candidate): (r: seq<Candidate>)
    ensures |r| == |vs| + 1
    ensures multiset(r) == multiset(vs) + multiset{c}
  {
    if vs == [] || Newer(c, vs[0]) then [c] + vs
    else assert vs == [vs[0]] + vs[1..]; [vs[0]] + Insert(vs[1..], c)
  }

  lemma InsertMembers(vs: seq<Candidate>, c: Candidate)
    ensures forall x :: x in Insert(vs, c) <==> x in vs || x == c
  {
    assert forall x :: x in Insert(vs, c) <==> x in multiset(Insert(vs, c));
  }

  lemma HeadIsNewest(vs: seq<Candidate>, c: Candidate)
    requires vs != [] && NewestFirst(vs) && Newer(c, vs[0])
    ensures NewestFirst([c] + vs)
  {
    forall j | 0 < j < |vs|
      ensures Newer(c, vs[j])
    {
      NewerTransitive(c, vs[0], vs[j]);
    }
  }

  lemma {:induction false} InsertSorted(vs: seq<Candidate>, c: Candidate)
    requires NewestFirst(vs) && forall i :: 0 <= i < |vs| ==> vs[i].id != c.id
    ensures NewestFirst(Insert(vs, c))
    ensures forall x :: x in Insert(vs, c) <==> x in vs || x == c
  {
    InsertMembers(vs, c);
    if vs != [] {
      if Newer(c, vs[0]) {
        HeadIsNewest(vs, c);
      } else {
        NewerTotal(c, vs[0]);
        InsertSorted(vs[1..], c);
        var r := Insert(vs[1..], c);
        forall j | 0 <= j < |r|
          ensures Newer(vs[0], r[j])
        {
          assert r[j] in r;
        }
      }
    }
  }

  /** Collects the sets that verify and sorts them, newest first. */
  method CollectVerified(d: Disk) returns (vs: seq<Candidate>)
    ensures Lists(vs, Completions(d))
  {
    vs := [];
    var pending := set e | e in d && e.Published?;
    ghost var all := Completions(d);
    assert Seen(all, pending) == map[] by {
      forall id | id in all ensures Published(id) in pending { CompletionsAt(d, id); }
    }
    while pending != {}
      invariant forall e :: e in pending ==> e.Published?
      invariant Lists(vs, Seen(all, pending))
      decreases pending
    {
      var e :| e in pending;
      vs := InsertIfVerified(d, e.id, vs, pending);
      pending := pending - {e};
    }
    assert Seen(all, {}) == all;
  }

  method InsertIfVerified(d: Disk, id: string, vs: seq<Candidate>, ghost pending: set<Entry>)
      returns (r: seq<Candidate>)
    requires Published(id) in pending && Lists(vs, Seen(Completions(d), pending))
    ensures Lists(r, Seen(Completions(d), pending - {Published(id)}))
  {
    CompletionsAt(d, id);
    SeenStep(Completions(d), pending, id);
    r := vs;
    if Verified(d, id) {
      var c := Candidate(id, CompletedAt(d, id));
      ListsInsert(vs, Seen(Completions(d), pending), c);
      r := Insert(vs, c);
    }
  }

  ghost function Seen(all: map<string, int>, pending: set<Entry>): map<string, int> {
    map id | id in all && Published(id) !in pending :: all[id]
  }

  lemma SeenStep(all: map<string, int>, pending: set<Entry>, id: string)
    requires Published(id) in pending
    ensures id !in Seen(all, pending)
    ensures Seen(all, pending - {Published(id)}) ==
            if id in all then Seen(all, pending)[id := all[id]] else Seen(all, pending)
  {
  }

  lemma CompletionsAt(d: Disk, id: string)
    ensures id in Completions(d) <==> Verified(d, id)
    ensures Verified(d, id) ==> Completions(d)[id] == CompletedAt(d, id)
  {
    if Verified(d, id) { assert Published(id) in d && Published(id).id == id; }
  }

  lemma InsertMentions(vs: seq<Candidate>, c: Candidate, id: string)
    requires Mentions(vs, id) || id == c.id
    ensures Mentions(Insert(vs, c), id)
  {
    InsertMembers(vs, c);
    if id == c.id {
      assert c in Insert(vs, c);
    } else {
      var i :| 0 <= i < |vs| && vs[i].id == id;
      assert vs[i] in Insert(vs, c);
    }
  }

  lemma ListsInsert(vs: seq<Candidate>, times: map<string, int>, c: Candidate)
    requires Lists(vs, times) && c.id !in times
    ensures Lists(Insert(vs, c), times[c.id := c.completedAt])
  {
    InsertSorted(vs, c);
    var r, more := Insert(vs, c), times[c.id := c.completedAt];
    forall i | 0 <= i < |r|
      ensures r[i].id in more && r[i].completedAt == more[r[i].id]
    {
      assert r[i] in r;
    }
    forall id | id in more ensures Mentions(r, id) { InsertMentions(vs, c, id); }
  }

  // ---------------------------------------------------------------- the kept manifests

  function Protected(p: Option<ManifestFile>): set<ManifestFile> { if p.Some? then {p.value} else {} }

  function KeptPrefix(p: set<ManifestFile>, vs: seq<Candidate>, n: nat): set<ManifestFile>
    requires n <= |vs|
  {
    if n == 0 then p else KeptPrefix(p, vs, n - 1) + {OfSet(vs[n - 1].id)}
  }

  lemma {:induction false} InPrefix(p: set<ManifestFile>, vs: seq<Candidate>, n: nat, x: ManifestFile)
    requires n <= |vs|
    ensures x in KeptPrefix(p, vs, n) <==> x in p || exists j :: 0 <= j < n && OfSet(vs[j].id) == x
  {
    if n > 0 { InPrefix(p, vs, n - 1, x); }
  }

  /** Adds the newest manifests until the retention count is reached; the protected one
      counts. `n` is how many of the newest were looked at. */
  method ChooseKept(vs: seq<Candidate>, keep: nat, p: Option<ManifestFile>)
      returns (kept: set<ManifestFile>, ghost n: nat)
    ensures n <= |vs| && kept == KeptPrefix(Protected(p), vs, n)
    ensures n == |vs| || |kept| >= keep
    ensures n > 0 ==> |KeptPrefix(Protected(p), vs, n - 1)| < keep
  {
    kept := Protected(p);
    var i := 0;
    while i < |vs| && |kept| < keep
      invariant 0 <= i <= |vs| && kept == KeptPrefix(Protected(p), vs, i)
      invariant i > 0 ==> |KeptPrefix(Protected(p), vs, i - 1)| < keep
    {
      kept := kept + {OfSet(vs[i].id)};
      i := i + 1;
    }
    n := i;
  }

  /** The verified sets, other than the protected one, that are newer than `id`. */
  ghost function NewerOthers(times: map<string, int>, p: Option<ManifestFile>, id: string): set<string>
    requires id in times
  {
    set o | o in times && OfSet(o) !in Protected(p) && Newer(Candidate(o, times[o]), Candidate(id, times[id]))
  }

  function KeepCount(retention: int): nat { if retention < 1 then 1 else retention }

  /** Retention stated without any list: the protected set stays, and beside it the
      newest ones up to the count. */
  ghost predicate Retained(times: map<string, int>, retention: int, p: Option<ManifestFile>, id: string)
    requires id in times
  {
    OfSet(id) in Protected(p) || |NewerOthers(times, p, id)| < KeepCount(retention) - |Protected(p)|
  }

  ghost function Superseded(times: map<string, int>, retention: int, p: Option<ManifestFile>): set<string> {
    set id | id in times && !Retained(times, retention, p, id)
  }

  lemma {:induction false} ImageSize(ids: set<string>)
    ensures |set x | x in ids :: OfSet(x)| == |ids|
  {
    var image := set x | x in ids :: OfSet(x);
    if ids != {} {
      var x :| x in ids;
      ImageSize(ids - {x});
      assert image == (set y | y in ids - {x} :: OfSet(y)) + {OfSet(x)};
    }
  }

  lemma NewerOthersArePrefix(vs: seq<Candidate>, times: map<string, int>, p: Option<ManifestFile>, i: nat, x: string)
    requires Lists(vs, times) && i < |vs|
    ensures x in NewerOthers(times, p, vs[i].id) <==>
            OfSet(x) !in Protected(p) && exists j :: 0 <= j < i && vs[j].id == x
  {
    if x in NewerOthers(times, p, vs[i].id) {
      var j :| 0 <= j < |vs| && vs[j].id == x;
      if j > i { NewerAsymmetric(vs[i], vs[j]); }
    }
  }

  /** How far the list was read measures exactly the newer unprotected sets. */
  lemma PrefixCounts(vs: seq<Candidate>, times: map<string, int>, p: Option<ManifestFile>, i: nat)
    requires Lists(vs, times) && i < |vs|
    ensures |KeptPrefix(Protected(p), vs, i)| == |Protected(p)| + |NewerOthers(times, p, vs[i].id)|
  {
    var others := NewerOthers(times, p, vs[i].id);
    var image := set x | x in others :: OfSet(x);
    ImageSize(others);
    forall x: string
      ensures x in others <==> OfSet(x) !in Protected(p) && exists j :: 0 <= j < i && vs[j].id == x
    {
      NewerOthersArePrefix(vs, times, p, i, x);
    }
    PrefixIsImage(Protected(p), vs, i, others);
  }

  lemma PrefixIsImage(p: set<ManifestFile>, vs: seq<Candidate>, i: nat, others: set<string>)
    requires i <= |vs|
    requires forall x: string :: x in others <==> OfSet(x) !in p && exists j :: 0 <= j < i && vs[j].id == x
    ensures |KeptPrefix(p, vs, i)| == |p| + |set x | x in others :: OfSet(x)|
  {
    var image := set x | x in others :: OfSet(x);
    forall f: ManifestFile
      ensures f in KeptPrefix(p, vs, i) <==> f in p + image
    {
      InPrefix(p, vs, i, f);
    }
    assert KeptPrefix(p, vs, i) == p + image;
    assert p !! image;
  }

  lemma RetainedByCount(vs: seq<Candidate>, times: map<string, int>, retention: int, p: Option<ManifestFile>, i: nat)
    requires Lists(vs, times) && i < |vs|
    ensures Retained(times, retention, p, vs[i].id) <==>
            OfSet(vs[i].id) in Protected(p) || |KeptPrefix(Protected(p), vs, i)| < KeepCount(retention)
  {
    PrefixCounts(vs, times, p, i);
  }

  /** The list-walking choice is the list-free one. */
  lemma ChosenAreRetained(vs: seq<Candidate>, times: map<string, int>, retention: int, p: Option<ManifestFile>,
                          n: nat, i: nat)
    requires Lists(vs, times) && n <= |vs| && i < |vs|
    requires n == |vs| || |KeptPrefix(Protected(p), vs, n)| >= KeepCount(retention)
    requires n > 0 ==> |KeptPrefix(Protected(p), vs, n - 1)| < KeepCount(retention)
    ensures OfSet(vs[i].id) in KeptPrefix(Protected(p), vs, n) <==> Retained(times, retention, p, vs[i].id)
  {
    var prefix, count := |KeptPrefix(Protected(p), vs, i)|, KeepCount(retention);
    assert i < n ==> prefix < count by { if i < n { PrefixGrows(vs, p, i, n - 1); } }
    assert n <= i ==> prefix >= count by { if n <= i { PrefixGrows(vs, p, n, i); } }
    PlaceInPrefix(vs, times, Protected(p), n, i);
    RetainedByCount(vs, times, retention, p, i);
  }

  lemma PlaceInPrefix(vs: seq<Candidate>, times: map<string, int>, p: set<ManifestFile>, n: nat, i: nat)
    requires Lists(vs, times) && n <= |vs| && i < |vs|
    ensures OfSet(vs[i].id) in KeptPrefix(p, vs, n) <==> OfSet(vs[i].id) in p || i < n
  {
    InPrefix(p, vs, n, OfSet(vs[i].id));
    if i >= n {
      forall j | 0 <= j < n
        ensures vs[j].id != vs[i].id
      {
        NewerDistinct(vs[j], vs[i]);
      }
    }
  }

  lemma NewerDistinct(a: Candidate, b: Candidate)
    requires Newer(a, b)
    ensures a != b
  {
    if a == b { NewerAsymmetric(a, b); }
  }

  lemma {:induction false} PrefixGrows(vs: seq<Candidate>, p: Option<ManifestFile>, n: nat, i: nat)
    requires n <= i <= |vs|
    ensures |KeptPrefix(Protected(p), vs, n)| <= |KeptPrefix(Protected(p), vs, i)|
    decreases i
  {
    if n < i {
      PrefixGrows(vs, p, n, i - 1);
      var s, x := KeptPrefix(Protected(p), vs, i - 1), OfSet(vs[i - 1].id);
      if x in s { assert s + {x} == s; }
    }
  }

  lemma {:induction false} SortedListExists(times: map<string, int>) returns (vs: seq<Candidate>)
    ensures Lists(vs, times)
    decreases |times|
  {
    if times == map[] {
      vs := [];
    } else {
      var id :| id in times;
      var rest := times - {id};
      assert rest.Keys == times.Keys - {id};
      vs := SortedListExists(rest);
      ListsInsert(vs, rest, Candidate(id, times[id]));
      vs := Insert(vs, Candidate(id, times[id]));
      assert rest[id := times[id]] == times;
    }
  }

  // ---------------------------------------------------------------- what retention guarantees

  /** The protected file leaves room for a verified set. */
  predicate SoundProtection(times: map<string, int>, retention: int, p: Option<ManifestFile>) {
    p.None? || retention >= 2 || (p.value.OfSet? && p.value.id in times)
  }

  /** The first unprotected candidate of a newest-first list. */
  lemma FirstUnprotected(vs: seq<Candidate>, p: Option<ManifestFile>, i: nat) returns (j: nat)
    requires i < |vs| && OfSet(vs[i].id) !in Protected(p)
    ensures j <= i && OfSet(vs[j].id) !in Protected(p) && forall m :: 0 <= m < j ==> OfSet(vs[m].id) in Protected(p)
  {
    j := 0;
    while OfSet(vs[j].id) in Protected(p)
      invariant j <= i && forall m :: 0 <= m < j ==> OfSet(vs[m].id) in Protected(p)
      decreases i - j
    {
      j := j + 1;
    }
  }

  lemma FirstIsNewest(vs: seq<Candidate>, times: map<string, int>, p: Option<ManifestFile>, j: nat, o: string)
    requires Lists(vs, times) && j < |vs| && (forall m :: 0 <= m < j ==> OfSet(vs[m].id) in Protected(p))
    requires o in times && OfSet(o) !in Protected(p)
    ensures !Newer(Candidate(o, times[o]), vs[j])
  {
    var k :| 0 <= k < |vs| && vs[k].id == o;
    if k > j { NewerAsymmetric(vs[j], vs[k]); }
  }

  lemma NewestExists(times: map<string, int>, p: Option<ManifestFile>)
    requires exists id :: id in times && OfSet(id) !in Protected(p)
    ensures exists id :: id in times && OfSet(id) !in Protected(p) && NewerOthers(times, p, id) == {}
  {
    var vs := SortedListExists(times);
    var id :| id in times && OfSet(id) !in Protected(p);
    var i :| 0 <= i < |vs| && vs[i].id == id;
    var j := FirstUnprotected(vs, p, i);
    forall o | o in times && OfSet(o) !in Protected(p) ensures !Newer(Candidate(o, times[o]), vs[j]) {
      FirstIsNewest(vs, times, p, j, o);
    }
    assert NewerOthers(times, p, vs[j].id) == {};
  }

  /** A prune spares at least one verified set exactly when its protection is sound. With
      a retention count of one and a protected file that is no verified set's manifest,
      every verified set is superseded. */
  lemma SparesOneIff(times: map<string, int>, retention: int, p: Option<ManifestFile>)
    requires times != map[]
    ensures Superseded(times, retention, p) != times.Keys <==> SoundProtection(times, retention, p)
  {
    if SoundProtection(times, retention, p) {
      if p.Some? && p.value.OfSet? && p.value.id in times {
        assert Retained(times, retention, p, p.value.id);
      } else {
        var some :| some in times;
        assert OfSet(some) !in Protected(p);
        NewestExists(times, p);
        var id :| id in times && OfSet(id) !in Protected(p) && NewerOthers(times, p, id) == {};
        assert Retained(times, retention, p, id);
      }
    }
  }

  /** Never more than the retention count is kept, and an unprotected set is kept only if
      every newer unprotected one is. */
  lemma RetainedIsNewest(times: map<string, int>, retention: int, p: Option<ManifestFile>, id: string, newer: string)
    requires id in times && newer in times && Retained(times, retention, p, id)
    requires OfSet(id) !in Protected(p) && OfSet(newer) !in Protected(p)
    requires Newer(Candidate(newer, times[newer]), Candidate(id, times[id]))
    ensures Retained(times, retention, p, newer)
  {
    var a, b := NewerOthers(times, p, newer), NewerOthers(times, p, id);
    forall o | o in a
      ensures o in b
    {
      NewerTransitive(Candidate(o, times[o]), Candidate(newer, times[newer]), Candidate(id, times[id]));
    }
    assert b == a + (b - a);
  }
}
