/** A directory of database backups: publishing one, rolling a failed one back, and removing
    superseded ones, observed between any two file operations. */
module DatabaseBackup {
  import opened BackupRetention
  import opened DatabaseRetention
  import opened Wrappers

  /** A manifest names a payload file and records what it holds; a checksum stands for the
      content itself. */
  datatype Manifest = Manifest(payload: string, content: int, size: nat, created: int, source: string)
  datatype Dir = Dir(payloads: map<string, int>, manifests: map<string, Manifest>)

  predicate Verified(d: Dir, m: string) {
    m in d.manifests && d.manifests[m].payload in d.payloads
      && d.payloads[d.manifests[m].payload] == d.manifests[m].content
  }

  /** Every manifest names an existing payload with its recorded content. */
  ghost predicate AllVerified(d: Dir) { forall m :: m in d.manifests ==> Verified(d, m) }

  /** No manifest is new or changed, and none that verified has stopped to. */
  ghost predicate Keeps(d: Dir, e: Dir) { forall m :: KeepsAt(d, e, m) }

  predicate KeepsAt(d: Dir, e: Dir, m: string) {
    m in e.manifests ==> m in d.manifests && e.manifests[m] == d.manifests[m] && (Verified(d, m) ==> Verified(e, m))
  }

  predicate Clash(d: Dir, m: string, n: string) {
    m != n && Verified(d, m) && Verified(d, n) && d.manifests[m].payload == d.manifests[n].payload
  }

  /** No two generations that verify share a payload file. */
  ghost predicate Unshared(d: Dir) { forall m, n :: !Clash(d, m, n) }

  function WithoutManifest(d: Dir, m: string): Dir { d.(manifests := d.manifests - {m}) }

  function WithoutPayload(d: Dir, p: string): Dir { d.(payloads := d.payloads - {p}) }

  function WithoutGeneration(d: Dir, m: string): Dir {
    if m in d.manifests then WithoutPayload(WithoutManifest(d, m), d.manifests[m].payload) else d
  }

  /** Deleting the manifest first never breaks another; deleting its payload then keeps the
      rest exactly when no other verified manifest names that payload. */
  lemma RemovalKeepsIff(d: Dir, m: string)
    requires Verified(d, m)
    ensures Keeps(d, WithoutManifest(d, m))
    ensures Keeps(d, WithoutGeneration(d, m)) <==>
      forall n :: Verified(d, n) && n != m ==> d.manifests[n].payload != d.manifests[m].payload
  {
    var e := WithoutGeneration(d, m);
    forall n | Verified(d, n) && n != m
      ensures KeepsAt(d, e, n) <==> d.manifests[n].payload != d.manifests[m].payload
    {
    }
    if forall n :: Verified(d, n) && n != m ==> d.manifests[n].payload != d.manifests[m].payload {
      forall n ensures KeepsAt(d, e, n) {}
    }
  }

  /** Deleting the payload first breaks its own manifest. */
  lemma PayloadFirstBreaks(d: Dir, m: string)
    requires Verified(d, m)
    ensures !AllVerified(WithoutPayload(d, d.manifests[m].payload))
  {
    assert !Verified(WithoutPayload(d, d.manifests[m].payload), m);
  }

  // ---------------------------------------------------------------- removing generations

  ghost predicate Named(order: seq<Candidate>, k: nat, m: string)
    requires k <= |order|
  {
    exists i :: 0 <= i < k && order[i].id == m
  }

  /** A payload that one of the first `k` listed generations names. */
  ghost predicate Emptied(d: Dir, order: seq<Candidate>, k: nat, p: string)
    requires k <= |order|
  {
    exists i :: 0 <= i < k && order[i].id in d.manifests && d.manifests[order[i].id].payload == p
  }

  /** The first `k` generations of a list are gone, manifests and payloads. */
  function Less(d: Dir, order: seq<Candidate>, k: nat): Dir
    requires k <= |order|
  {
    if k == 0 then d else WithoutGeneration(Less(d, order, k - 1), order[k - 1].id)
  }

  function StepsAt(d: Dir, order: seq<Candidate>, k: nat): seq<Dir>
    requires k < |order|
  {
    [WithoutManifest(Less(d, order, k), order[k].id), Less(d, order, k + 1)]
  }

  /** The states met while the first `k` generations go: each one's manifest, then its payload. */
  function Steps(d: Dir, order: seq<Candidate>, k: nat): seq<Dir>
    requires k <= |order|
  {
    if k == 0 then [] else Steps(d, order, k - 1) + StepsAt(d, order, k - 1)
  }

  /** The names listed, as the set of those already dealt with. */
  function Ids(order: seq<Candidate>): set<string> { set c | c in order :: c.id }

  lemma NotSeenBefore(order: seq<Candidate>, k: nat)
    requires DistinctIds(order) && k < |order|
    ensures order[k].id !in Ids(order[..k]) && Ids(order[..k]) + {order[k].id} == Ids(order[..k + 1])
  {
    assert order[..k + 1] == order[..k] + [order[k]];
    assert forall s :: s in Ids(order[..k]) ==> exists i :: 0 <= i < k && order[i].id == s;
  }

  predicate Spares(order: seq<Candidate>, protected: Option<string>) {
    forall i :: 0 <= i < |order| ==> protected != Some(order[i].id)
  }

  ghost predicate Removable(d: Dir, order: seq<Candidate>) {
    DistinctIds(order) && forall i :: 0 <= i < |order| ==> Verified(d, order[i].id)
  }

  ghost predicate ManifestLeft(d: Dir, e: Dir, order: seq<Candidate>, k: nat, m: string)
    requires k <= |order|
  {
    (m in e.manifests <==> m in d.manifests && !Named(order, k, m))
      && (m in e.manifests ==> e.manifests[m] == d.manifests[m])
  }

  ghost predicate PayloadLeft(d: Dir, e: Dir, order: seq<Candidate>, k: nat, p: string)
    requires k <= |order|
  {
    (p in e.payloads <==> p in d.payloads && !Emptied(d, order, k, p))
      && (p in e.payloads ==> e.payloads[p] == d.payloads[p])
  }

  /** What is left once the first `k` listed generations are gone, in any directory. */
  lemma {:induction false} LeftAfter(d: Dir, order: seq<Candidate>, k: nat, m: string, p: string)
    requires k <= |order| && Removable(d, order)
    ensures ManifestLeft(d, Less(d, order, k), order, k, m) && PayloadLeft(d, Less(d, order, k), order, k, p)
  {
    if k > 0 {
      LeftAfter(d, order, k - 1, m, p);
      LeftAfter(d, order, k - 1, order[k - 1].id, p);
      LeftStep(d, Less(d, order, k - 1), order, k - 1, m, p);
    }
  }

  lemma LeftStep(d: Dir, e: Dir, order: seq<Candidate>, k: nat, m: string, p: string)
    requires k < |order| && Removable(d, order)
    requires ManifestLeft(d, e, order, k, m) && PayloadLeft(d, e, order, k, p)
      && ManifestLeft(d, e, order, k, order[k].id)
    ensures ManifestLeft(d, WithoutGeneration(e, order[k].id), order, k + 1, m)
    ensures PayloadLeft(d, WithoutGeneration(e, order[k].id), order, k + 1, p)
  {
    var id := order[k].id;
    assert Verified(d, id) && !Named(order, k, id) && id in e.manifests;
    assert Named(order, k + 1, m) <==> Named(order, k, m) || m == id;
    assert Emptied(d, order, k + 1, p) <==> Emptied(d, order, k, p) || p == d.manifests[id].payload;
  }

  /** A generation that still verifies when its turn to be removed comes. */
  ghost predicate BackedAt(d: Dir, order: seq<Candidate>, k: nat)
    requires k < |order|
  {
    Verified(Less(d, order, k), order[k].id)
  }

  /** No earlier generation of the list names this one's payload. */
  ghost predicate OwnPayload(d: Dir, order: seq<Candidate>, k: nat)
    requires k < |order|
  {
    order[k].id in d.manifests && !Emptied(d, order, k, d.manifests[order[k].id].payload)
  }

  /** The next generation still has its payload exactly when none before it named the same. */
  lemma NextIsBackedIff(d: Dir, order: seq<Candidate>, k: nat)
    requires k < |order| && Removable(d, order)
    ensures BackedAt(d, order, k) <==> OwnPayload(d, order, k)
    ensures order[k].id in Less(d, order, k).manifests
    ensures BackedAt(d, order, k) <==> Less(d, order, k).manifests[order[k].id].payload in Less(d, order, k).payloads
  {
    assert Verified(d, order[k].id) && !Named(order, k, order[k].id);
    LeftAfter(d, order, k, order[k].id, d.manifests[order[k].id].payload);
  }

  /** A verified manifest outside the list stays verified exactly when no removed generation
      named its payload. */
  lemma OtherKeptIff(d: Dir, order: seq<Candidate>, k: nat, m: string)
    requires k <= |order| && Removable(d, order) && Verified(d, m) && !Named(order, k, m)
    ensures m in Less(d, order, k).manifests
    ensures Verified(Less(d, order, k), m) <==> !Emptied(d, order, k, d.manifests[m].payload)
  {
    LeftAfter(d, order, k, m, d.manifests[m].payload);
  }

  lemma UnsharedIsNotEmptied(d: Dir, order: seq<Candidate>, k: nat, m: string)
    requires k <= |order| && Removable(d, order) && Unshared(d) && Verified(d, m) && !Named(order, k, m)
    ensures !Emptied(d, order, k, d.manifests[m].payload)
  {
    forall i | 0 <= i < k ensures d.manifests[order[i].id].payload != d.manifests[m].payload {
      assert !Clash(d, order[i].id, m);
    }
  }

  lemma LessKeeps(d: Dir, order: seq<Candidate>, k: nat)
    requires k <= |order| && Removable(d, order) && Unshared(d)
    ensures Keeps(d, Less(d, order, k))
  {
    forall m ensures KeepsAt(d, Less(d, order, k), m) {
      LeftAfter(d, order, k, m, "");
      if Verified(d, m) && !Named(order, k, m) {
        UnsharedIsNotEmptied(d, order, k, m);
        OtherKeptIff(d, order, k, m);
      }
    }
  }

  lemma HalfKeeps(d: Dir, e: Dir, m: string)
    requires Keeps(d, e)
    ensures Keeps(d, WithoutManifest(e, m))
  {
    forall n ensures KeepsAt(d, WithoutManifest(e, m), n) { assert KeepsAt(d, e, n); }
  }

  lemma {:induction false} StepsKeep(d: Dir, order: seq<Candidate>, k: nat, i: nat)
    requires k <= |order| && Removable(d, order) && Unshared(d) && i < |Steps(d, order, k)|
    ensures Keeps(d, Steps(d, order, k)[i])
  {
    if i < |Steps(d, order, k - 1)| {
      StepsKeep(d, order, k - 1, i);
    } else {
      LessKeeps(d, order, k - 1);
      LessKeeps(d, order, k);
      HalfKeeps(d, Less(d, order, k - 1), order[k - 1].id);
    }
  }

  /** How far a removal gets: to the first generation whose payload an earlier one took. */
  ghost predicate GetsTo(d: Dir, order: seq<Candidate>, n: nat) {
    n <= |order| && (forall k :: 0 <= k < n ==> BackedAt(d, order, k)) && (n < |order| ==> !BackedAt(d, order, n))
  }

  ghost predicate SharesNone(d: Dir, order: seq<Candidate>) {
    forall k :: 0 <= k < |order| ==> OwnPayload(d, order, k)
  }

  /** A removal completes exactly when no two of the listed generations share a payload. */
  lemma CompletesIff(d: Dir, order: seq<Candidate>, n: nat)
    requires Removable(d, order) && GetsTo(d, order, n)
    ensures n == |order| <==> SharesNone(d, order)
  {
    if n < |order| {
      NextIsBackedIff(d, order, n);
    } else {
      forall k | 0 <= k < |order| ensures OwnPayload(d, order, k) {
        assert BackedAt(d, order, k);
        NextIsBackedIff(d, order, k);
      }
    }
  }

  lemma UnsharedSharesNone(d: Dir, order: seq<Candidate>)
    requires Removable(d, order) && Unshared(d)
    ensures SharesNone(d, order)
  {
    forall k | 0 <= k < |order| ensures OwnPayload(d, order, k) {
      UnsharedIsNotEmptied(d, order, k, order[k].id);
    }
  }

  class Folder {
    var dir: Dir
    /** Every state of the directory between two file operations. */
    ghost var trail: seq<Dir>

    constructor (dir: Dir)
      ensures this.dir == dir && trail == [dir]
    {
      this.dir, trail := dir, [dir];
    }

    /** One atomic rename into the directory. */
    method Put(next: Dir)
      modifies this
      ensures dir == next && trail == old(trail) + [next]
    {
      dir, trail := next, trail + [next];
    }

    method UnlinkManifest(m: string)
      modifies this
      ensures dir == WithoutManifest(old(dir), m) && trail == old(trail) + [dir]
    {
      dir := dir.(manifests := dir.manifests - {m});
      trail := trail + [dir];
    }

    /** Unlinking a missing file fails unless the caller tolerates it. */
    method UnlinkPayload(p: string) returns (ok: bool)
      modifies this
      ensures ok <==> p in old(dir).payloads
      ensures ok ==> dir == WithoutPayload(old(dir), p) && trail == old(trail) + [dir]
      ensures !ok ==> unchanged(this)
    {
      ok := p in dir.payloads;
      if ok {
        dir := dir.(payloads := dir.payloads - {p});
        trail := trail + [dir];
      }
    }

    /** Both files must be there before either goes; then manifest before payload, so at no
        moment does a manifest advertise a missing file. */
    method RemoveGeneration(m: string) returns (ok: bool)
      modifies this
      ensures ok <==> m in old(dir).manifests && old(dir).manifests[m].payload in old(dir).payloads
      ensures ok ==> dir == WithoutGeneration(old(dir), m) && trail == old(trail) + [WithoutManifest(old(dir), m), dir]
      ensures !ok ==> unchanged(this)
    {
      if m !in dir.manifests { return false; }
      var payload := dir.manifests[m].payload;
      if payload !in dir.payloads { return false; }
      UnlinkManifest(m);
      ok := UnlinkPayload(payload);
    }

    /** Removes the next generation of a list, when nothing before it took its payload. */
    method RemoveNext(ghost d: Dir, order: seq<Candidate>, k: nat) returns (ok: bool)
      requires Removable(d, order) && k < |order| && dir == Less(d, order, k)
      modifies this
      ensures ok <==> BackedAt(d, order, k)
      ensures ok ==> dir == Less(d, order, k + 1) && trail == old(trail) + StepsAt(d, order, k)
      ensures !ok ==> unchanged(this)
    {
      NextIsBackedIff(d, order, k);
      ok := RemoveGeneration(order[k].id);
    }

    /** Removes the listed generations in order, and stops where a payload is missing; the
        guard that would stop before the last verified generation never fires. */
    method RemoveInOrder(order: seq<Candidate>, verifiedCount: nat, protected: Option<string>)
      returns (ok: bool, ghost n: nat)
      requires Removable(dir, order) && |order| < verifiedCount && Spares(order, protected)
      modifies this
      ensures GetsTo(old(dir), order, n) && (ok <==> n == |order|)
      ensures dir == Less(old(dir), order, n) && trail == old(trail) + Steps(old(dir), order, n)
    {
      n := 0;
      var removedGenerations := 0;
      var seen: set<string> := {};
      for k := 0 to |order|
        invariant n == removedGenerations == k && seen == Ids(order[..k])
        invariant forall i :: 0 <= i < k ==> BackedAt(old(dir), order, i)
        invariant dir == Less(old(dir), order, k) && trail == old(trail) + Steps(old(dir), order, k)
      {
        NotSeenBefore(order, k);
        if order[k].id in seen || protected == Some(order[k].id) { continue; }
        if verifiedCount - removedGenerations <= 1 { break; }
        ok := RemoveNext(old(dir), order, k);
        if !ok { return; }
        seen := seen + {order[k].id};
        removedGenerations, n := removedGenerations + 1, n + 1;
      }
      ok := true;
    }
  }
}
