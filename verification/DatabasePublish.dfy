/** Pruning a directory of verified database backups, and publishing into it. */
module DatabasePublish {
  import opened BackupRetention
  import opened DatabaseRetention
  import opened DatabaseBackup
  import opened Wrappers

  predicate Matches(d: Dir, m: string, source: Option<string>) {
    Verified(d, m) && (source.None? || d.manifests[m].source == source.value)
  }

  /** The generations a prune considers, with the times they were taken. */
  function Generations(d: Dir, source: Option<string>): map<string, int> {
    map m | m in d.manifests && Matches(d, m, source) :: d.manifests[m].created
  }

  function Sizes(d: Dir): map<string, nat> { map m | m in d.manifests :: d.manifests[m].size }

  function Within(times: map<string, int>, done: set<string>): map<string, int> {
    map m | m in times && m in done :: times[m]
  }

  lemma WithinStep(d: Dir, source: Option<string>, done: set<string>, m: string)
    requires m in d.manifests && m !in done
    ensures Matches(d, m, source) ==>
      Within(Generations(d, source), done + {m}) == Within(Generations(d, source), done)[m := d.manifests[m].created]
    ensures !Matches(d, m, source) ==>
      Within(Generations(d, source), done + {m}) == Within(Generations(d, source), done)
    ensures m !in Within(Generations(d, source), done)
  {
  }

  /** Every generation that verifies, newest first. */
  method Collect(d: Dir, source: Option<string>) returns (vs: seq<Candidate>)
    ensures Lists(vs, Generations(d, source))
  {
    vs := [];
    var done: set<string> := {};
    assert Within(Generations(d, source), {}) == map[];
    while d.manifests.Keys - done != {}
      invariant Lists(vs, Within(Generations(d, source), done))
      decreases d.manifests.Keys - done
    {
      var m :| m in d.manifests.Keys - done;
      WithinStep(d, source, done, m);
      if Matches(d, m, source) {
        var c := Candidate(m, d.manifests[m].created);
        ListsInsert(vs, Within(Generations(d, source), done), c);
        vs := Insert(vs, c);
      }
      done := done + {m};
    }
    forall m | m in d.manifests ensures m in done { assert m !in d.manifests.Keys - done; }
    assert Within(Generations(d, source), done) == Generations(d, source);
  }

  lemma ListsDistinct(vs: seq<Candidate>, times: map<string, int>)
    requires Lists(vs, times)
    ensures DistinctIds(vs)
  {
    forall i, j | 0 <= i < j < |vs| ensures vs[i].id != vs[j].id { assert Newer(vs[i], vs[j]); }
  }

  // ---------------------------------------------------------------- oldest first

  /** The named generations of a newest-first list, oldest first. */
  function OldestFirst(vs: seq<Candidate>, removed: set<string>): seq<Candidate> {
    if vs == [] then [] else
      var n := |vs| - 1;
      (if vs[n].id in removed then [vs[n]] else []) + OldestFirst(vs[..n], removed)
  }

  lemma {:induction false} OldestFirstMeans(vs: seq<Candidate>, removed: set<string>)
    requires NewestFirst(vs) && DistinctIds(vs)
    ensures var order := OldestFirst(vs, removed);
      && |order| <= |vs| && DistinctIds(order)
      && (forall i, j :: 0 <= i < j < |order| ==> Newer(order[j], order[i]))
      && (forall c :: c in order <==> c in vs && c.id in removed)
  {
    if vs != [] {
      var n := |vs| - 1;
      OldestFirstMeans(vs[..n], removed);
      var rest := OldestFirst(vs[..n], removed);
      forall i | 0 <= i < |rest| ensures Newer(rest[i], vs[n]) && rest[i].id != vs[n].id {
        assert rest[i] in vs[..n];
      }
      forall c ensures c in vs <==> c in vs[..n] || c == vs[n] {}
    }
  }

  lemma {:induction false} OneIsSpared(vs: seq<Candidate>, removed: set<string>)
    requires vs != [] && vs[0].id !in removed
    ensures |OldestFirst(vs, removed)| < |vs|
  {
    if |vs| > 1 { OneIsSpared(vs[..|vs| - 1], removed); }
  }

  /** What a prune's removal list is: exactly the generations that do not survive. */
  lemma OrderIsDropped(d: Dir, source: Option<string>, vs: seq<Candidate>, cut: nat, protected: Option<string>,
                       removed: set<string>)
    requires Lists(vs, Generations(d, source)) && vs != [] && cut >= 1 && RemovedAt(vs, cut, protected, removed)
    ensures var order := OldestFirst(vs, removed);
      && Removable(d, order) && |order| < |vs|
      && (forall i :: 0 <= i < |order| ==> protected != Some(order[i].id))
      && (forall m :: Named(order, |order|, m) <==> Dropped(vs, |vs|, cut, protected, m))
  {
    ListsDistinct(vs, Generations(d, source));
    OldestFirstMeans(vs, removed);
    RemovedMeans(vs, cut, protected, removed, 0);
    OneIsSpared(vs, removed);
    var order := OldestFirst(vs, removed);
    forall i | 0 <= i < |order| ensures Verified(d, order[i].id) && protected != Some(order[i].id) {
      assert order[i] in order;
      var k :| 0 <= k < |vs| && vs[k] == order[i];
      RemovedMeans(vs, cut, protected, removed, k);
    }
    forall m ensures Named(order, |order|, m) <==> m in removed {
      if m in removed {
        var k: nat :| k < |vs| && vs[k].id == m && !Survives(vs, cut, protected, k);
        assert vs[k] in order;
      }
      if Named(order, |order|, m) {
        var i :| 0 <= i < |order| && order[i].id == m;
        assert order[i] in order;
      }
    }
  }

  /** The directory after a prune: the same, less the generations that do not survive. */
  ghost predicate PrunedTo(d: Dir, e: Dir, vs: seq<Candidate>, cut: nat, protected: Option<string>) {
    forall m :: m in e.manifests <==> m in d.manifests && !Dropped(vs, |vs|, cut, protected, m)
  }

  lemma LessIsPruned(d: Dir, vs: seq<Candidate>, cut: nat, protected: Option<string>, order: seq<Candidate>)
    requires Removable(d, order) && forall m :: Named(order, |order|, m) <==> Dropped(vs, |vs|, cut, protected, m)
    ensures PrunedTo(d, Less(d, order, |order|), vs, cut, protected)
  {
    forall m ensures m in Less(d, order, |order|).manifests <==>
      m in d.manifests && !Dropped(vs, |vs|, cut, protected, m) {
      LeftAfter(d, order, |order|, m, "");
    }
  }

  /** The removal list of a prune: oldest first, exactly what does not survive. */
  ghost predicate RemovalList(d: Dir, vs: seq<Candidate>, cut: nat, protected: Option<string>, order: seq<Candidate>) {
    && Removable(d, order) && (forall i, j :: 0 <= i < j < |order| ==> Newer(order[j], order[i]))
    && forall m :: Named(order, |order|, m) <==> Dropped(vs, |vs|, cut, protected, m)
  }

  predicate ProtectionThere(d: Dir, protected: Option<string>) { protected.None? || protected.value in d.manifests }

  /** Prunes superseded generations, oldest first. A protected manifest that is not there is
      an error; with at most one verified generation nothing is done; and it completes
      exactly when no two of the generations it removes share a payload. */
  method PruneVerifiedBackups(folder: Folder, retention: int, budget: int, source: Option<string>,
                              protected: Option<string>)
      returns (ok: bool, ghost vs: seq<Candidate>, ghost cut: nat, ghost order: seq<Candidate>, ghost n: nat)
    modifies folder
    ensures Lists(vs, Generations(old(folder.dir), source))
    ensures !ProtectionThere(old(folder.dir), protected) || |vs| <= 1 ==>
      order == [] && (ok <==> ProtectionThere(old(folder.dir), protected))
    ensures ProtectionThere(old(folder.dir), protected) && |vs| > 1 ==>
      && Settled(vs, retention, budget, protected, Sizes(old(folder.dir)), cut)
      && RemovalList(old(folder.dir), vs, cut, protected, order) && (ok <==> SharesNone(old(folder.dir), order))
      && (ok ==> PrunedTo(old(folder.dir), folder.dir, vs, cut, protected))
    ensures Removable(old(folder.dir), order) && GetsTo(old(folder.dir), order, n)
    ensures folder.dir == Less(old(folder.dir), order, n)
      && folder.trail == old(folder.trail) + Steps(old(folder.dir), order, n)
  {
    var verified := Collect(folder.dir, source);
    vs, cut, order, n := verified, 1, [], 0;
    if protected.Some? && protected.value !in folder.dir.manifests { return false, vs, cut, order, n; }
    if |verified| <= 1 { return true, vs, cut, order, n; }
    ListsDistinct(verified, Generations(folder.dir, source));
    var removed;
    removed, cut := PlanRemoval(verified, retention, budget, protected, Sizes(folder.dir));
    var removals := OldestFirst(verified, removed);
    OrderIsDropped(folder.dir, source, verified, cut, protected, removed);
    OldestFirstMeans(verified, removed);
    order := removals;
    ok, n := folder.RemoveInOrder(removals, |verified|, protected);
    CompletesIff(old(folder.dir), order, n);
    LessIsPruned(old(folder.dir), vs, cut, protected, order);
  }

  /** Without shared payloads every state of a prune keeps every remaining manifest backed,
      and the prune completes. */
  lemma UnsharedPruneKeeps(d: Dir, order: seq<Candidate>, n: nat, i: nat)
    requires Removable(d, order) && Unshared(d) && GetsTo(d, order, n)
    ensures n == |order| && (i < |Steps(d, order, n)| ==> Keeps(d, Steps(d, order, n)[i]))
  {
    UnsharedSharesNone(d, order);
    CompletesIff(d, order, n);
    if i < |Steps(d, order, n)| { StepsKeep(d, order, n, i); }
  }

  // ---------------------------------------------------------------- publishing

  /** Where an exception strikes while a backup is being created. */
  datatype Fault = NoFault | WhileCopying | AfterPayload | AfterManifest

  function WithPayload(d: Dir, m: Manifest): Dir { d.(payloads := d.payloads[m.payload := m.content]) }

  function WithManifest(d: Dir, name: string, m: Manifest): Dir { d.(manifests := d.manifests[name := m]) }

  /** File names carry a time stamp: neither is in use. */
  predicate NewNames(d: Dir, name: string, m: Manifest) { m.payload !in d.payloads && name !in d.manifests }

  /** Every manifest is backed by a payload of its own. */
  ghost predicate Sound(d: Dir) { AllVerified(d) && Unshared(d) }

  lemma PublishKeeps(d: Dir, name: string, m: Manifest)
    requires NewNames(d, name, m) && Sound(d)
    ensures AllVerified(WithPayload(d, m)) && Sound(WithManifest(WithPayload(d, m), name, m))
  {
    var e := WithManifest(WithPayload(d, m), name, m);
    forall n | n in d.manifests ensures Verified(d, n) && Verified(e, n) {}
    forall a, b ensures !Clash(e, a, b) { assert !Clash(d, a, b); }
  }

  /** Undoing a publication restores the directory, but its payload goes first: the state in
      between advertises a missing payload exactly when the manifest was already there. */
  lemma RollbackIff(d: Dir, name: string, m: Manifest, e: Dir)
    requires NewNames(d, name, m)
    requires e == WithPayload(d, m) || e == WithManifest(WithPayload(d, m), name, m)
    ensures AllVerified(d) ==> (AllVerified(WithoutPayload(e, m.payload)) <==> name !in e.manifests)
    ensures WithoutManifest(WithoutPayload(e, m.payload), name) == d
  {
    var f := WithoutPayload(e, m.payload);
    forall n | n in d.manifests && Verified(d, n) ensures Verified(f, n) {}
    assert name in f.manifests ==> !Verified(f, name);
    assert f.payloads == d.payloads;
    assert f.manifests - {name} == d.manifests;
  }

  /** The states a rollback goes through: payload first, if there is one. */
  function Unwound(d: Dir, name: string, m: Manifest): seq<Dir> {
    (if m.payload in d.payloads then [WithoutPayload(d, m.payload)] else [])
    + [WithoutManifest(WithoutPayload(d, m.payload), name)]
  }

  /** The states a publication goes through, up to the prune or to the end of its rollback. */
  function Publication(d: Dir, name: string, m: Manifest, fault: Fault): seq<Dir> {
    var e := WithPayload(d, m);
    var f := WithManifest(e, name, m);
    match fault
    case WhileCopying => Unwound(d, name, m)
    case AfterPayload => [e] + Unwound(e, name, m)
    case AfterManifest => [e, f] + Unwound(f, name, m)
    case NoFault => [e, f]
  }

  /** Removes whatever is under the two names, payload first. */
  method Rollback(folder: Folder, name: string, m: Manifest)
    modifies folder
    ensures folder.dir == WithoutManifest(WithoutPayload(old(folder.dir), m.payload), name)
    ensures folder.trail == old(folder.trail) + Unwound(old(folder.dir), name, m)
  {
    var gone := folder.UnlinkPayload(m.payload);
    folder.UnlinkManifest(name);
    assert !gone ==> WithoutPayload(old(folder.dir), m.payload) == old(folder.dir);
  }

  /** Publishes payload then manifest, verifies, and prunes as well as it can; an exception
      removes whatever is under the two names. */
  method CreateVerifiedBackup(folder: Folder, name: string, m: Manifest, fault: Fault, retention: int, budget: int)
      returns (ok: bool, ghost order: seq<Candidate>, ghost n: nat)
    modifies folder
    ensures ok <==> fault.NoFault?
    ensures !ok ==> folder.dir == WithoutManifest(WithoutPayload(old(folder.dir), m.payload), name)
    ensures !ok ==> folder.trail == old(folder.trail) + Publication(old(folder.dir), name, m, fault)
    ensures ok ==>
      var d := WithManifest(WithPayload(old(folder.dir), m), name, m);
      && Removable(d, order) && GetsTo(d, order, n) && Spares(order, Some(name)) && folder.dir == Less(d, order, n)
      && folder.trail == old(folder.trail) + Publication(old(folder.dir), name, m, fault) + Steps(d, order, n)
    ensures ok ==> name in folder.dir.manifests && folder.dir.manifests[name] == m
    ensures NewNames(old(folder.dir), name, m) && !ok ==> folder.dir == old(folder.dir)
    ensures NewNames(old(folder.dir), name, m) && Sound(old(folder.dir)) ==>
      && (ok ==> AllVerified(folder.dir)) && |old(folder.trail)| <= |folder.trail|
      && BreaksOnlyAt(folder.trail[|old(folder.trail)|..], fault)
  {
    ghost var d, t := folder.dir, folder.trail;
    order, n := [], 0;
    UndoneIsGone(d, name, m);
    if NewNames(d, name, m) && Sound(d) { PublicationBreaks(d, name, m, fault); }
    ok := Publish(folder, name, m, fault);
    assert folder.trail[|t|..] == Publication(d, name, m, fault);
    if !ok { return; }
    order, n := PruneAround(folder, name, m, retention, budget);
    if NewNames(d, name, m) && Sound(d) { PublishedPruneBreaks(d, name, m, order, n); }
    assert folder.trail[|t|..]
      == Publication(d, name, m, fault) + Steps(WithManifest(WithPayload(d, m), name, m), order, n);
  }

  /** The part of a creation that is undone on an exception. */
  method Publish(folder: Folder, name: string, m: Manifest, fault: Fault) returns (ok: bool)
    modifies folder
    ensures ok <==> fault.NoFault?
    ensures !ok ==> folder.dir == WithoutManifest(WithoutPayload(old(folder.dir), m.payload), name)
    ensures ok ==> folder.dir == WithManifest(WithPayload(old(folder.dir), m), name, m)
    ensures folder.trail == old(folder.trail) + Publication(old(folder.dir), name, m, fault)
  {
    UndoneIsGone(folder.dir, name, m);
    ok := false;
    if fault.WhileCopying? {
      Rollback(folder, name, m);
      return;
    }
    folder.Put(WithPayload(folder.dir, m));
    if fault.AfterPayload? {
      Rollback(folder, name, m);
      return;
    }
    folder.Put(WithManifest(folder.dir, name, m));
    if fault.AfterManifest? {
      Rollback(folder, name, m);
      return;
    }
    ok := true;
  }

  /** Every state advertises only what is there, except the one between the two unlinks of a
      rollback that found the manifest already published. */
  ghost predicate BreaksOnlyAt(trail: seq<Dir>, fault: Fault) {
    forall i :: 0 <= i < |trail| ==> (AllVerified(trail[i]) <==> !(fault.AfterManifest? && i == 2))
  }

  lemma PublicationBreaks(d: Dir, name: string, m: Manifest, fault: Fault)
    requires NewNames(d, name, m) && Sound(d)
    ensures BreaksOnlyAt(Publication(d, name, m, fault), fault)
  {
    var states := Publication(d, name, m, fault);
    forall i | 0 <= i < |states| ensures AllVerified(states[i]) <==> !(fault.AfterManifest? && i == 2) {
      PublicationBreaksIff(d, name, m, fault, i);
    }
  }

  lemma PublishedPruneBreaks(d: Dir, name: string, m: Manifest, order: seq<Candidate>, n: nat)
    requires NewNames(d, name, m) && Sound(d)
    requires var e := WithManifest(WithPayload(d, m), name, m); Removable(e, order) && GetsTo(e, order, n)
    ensures var e := WithManifest(WithPayload(d, m), name, m);
      AllVerified(Less(e, order, n)) && BreaksOnlyAt(Publication(d, name, m, NoFault) + Steps(e, order, n), NoFault)
  {
    var e, front := WithManifest(WithPayload(d, m), name, m), Publication(d, name, m, NoFault);
    PublicationBreaks(d, name, m, NoFault);
    PublishedPruneKeeps(d, name, m, order, n, 0);
    forall i | 0 <= i < |front + Steps(e, order, n)| ensures AllVerified((front + Steps(e, order, n))[i]) {
      if i < |front| {
        assert AllVerified(front[i]);
      } else {
        PublishedPruneKeeps(d, name, m, order, n, i - |front|);
      }
    }
  }

  /** With new names and a sound directory, every state of a publication advertises only what
      is there, except the one between the two unlinks of a rollback that found the manifest
      already published. */
  lemma PublicationBreaksIff(d: Dir, name: string, m: Manifest, fault: Fault, i: nat)
    requires NewNames(d, name, m) && Sound(d) && i < |Publication(d, name, m, fault)|
    ensures AllVerified(Publication(d, name, m, fault)[i]) <==> !(fault.AfterManifest? && i == 2)
  {
    PublishKeeps(d, name, m);
    RollbackIff(d, name, m, WithPayload(d, m));
    RollbackIff(d, name, m, WithManifest(WithPayload(d, m), name, m));
    UndoneIsGone(d, name, m);
  }

  /** And so does every state of the prune that follows. */
  lemma PublishedPruneKeeps(d: Dir, name: string, m: Manifest, order: seq<Candidate>, n: nat, i: nat)
    requires NewNames(d, name, m) && Sound(d)
    requires var e := WithManifest(WithPayload(d, m), name, m); Removable(e, order) && GetsTo(e, order, n)
    ensures var e := WithManifest(WithPayload(d, m), name, m);
      AllVerified(Less(e, order, n)) && (i < |Steps(e, order, n)| ==> AllVerified(Steps(e, order, n)[i]))
  {
    PublishKeeps(d, name, m);
    SoundPrune(WithManifest(WithPayload(d, m), name, m), order, n);
  }

  /** A payload name that is in use is overwritten: that breaks a manifest exactly when one
      names it with other content. */
  lemma OverwriteKeepsIff(d: Dir, m: Manifest)
    requires AllVerified(d)
    ensures AllVerified(WithPayload(d, m)) <==>
      forall x :: x in d.manifests && d.manifests[x].payload == m.payload ==> d.manifests[x].content == m.content
  {
    var e := WithPayload(d, m);
    forall x | x in d.manifests
      ensures Verified(e, x) <==> (d.manifests[x].payload == m.payload ==> d.manifests[x].content == m.content)
    {
      assert Verified(d, x);
    }
  }

  /** Undoing after the payload, or after the manifest too, comes to the same as undoing at
      once; with new names, to nothing. */
  lemma UndoneIsGone(d: Dir, name: string, m: Manifest)
    ensures var gone := WithoutManifest(WithoutPayload(d, m.payload), name);
      && WithoutManifest(WithoutPayload(WithPayload(d, m), m.payload), name) == gone
      && WithoutManifest(WithoutPayload(WithManifest(WithPayload(d, m), name, m), m.payload), name) == gone
      && (NewNames(d, name, m) ==> gone == d)
  {
    assert d.payloads[m.payload := m.content] - {m.payload} == d.payloads - {m.payload};
    assert d.manifests[name := m] - {name} == d.manifests - {name};
    if NewNames(d, name, m) { assert d.payloads - {m.payload} == d.payloads && d.manifests - {name} == d.manifests; }
  }

  method PruneAround(folder: Folder, name: string, m: Manifest, retention: int, budget: int)
      returns (ghost order: seq<Candidate>, ghost n: nat)
    requires name in folder.dir.manifests && folder.dir.manifests[name] == m
    modifies folder
    ensures name in folder.dir.manifests && folder.dir.manifests[name] == m
    ensures Removable(old(folder.dir), order) && GetsTo(old(folder.dir), order, n) && Spares(order, Some(name))
    ensures folder.dir == Less(old(folder.dir), order, n)
    ensures folder.trail == old(folder.trail) + Steps(old(folder.dir), order, n)
  {
    ghost var vs, cut;
    var pruned;
    pruned, vs, cut, order, n := PruneVerifiedBackups(folder, retention, budget, Some(m.source), Some(name));
    ProtectedStays(old(folder.dir), vs, cut, order, n, name);
  }

  lemma KeptIsVerified(d: Dir, e: Dir)
    requires AllVerified(d) && Keeps(d, e)
    ensures AllVerified(e)
  {
    forall m | m in e.manifests ensures Verified(e, m) { assert KeepsAt(d, e, m); }
  }

  lemma SoundPrune(d: Dir, order: seq<Candidate>, n: nat)
    requires Sound(d) && Removable(d, order) && GetsTo(d, order, n)
    ensures AllVerified(Less(d, order, n))
    ensures forall i :: 0 <= i < |Steps(d, order, n)| ==> AllVerified(Steps(d, order, n)[i])
  {
    LessKeeps(d, order, n);
    KeptIsVerified(d, Less(d, order, n));
    forall i | 0 <= i < |Steps(d, order, n)| ensures AllVerified(Steps(d, order, n)[i]) {
      StepsKeep(d, order, n, i);
      KeptIsVerified(d, Steps(d, order, n)[i]);
    }
  }

  lemma ProtectedStays(d: Dir, vs: seq<Candidate>, cut: nat, order: seq<Candidate>, n: nat, name: string)
    requires name in d.manifests && Removable(d, order) && GetsTo(d, order, n)
    requires order == [] || RemovalList(d, vs, cut, Some(name), order)
    ensures name in Less(d, order, n).manifests && Less(d, order, n).manifests[name] == d.manifests[name]
    ensures Spares(order, Some(name))
  {
    LeftAfter(d, order, n, name, "");
    assert !Dropped(vs, |vs|, cut, Some(name), name);
    assert Named(order, n, name) ==> Named(order, |order|, name);
    forall i | 0 <= i < |order| ensures order[i].id != name { assert Named(order, |order|, order[i].id); }
  }
}
