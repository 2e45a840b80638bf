/** Which verified database backups a prune keeps, under a count and a byte budget. */
module DatabaseRetention {
  import opened BackupRetention
  import opened Wrappers

  function SizeOf(sizes: map<string, nat>, c: Candidate): nat { if c.id in sizes then sizes[c.id] else 0 }

  /** The first `cut` generations of a newest-first list survive, and the protected one. */
  predicate Survives(vs: seq<Candidate>, cut: nat, protected: Option<string>, i: nat)
    requires i < |vs|
  {
    i < cut || protected == Some(vs[i].id)
  }

  function SurvivingBytes(vs: seq<Candidate>, cut: nat, protected: Option<string>, sizes: map<string, nat>): nat {
    if vs == [] then 0 else
      var n := |vs| - 1;
      SurvivingBytes(vs[..n], cut, protected, sizes)
        + (if Survives(vs, cut, protected, n) then SizeOf(sizes, vs[n]) else 0)
  }

  lemma {:induction false} OneMoreBytes(vs: seq<Candidate>, cut: nat, protected: Option<string>,
                                        sizes: map<string, nat>)
    ensures SurvivingBytes(vs, cut + 1, protected, sizes) == SurvivingBytes(vs, cut, protected, sizes)
      + (if cut < |vs| && protected != Some(vs[cut].id) then SizeOf(sizes, vs[cut]) else 0)
  {
    if vs != [] { OneMoreBytes(vs[..|vs| - 1], cut, protected, sizes); }
  }

  lemma {:induction false} MoreBytes(vs: seq<Candidate>, cut: nat, more: nat, protected: Option<string>,
                                     sizes: map<string, nat>)
    requires cut <= more
    ensures SurvivingBytes(vs, cut, protected, sizes) <= SurvivingBytes(vs, more, protected, sizes)
    decreases more - cut
  {
    if cut < more {
      OneMoreBytes(vs, cut, protected, sizes);
      MoreBytes(vs, cut + 1, more, protected, sizes);
    }
  }

  function CountKept(vs: seq<Candidate>, retention: int): nat {
    var k := if retention < 1 then 1 else retention;
    if k < |vs| then k else |vs|
  }

  /** The cut a prune settles on: all that the count allows, unless a positive budget is
      exceeded; then the most it can hold, but never nothing. */
  ghost predicate Settled(vs: seq<Candidate>, retention: int, budget: int, protected: Option<string>,
                          sizes: map<string, nat>, cut: nat) {
    && (vs == [] ==> cut == 0) && (vs != [] ==> 1 <= cut) && cut <= CountKept(vs, retention)
    && (budget <= 0 ==> cut == CountKept(vs, retention))
    && (budget > 0 && cut > 1 ==> SurvivingBytes(vs, cut, protected, sizes) <= budget)
    && (forall c :: cut < c <= CountKept(vs, retention) ==> SurvivingBytes(vs, c, protected, sizes) > budget)
  }

  /** The promises of the documentation, for any list of verified generations. */
  lemma SettledPromises(vs: seq<Candidate>, retention: int, budget: int, protected: Option<string>,
                        sizes: map<string, nat>, cut: nat)
    requires Settled(vs, retention, budget, protected, sizes, cut) && vs != []
    ensures Survives(vs, cut, protected, 0)
    ensures forall i :: 0 <= i < |vs| && protected == Some(vs[i].id) ==> Survives(vs, cut, protected, i)
    ensures forall i :: 0 <= i < |vs| && Survives(vs, cut, protected, i) ==>
      i < (if retention < 1 then 1 else retention) || protected == Some(vs[i].id)
    ensures budget > 0 ==>
      || SurvivingBytes(vs, cut, protected, sizes) <= budget
      || (forall i :: 0 <= i < |vs| && Survives(vs, cut, protected, i) ==> i == 0 || protected == Some(vs[i].id))
  {
  }

  /** No other cut both obeys the count and removes less, so nothing more is removed than
      count and budget demand. */
  lemma SettledRemovesLeast(vs: seq<Candidate>, retention: int, budget: int, protected: Option<string>,
                            sizes: map<string, nat>, cut: nat, other: nat)
    requires Settled(vs, retention, budget, protected, sizes, cut)
    requires other <= CountKept(vs, retention) && (budget > 0 ==> SurvivingBytes(vs, other, protected, sizes) <= budget)
    ensures other <= cut
  {
  }

  /** Two cuts that are both settled are the same. */
  lemma SettledUnique(vs: seq<Candidate>, retention: int, budget: int, protected: Option<string>,
                      sizes: map<string, nat>, a: nat, b: nat)
    requires Settled(vs, retention, budget, protected, sizes, a) && Settled(vs, retention, budget, protected, sizes, b)
    ensures a == b
  {
    if budget > 0 {
      assert a < b ==> SurvivingBytes(vs, b, protected, sizes) > budget;
      assert b < a ==> SurvivingBytes(vs, a, protected, sizes) > budget;
    }
  }

  /** What a prune removes, whatever settled cut one looks at. */
  ghost predicate RemovesUnsettled(vs: seq<Candidate>, retention: int, budget: int, protected: Option<string>,
                                   sizes: map<string, nat>, removed: set<string>) {
    && (exists cut: nat :: Settled(vs, retention, budget, protected, sizes, cut))
    && (forall cut: nat :: Settled(vs, retention, budget, protected, sizes, cut) ==>
         RemovedAt(vs, cut, protected, removed))
  }

  lemma CutDecides(vs: seq<Candidate>, retention: int, budget: int, protected: Option<string>,
                   sizes: map<string, nat>, removed: set<string>, cut: nat)
    requires Settled(vs, retention, budget, protected, sizes, cut) && RemovedAt(vs, cut, protected, removed)
    ensures RemovesUnsettled(vs, retention, budget, protected, sizes, removed)
  {
    forall other: nat | Settled(vs, retention, budget, protected, sizes, other) ensures other == cut {
      SettledUnique(vs, retention, budget, protected, sizes, cut, other);
    }
  }

  // ---------------------------------------------------------------- the loops

  /** Among the first `n` generations one of this name does not survive. */
  ghost predicate Dropped(vs: seq<Candidate>, n: nat, cut: nat, protected: Option<string>, id: string)
    requires n <= |vs|
  {
    exists i: nat :: i < n && vs[i].id == id && !Survives(vs, cut, protected, i)
  }

  /** What the count loop has put aside after visiting a prefix. */
  ghost predicate SplitAt(vs: seq<Candidate>, n: nat, count: nat, protected: Option<string>, kept: seq<Candidate>,
                          removed: set<string>) {
    && n <= |vs|
    && kept == vs[..if n < count then n else count] + Extra(vs, n, count, protected)
    && forall id :: id in removed <==> Dropped(vs, n, count, protected, id)
  }

  /** The protected generation, where the count alone would not keep it. */
  function Extra(vs: seq<Candidate>, n: nat, count: nat, protected: Option<string>): seq<Candidate>
    requires n <= |vs|
  {
    if n <= count then [] else
      Extra(vs, n - 1, count, protected) + (if protected == Some(vs[n - 1].id) then [vs[n - 1]] else [])
  }

  lemma {:induction false} ExtraIsProtected(vs: seq<Candidate>, n: nat, count: nat, protected: Option<string>)
    requires n <= |vs|
    ensures forall i :: 0 <= i < |Extra(vs, n, count, protected)| ==>
      protected == Some(Extra(vs, n, count, protected)[i].id)
  {
    if n > count { ExtraIsProtected(vs, n - 1, count, protected); }
  }

  ghost predicate RemovedAt(vs: seq<Candidate>, cut: nat, protected: Option<string>, removed: set<string>) {
    forall id :: id in removed <==> Dropped(vs, |vs|, cut, protected, id)
  }

  predicate DistinctIds(vs: seq<Candidate>) { forall i, j :: 0 <= i < j < |vs| ==> vs[i].id != vs[j].id }

  lemma CountIsCut(vs: seq<Candidate>, count: nat, protected: Option<string>, kept: seq<Candidate>,
                   removed: set<string>)
    requires SplitAt(vs, |vs|, count, protected, kept, removed)
    ensures RemovedAt(vs, if count < |vs| then count else |vs|, protected, removed)
  {
    var cut := if count < |vs| then count else |vs|;
    forall i: nat | i < |vs| ensures Survives(vs, cut, protected, i) <==> Survives(vs, count, protected, i) {}
  }

  /** All the bytes, less those of the generations put aside. */
  method BytesLeft(vs: seq<Candidate>, removed: set<string>, sizes: map<string, nat>, ghost cut: nat,
                   ghost protected: Option<string>)
      returns (left: int)
    requires DistinctIds(vs) && RemovedAt(vs, cut, protected, removed)
    ensures left == SurvivingBytes(vs, cut, protected, sizes)
  {
    var total, gone := 0, 0;
    for i := 0 to |vs|
      invariant total - gone == SurvivingBytes(vs[..i], cut, protected, sizes)
    {
      assert vs[..i + 1][..i] == vs[..i];
      RemovedMeans(vs, cut, protected, removed, i);
      total := total + SizeOf(sizes, vs[i]);
      if vs[i].id in removed { gone := gone + SizeOf(sizes, vs[i]); }
    }
    assert vs[..|vs|] == vs;
    left := total - gone;
  }

  lemma RemovedMeans(vs: seq<Candidate>, cut: nat, protected: Option<string>, removed: set<string>, i: nat)
    requires DistinctIds(vs) && RemovedAt(vs, cut, protected, removed) && i < |vs|
    ensures vs[i].id in removed <==> !Survives(vs, cut, protected, i)
  {
    if vs[i].id in removed {
      var j: nat :| j < |vs| && vs[j].id == vs[i].id && !Survives(vs, cut, protected, j);
      assert i == j;
    }
  }

  lemma RemoveOneMore(vs: seq<Candidate>, cut: nat, protected: Option<string>, removed: set<string>)
    requires DistinctIds(vs) && cut < |vs| && RemovedAt(vs, cut + 1, protected, removed)
    ensures protected != Some(vs[cut].id) ==> RemovedAt(vs, cut, protected, removed + {vs[cut].id})
    ensures protected == Some(vs[cut].id) ==> RemovedAt(vs, cut, protected, removed)
  {
    forall i: nat | i < |vs| && i != cut
      ensures Survives(vs, cut, protected, i) <==> Survives(vs, cut + 1, protected, i)
    {
    }
    forall id ensures Dropped(vs, |vs|, cut, protected, id)
      <==> Dropped(vs, |vs|, cut + 1, protected, id) || (id == vs[cut].id && protected != Some(id))
    {
      if id == vs[cut].id && protected != Some(id) { assert !Survives(vs, cut, protected, cut); }
    }
  }

  method SplitByCount(vs: seq<Candidate>, count: nat, protected: Option<string>)
      returns (kept: seq<Candidate>, removed: set<string>)
    ensures SplitAt(vs, |vs|, count, protected, kept, removed)
  {
    kept, removed := [], {};
    SplitStart(vs, count, protected);
    for index := 0 to |vs|
      invariant SplitAt(vs, index, count, protected, kept, removed)
    {
      if Survives(vs, count, protected, index) {
        SplitKeep(vs, index, count, protected, kept, removed);
        kept := kept + [vs[index]];
      } else {
        SplitDrop(vs, index, count, protected, kept, removed);
        removed := removed + {vs[index].id};
      }
    }
  }

  lemma SplitStart(vs: seq<Candidate>, count: nat, protected: Option<string>)
    ensures SplitAt(vs, 0, count, protected, [], {})
  {
  }

  lemma SplitKeep(vs: seq<Candidate>, n: nat, count: nat, protected: Option<string>, kept: seq<Candidate>,
                  removed: set<string>)
    requires n < |vs| && SplitAt(vs, n, count, protected, kept, removed) && Survives(vs, count, protected, n)
    ensures SplitAt(vs, n + 1, count, protected, kept + [vs[n]], removed)
  {
    if n < count { assert vs[..n + 1] == vs[..n] + [vs[n]]; }
    forall id ensures Dropped(vs, n + 1, count, protected, id) <==> Dropped(vs, n, count, protected, id) {}
  }

  lemma SplitDrop(vs: seq<Candidate>, n: nat, count: nat, protected: Option<string>, kept: seq<Candidate>,
                  removed: set<string>)
    requires n < |vs| && SplitAt(vs, n, count, protected, kept, removed) && !Survives(vs, count, protected, n)
    ensures SplitAt(vs, n + 1, count, protected, kept, removed + {vs[n].id})
  {
    forall id ensures Dropped(vs, n + 1, count, protected, id) <==>
      Dropped(vs, n, count, protected, id) || id == vs[n].id {}
  }

  /** No cut between this one and the count fits the budget. */
  ghost predicate Needed(vs: seq<Candidate>, retention: int, budget: int, protected: Option<string>,
                         sizes: map<string, nat>, cut: nat) {
    1 <= cut <= CountKept(vs, retention)
    && forall c :: cut < c <= CountKept(vs, retention) ==> SurvivingBytes(vs, c, protected, sizes) > budget
  }

  /** Walks the kept generations from the oldest, dropping unprotected ones until the budget
      is met; the newest is never reached. */
  method TrimToBudget(vs: seq<Candidate>, kept: seq<Candidate>, planned: set<string>, bytes: int, retention: int,
                      budget: int, protected: Option<string>, sizes: map<string, nat>)
      returns (removed: set<string>, ghost cut: nat)
    requires DistinctIds(vs) && vs != [] && budget > 0 && bytes > budget
    requires CountKept(vs, retention) <= |kept| && kept[..CountKept(vs, retention)] == vs[..CountKept(vs, retention)]
    requires forall i :: CountKept(vs, retention) <= i < |kept| ==> protected == Some(kept[i].id)
    requires RemovedAt(vs, CountKept(vs, retention), protected, planned)
    requires bytes == SurvivingBytes(vs, CountKept(vs, retention), protected, sizes)
    ensures Settled(vs, retention, budget, protected, sizes, cut) && RemovedAt(vs, cut, protected, removed)
  {
    removed, cut := planned, CountKept(vs, retention);
    var projected := bytes;
    var j := |kept| - 1;
    while j >= 1
      invariant 0 <= j < |kept| && Needed(vs, retention, budget, protected, sizes, cut)
      invariant cut == if j + 1 < CountKept(vs, retention) then j + 1 else CountKept(vs, retention)
      invariant RemovedAt(vs, cut, protected, removed)
      invariant projected == SurvivingBytes(vs, cut, protected, sizes) && projected > budget
    {
      var item := kept[j];
      if j < CountKept(vs, retention) {
        assert item == kept[..CountKept(vs, retention)][j] == vs[j];
        RemoveOneMore(vs, j, protected, removed);
        OneMoreBytes(vs, j, protected, sizes);
        cut := j;
      }
      if protected != Some(item.id) {
        removed := removed + {item.id};
        projected := projected - SizeOf(sizes, item);
        if projected <= budget { break; }
      }
      j := j - 1;
    }
  }

  /** Count first, then the byte budget. */
  method PlanRemoval(vs: seq<Candidate>, retention: int, budget: int, protected: Option<string>,
                     sizes: map<string, nat>)
      returns (removed: set<string>, ghost cut: nat)
    requires DistinctIds(vs) && vs != []
    ensures RemovesUnsettled(vs, retention, budget, protected, sizes, removed)
    ensures Settled(vs, retention, budget, protected, sizes, cut) && RemovedAt(vs, cut, protected, removed)
  {
    var keepCount := if retention < 1 then 1 else retention;
    var kept;
    kept, removed := SplitByCount(vs, keepCount, protected);
    cut := CountKept(vs, retention);
    CountIsCut(vs, keepCount, protected, kept, removed);
    ExtraIsProtected(vs, |vs|, keepCount, protected);
    var projected := BytesLeft(vs, removed, sizes, cut, protected);
    if budget > 0 && projected > budget {
      removed, cut := TrimToBudget(vs, kept, removed, projected, retention, budget, protected, sizes);
    }
    CutDecides(vs, retention, budget, protected, sizes, removed, cut);
  }
}
