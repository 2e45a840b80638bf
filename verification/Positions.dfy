/** The tables a reconciliation builds from raw rows: open positions, spot inventory,
    managed positions and margin liabilities. */
module Positions {
  import opened Text
  import opened Account
  import Tally

  // ---------------------------------------------------------------- open positions

  type PositionTable = map<string, PositionRow>

  /** The first open row of each symbol. */
  function PositionMapOf(rows: seq<Row<PositionRow>>, tolerance: real): PositionTable {
    if rows == [] then map[]
    else
      var r, m := rows[|rows| - 1], PositionMapOf(rows[..|rows| - 1], tolerance);
      if r.Mapping? && OpenIn(r, tolerance, Upper(r.row.symbol)) && Upper(r.row.symbol) !in m
      then m[Upper(r.row.symbol) := r.row] else m
  }

  function OpenMark(tolerance: real, s: string): Row<PositionRow> -> real {
    r => if OpenIn(r, tolerance, s) then 1.0 else 0.0
  }

  /** How many rows report open exposure in `s`. */
  function OpenCount(rows: seq<Row<PositionRow>>, tolerance: real, s: string): real {
    Tally.Sum(OpenMark(tolerance, s), rows)
  }

  ghost predicate Repeated(rows: seq<Row<PositionRow>>, tolerance: real, s: string) {
    OpenCount(rows, tolerance, s) >= 2.0
  }

  lemma {:induction false} PositionMapMeaning(rows: seq<Row<PositionRow>>, tolerance: real, s: string)
    ensures var m := PositionMapOf(rows, tolerance);
            && (s in m <==> exists i :: 0 <= i < |rows| && OpenIn(rows[i], tolerance, s))
            && (s in m ==> exists i :: 0 <= i < |rows| && OpenIn(rows[i], tolerance, s) && m[s] == rows[i].row
                             && forall j :: 0 <= j < i ==> !OpenIn(rows[j], tolerance, s))
  {
    if rows != [] {
      var init := rows[..|rows| - 1];
      PositionMapMeaning(init, tolerance, s);
      var last := |rows| - 1;
      assert forall i :: 0 <= i < last ==> init[i] == rows[i];
      if s in PositionMapOf(init, tolerance) {
        var i :| 0 <= i < |init| && OpenIn(init[i], tolerance, s) && PositionMapOf(init, tolerance)[s] == init[i].row
                 && forall j :: 0 <= j < i ==> !OpenIn(init[j], tolerance, s);
        assert OpenIn(rows[i], tolerance, s);
      } else if OpenIn(rows[last], tolerance, s) {
        assert PositionMapOf(rows, tolerance)[s] == rows[last].row;
      }
    }
  }

  lemma OpenCountOne(rows: seq<Row<PositionRow>>, tolerance: real, s: string, i: nat)
    requires i < |rows| && OpenIn(rows[i], tolerance, s)
    ensures OpenCount(rows, tolerance, s) >= 1.0
  {
    Tally.SumAtLeastOne(OpenMark(tolerance, s), rows, i);
  }

  lemma OpenCountTwo(rows: seq<Row<PositionRow>>, tolerance: real, s: string, i: nat, j: nat)
    requires i < j < |rows| && OpenIn(rows[i], tolerance, s) && OpenIn(rows[j], tolerance, s)
    ensures Repeated(rows, tolerance, s)
  {
    var f := OpenMark(tolerance, s);
    Tally.SumWithout(f, rows, j);
    var rest := Tally.Without(rows, j);
    assert rest[i] == rows[i];
    Tally.SumAtLeastOne(f, rest, i);
  }

  lemma {:induction false} OpenCountZero(rows: seq<Row<PositionRow>>, tolerance: real, s: string)
    requires forall i :: 0 <= i < |rows| ==> !OpenIn(rows[i], tolerance, s)
    ensures OpenCount(rows, tolerance, s) == 0.0
  {
    if rows != [] { OpenCountZero(rows[1..], tolerance, s); }
  }

  /** Builds the table and collects the symbols met more than once. */
  method PositionMap(rows: seq<Row<PositionRow>>, tolerance: real)
      returns (result: PositionTable, duplicates: set<string>)
    ensures result == PositionMapOf(rows, tolerance)
    ensures forall s :: s in duplicates <==> Repeated(rows, tolerance, s)
  {
    result, duplicates := map[], {};
    forall s ensures OpenCount([], tolerance, s) == 0.0 {}
    for i := 0 to |rows|
      invariant result == PositionMapOf(rows[..i], tolerance)
      invariant forall s :: s in duplicates <==> Repeated(rows[..i], tolerance, s)
    {
      var r := rows[i];
      var symbol := if r.Mapping? then Upper(r.row.symbol) else "";
      TableStep(rows, tolerance, i);
      forall s ensures OpenCount(rows[..i + 1], tolerance, s)
        == OpenCount(rows[..i], tolerance, s) + OpenMark(tolerance, s)(r) {
        Tally.SumPrefix(OpenMark(tolerance, s), rows, i);
      }
      if r.Mapping? && OpenIn(r, tolerance, symbol) {
        SeenOnce(rows[..i], tolerance, symbol);
        if symbol in result {
          duplicates := duplicates + {symbol};
        } else {
          result := result[symbol := r.row];
        }
      }
    }
    assert rows[..|rows|] == rows;
  }

  lemma TableStep(rows: seq<Row<PositionRow>>, tolerance: real, i: nat)
    requires i < |rows|
    ensures var r, m := rows[i], PositionMapOf(rows[..i], tolerance);
            PositionMapOf(rows[..i + 1], tolerance) ==
            if r.Mapping? && OpenIn(r, tolerance, Upper(r.row.symbol)) && Upper(r.row.symbol) !in m
            then m[Upper(r.row.symbol) := r.row] else m
  {
    assert rows[..i + 1][..i] == rows[..i];
  }

  /** A symbol is in the table exactly when at least one row counted for it. */
  lemma SeenOnce(rows: seq<Row<PositionRow>>, tolerance: real, s: string)
    ensures s in PositionMapOf(rows, tolerance) ==> OpenCount(rows, tolerance, s) >= 1.0
    ensures s !in PositionMapOf(rows, tolerance) ==> OpenCount(rows, tolerance, s) == 0.0
  {
    PositionMapMeaning(rows, tolerance, s);
    if s in PositionMapOf(rows, tolerance) {
      var i :| 0 <= i < |rows| && OpenIn(rows[i], tolerance, s);
      OpenCountOne(rows, tolerance, s, i);
    } else {
      OpenCountZero(rows, tolerance, s);
    }
  }

  /** Reordering the rows of an endpoint repeats the same symbols, and when none repeats
      it gives the same table. */
  lemma PositionMapPermutes(a: seq<Row<PositionRow>>, b: seq<Row<PositionRow>>, tolerance: real)
    requires multiset(a) == multiset(b)
    ensures forall s :: Repeated(a, tolerance, s) <==> Repeated(b, tolerance, s)
    ensures (forall s :: !Repeated(a, tolerance, s)) ==> PositionMapOf(a, tolerance) == PositionMapOf(b, tolerance)
  {
    forall s ensures OpenCount(a, tolerance, s) == OpenCount(b, tolerance, s) {
      Tally.SumPermutes(OpenMark(tolerance, s), a, b);
    }
    if forall s :: !Repeated(a, tolerance, s) {
      var m, n := PositionMapOf(a, tolerance), PositionMapOf(b, tolerance);
      forall s: string
        ensures s in m <==> s in n
        ensures s in m && s in n ==> m[s] == n[s]
      {
        assert !Repeated(a, tolerance, s);
        SameEntry(a, b, tolerance, s);
      }
    }
  }

  lemma SameEntry(a: seq<Row<PositionRow>>, b: seq<Row<PositionRow>>, tolerance: real, s: string)
    requires multiset(a) == multiset(b) && !Repeated(b, tolerance, s)
    requires OpenCount(a, tolerance, s) == OpenCount(b, tolerance, s)
    ensures var m, n := PositionMapOf(a, tolerance), PositionMapOf(b, tolerance);
            (s in m <==> s in n) && (s in m ==> m[s] == n[s])
  {
    var m, n := PositionMapOf(a, tolerance), PositionMapOf(b, tolerance);
    SeenOnce(a, tolerance, s);
    SeenOnce(b, tolerance, s);
    if s in m {
      PositionMapMeaning(a, tolerance, s);
      PositionMapMeaning(b, tolerance, s);
      var i :| 0 <= i < |a| && OpenIn(a[i], tolerance, s) && m[s] == a[i].row;
      var j :| 0 <= j < |b| && OpenIn(b[j], tolerance, s) && n[s] == b[j].row;
      assert a[i] in multiset(b);
      var k :| 0 <= k < |b| && b[k] == a[i];
      if k < j { OpenCountTwo(b, tolerance, s, k, j); }
      if j < k { OpenCountTwo(b, tolerance, s, j, k); }
    }
  }

  // ---------------------------------------------------------------- spot inventory

  function BalanceMark(tolerance: real, asset: string): Row<BalanceRow> -> real {
    r => if CountsFor(r, tolerance, asset) then BalanceQty(r.row) else 0.0
  }

  /** Spot inventory of an asset: free plus locked over the rows above tolerance. */
  function Inventory(rows: seq<Row<BalanceRow>>, tolerance: real, asset: string): real {
    Tally.Sum(BalanceMark(tolerance, asset), rows)
  }

  ghost predicate Held(rows: seq<Row<BalanceRow>>, tolerance: real, asset: string) {
    exists i :: 0 <= i < |rows| && CountsFor(rows[i], tolerance, asset)
  }

  function Get(m: map<string, real>, k: string): real { if k in m then m[k] else 0.0 }

  method SpotBalances(rows: seq<Row<BalanceRow>>, tolerance: real) returns (balances: map<string, real>)
    ensures forall a :: a in balances <==> Held(rows, tolerance, a)
    ensures forall a :: Get(balances, a) == Inventory(rows, tolerance, a)
  {
    balances := map[];
    for i := 0 to |rows|
      invariant forall a :: a in balances <==> Held(rows[..i], tolerance, a)
      invariant forall a :: Get(balances, a) == Inventory(rows[..i], tolerance, a)
    {
      var r := rows[i];
      forall a
        ensures Inventory(rows[..i + 1], tolerance, a)
          == Inventory(rows[..i], tolerance, a) + BalanceMark(tolerance, a)(r)
        ensures Held(rows[..i + 1], tolerance, a) <==> Held(rows[..i], tolerance, a) || CountsFor(r, tolerance, a)
      {
        Tally.SumPrefix(BalanceMark(tolerance, a), rows, i);
        HeldStep(rows, tolerance, i, a);
      }
      if r.Mapping? {
        var asset := Upper(r.row.asset);
        if CountsFor(r, tolerance, asset) {
          balances := balances[asset := Get(balances, asset) + BalanceQty(r.row)];
        }
      }
    }
    assert rows[..|rows|] == rows;
  }

  lemma HeldStep(rows: seq<Row<BalanceRow>>, tolerance: real, i: nat, a: string)
    requires i < |rows|
    ensures Held(rows[..i + 1], tolerance, a) <==> Held(rows[..i], tolerance, a) || CountsFor(rows[i], tolerance, a)
  {
    if Held(rows[..i], tolerance, a) {
      var k :| 0 <= k < i && CountsFor(rows[..i][k], tolerance, a);
      assert CountsFor(rows[..i + 1][k], tolerance, a);
    }
    if CountsFor(rows[i], tolerance, a) { assert CountsFor(rows[..i + 1][i], tolerance, a); }
    if Held(rows[..i + 1], tolerance, a) {
      var k :| 0 <= k < i + 1 && CountsFor(rows[..i + 1][k], tolerance, a);
      if k < i { assert CountsFor(rows[..i][k], tolerance, a); }
    }
  }

  lemma InventoryPermutes(a: seq<Row<BalanceRow>>, b: seq<Row<BalanceRow>>, tolerance: real, asset: string)
    requires multiset(a) == multiset(b)
    ensures Inventory(a, tolerance, asset) == Inventory(b, tolerance, asset)
    ensures Held(a, tolerance, asset) <==> Held(b, tolerance, asset)
  {
    Tally.SumPermutes(BalanceMark(tolerance, asset), a, b);
    if Held(a, tolerance, asset) { HeldIn(a, b, tolerance, asset); }
    if Held(b, tolerance, asset) { HeldIn(b, a, tolerance, asset); }
  }

  lemma HeldIn(a: seq<Row<BalanceRow>>, b: seq<Row<BalanceRow>>, tolerance: real, asset: string)
    requires multiset(a) == multiset(b) && Held(a, tolerance, asset)
    ensures Held(b, tolerance, asset)
  {
    var i :| 0 <= i < |a| && CountsFor(a[i], tolerance, asset);
    assert a[i] in multiset(b);
    var k :| 0 <= k < |b| && b[k] == a[i];
  }
}
