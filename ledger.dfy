/** The cost ledger: a fixed table of eight priced line items. A recompute
    overwrites the quantities of seven rows from the bill; unit costs are the
    user's and only change when the user edits one; the grand total sums
    quantity times unit cost, reading anything that is not a number as 0. */
module Ledger {
  import opened Numeric
  import opened Quantities

  datatype Option<T> = None | Some(value: T)

  /** `Number(x) || 0`: a field that is not a number (None) reads as 0. */
  function NumberOrZero(x: Option<real>): (r: real)
    ensures x.Some? ==> r == x.value
    ensures x.None? ==> r == 0.0
  {
    match x
    case Some(v) => v
    case None => 0.0
  }

  datatype Row = Row(
    key: string,
    caption: string,
    unit: string,
    unitCost: Option<real>,
    qty: Option<real>)

  function Subtotal(row: Row): real
  {
    NumberOrZero(row.qty) * NumberOrZero(row.unitCost)
  }

  /** The grand total as the source's loop accumulates it, first row first. */
  function Total(rows: seq<Row>): (r: real)
    ensures rows == [] ==> r == 0.0
    ensures |rows| == 1 ==> r == Subtotal(rows[0])
  {
    if rows == [] then 0.0 else Total(rows[..|rows| - 1]) + Subtotal(rows[|rows| - 1])
  }

  /** A table whose every line costs nothing negative totals nothing negative. */
  lemma {:induction false} TotalNonNegative(rows: seq<Row>)
    requires forall i :: 0 <= i < |rows| ==> Subtotal(rows[i]) >= 0.0
    ensures Total(rows) >= 0.0
  {
    if rows != [] {
      TotalNonNegative(rows[..|rows| - 1]);
    }
  }

  const Keys: seq<string> :=
    ["studs_2x4_8", "plates_2x4", "floor_sheath", "wall_sheath",
     "roofing", "rafters", "windows", "fasteners"]

  /** The `costByKey` lookup: each key to its row's position in the table. */
  const KeyIndex: map<string, nat> :=
    map["studs_2x4_8" := 0, "plates_2x4" := 1, "floor_sheath" := 2, "wall_sheath" := 3,
        "roofing" := 4, "rafters" := 5, "windows" := 6, "fasteners" := 7]

  /** `new Map(costModel.map(r => [r.key, r]))`: the index holds exactly the
      table's keys, and each key leads to its own row. */
  lemma KeyIndexPositions()
    ensures forall k :: k in KeyIndex <==> k in Keys
    ensures forall i :: 0 <= i < |Keys| ==> Keys[i] in KeyIndex && KeyIndex[Keys[i]] == i
  {
  }

  /** The rows `costByKey` finds for the seven keys the recompute writes. */
  lemma BillKeyRows()
    ensures "studs_2x4_8" in KeyIndex && KeyIndex["studs_2x4_8"] == 0
    ensures "plates_2x4" in KeyIndex && KeyIndex["plates_2x4"] == 1
    ensures "floor_sheath" in KeyIndex && KeyIndex["floor_sheath"] == 2
    ensures "wall_sheath" in KeyIndex && KeyIndex["wall_sheath"] == 3
    ensures "roofing" in KeyIndex && KeyIndex["roofing"] == 4
    ensures "rafters" in KeyIndex && KeyIndex["rafters"] == 5
    ensures "windows" in KeyIndex && KeyIndex["windows"] == 6
  {
  }

  /** The table as the page first builds it. */
  function InitialRows(): (rows: seq<Row>)
    ensures |rows| == |Keys|
    ensures forall i :: 0 <= i < |rows| ==> rows[i].key == Keys[i]
  {
    [Row("studs_2x4_8", "2\U{00D7}4 studs (8 ft)", "ea", Some(4.25), Some(0.0)),
     Row("plates_2x4", "2\U{00D7}4 plates (linear ft)", "ft", Some(0.85), Some(0.0)),
     Row("floor_sheath", "Floor sheathing (sq ft)", "sqft", Some(1.65), Some(0.0)),
     Row("wall_sheath", "Wall sheathing / siding area (sq ft)", "sqft", Some(2.10), Some(0.0)),
     Row("roofing", "Roofing (sq ft)", "sqft", Some(2.60), Some(0.0)),
     Row("rafters", "Rafters (linear ft)", "ft", Some(1.25), Some(0.0)),
     Row("windows", "Windows", "ea", Some(175.00), Some(0.0)),
     Row("fasteners", "Fasteners / misc", "allowance", Some(250.00), Some(1.0))]
  }

  /** The seven keys whose quantity a recompute overwrites. */
  predicate IsBillKey(key: string)
  {
    key == "studs_2x4_8" || key == "plates_2x4" || key == "floor_sheath" ||
    key == "wall_sheath" || key == "roofing" || key == "rafters" || key == "windows"
  }

  /** The quantity a recompute writes into the row with `key`: counts are
      copied, lengths and areas rounded to hundredths. */
  function BillQuantity(b: Bill, key: string): real
    requires IsBillKey(key)
  {
    if key == "studs_2x4_8" then b.studs
    else if key == "plates_2x4" then Round2(b.platesLf)
    else if key == "floor_sheath" then Round2(b.floorArea)
    else if key == "wall_sheath" then Round2(b.wallAreaNet)
    else if key == "roofing" then Round2(b.roofArea)
    else if key == "rafters" then Round2(b.raftersLf)
    else b.windows
  }

  /** The bill field each ledger key is joined to, before rounding. */
  function BillField(b: Bill, key: string): real
    requires IsBillKey(key)
  {
    if key == "studs_2x4_8" then b.studs
    else if key == "plates_2x4" then b.platesLf
    else if key == "floor_sheath" then b.floorArea
    else if key == "wall_sheath" then b.wallAreaNet
    else if key == "roofing" then b.roofArea
    else if key == "rafters" then b.raftersLf
    else b.windows
  }

  /** The table after `updateCostQuantities(b)`, joined by key. */
  function ApplyBill(rows: seq<Row>, b: Bill): (r: seq<Row>)
    ensures |r| == |rows|
    ensures forall i :: 0 <= i < |rows| ==>
      r[i].key == rows[i].key && r[i].caption == rows[i].caption &&
      r[i].unit == rows[i].unit && r[i].unitCost == rows[i].unitCost
    ensures forall i :: 0 <= i < |rows| && !IsBillKey(rows[i].key) ==> r[i] == rows[i]
  {
    seq(|rows|, i requires 0 <= i < |rows| =>
      if IsBillKey(rows[i].key) then rows[i].(qty := Some(BillQuantity(b, rows[i].key)))
      else rows[i])
  }

  /** On a table laid out as the page lays it out, the join by key writes
      rows 0 to 6 and leaves the fasteners row alone. */
  lemma ApplyBillByPosition(rows: seq<Row>, b: Bill)
    requires |rows| == |Keys| && forall i :: 0 <= i < |rows| ==> rows[i].key == Keys[i]
    ensures ApplyBill(rows, b) ==
      [rows[0].(qty := Some(b.studs)),
       rows[1].(qty := Some(Round2(b.platesLf))),
       rows[2].(qty := Some(Round2(b.floorArea))),
       rows[3].(qty := Some(Round2(b.wallAreaNet))),
       rows[4].(qty := Some(Round2(b.roofArea))),
       rows[5].(qty := Some(Round2(b.raftersLf))),
       rows[6].(qty := Some(b.windows)),
       rows[7]]
  {
    assert !IsBillKey(Keys[7]);
  }

  /** A recompute keeps every row's key, caption (label), unit and unit cost, keeps the
      quantity of every row it has no bill field for (the fasteners
      allowance), and writes each other quantity to within half a cent of
      the bill's value, exactly for the stud and window counts. */
  lemma ApplyBillSpec(rows: seq<Row>, b: Bill)
    ensures |ApplyBill(rows, b)| == |rows|
    ensures forall i :: 0 <= i < |rows| ==>
      var r := ApplyBill(rows, b)[i];
      r.key == rows[i].key && r.caption == rows[i].caption && r.unit == rows[i].unit &&
      r.unitCost == rows[i].unitCost &&
      (!IsBillKey(rows[i].key) ==> r.qty == rows[i].qty) &&
      (IsBillKey(rows[i].key) ==>
        (r.qty.Some? &&
         BillField(b, rows[i].key) - 0.005 < r.qty.value <= BillField(b, rows[i].key) + 0.005)) &&
      (rows[i].key in {"studs_2x4_8", "windows"} ==> r.qty == Some(BillField(b, rows[i].key)))
  {
  }

  /** Quantities are overwritten wholesale: what an earlier recompute wrote
      has no effect on the table after a later one. */
  lemma ApplyBillForgetsEarlierBill(rows: seq<Row>, b1: Bill, b2: Bill)
    ensures ApplyBill(ApplyBill(rows, b1), b2) == ApplyBill(rows, b2)
  {
  }

  /** Editing one unit cost changes the total by that row's quantity times the
      change in its unit cost, and nothing else. */
  lemma {:induction false} TotalAfterUnitCostEdit(rows: seq<Row>, i: nat, c: Option<real>)
    requires i < |rows|
    ensures Total(rows[i := rows[i].(unitCost := c)]) ==
      Total(rows) + NumberOrZero(rows[i].qty) * (NumberOrZero(c) - NumberOrZero(rows[i].unitCost))
  {
    var edited := rows[i := rows[i].(unitCost := c)];
    var n := |rows|;
    var q := NumberOrZero(rows[i].qty);
    if i == n - 1 {
      assert edited[..n - 1] == rows[..n - 1];
      var u, u' := NumberOrZero(rows[i].unitCost), NumberOrZero(c);
      assert q * u' == q * u + q * (u' - u);
    } else {
      assert edited[..n - 1] == rows[..n - 1][i := rows[i].(unitCost := c)];
      TotalAfterUnitCostEdit(rows[..n - 1], i, c);
    }
  }

  /** With the page's default unit costs, the grand total after a recompute is
      the bill priced line by line plus the 250 fasteners allowance. */
  lemma DefaultPriceTotal(b: Bill)
    ensures Total(ApplyBill(InitialRows(), b)) ==
      4.25 * b.studs + 0.85 * Round2(b.platesLf) + 1.65 * Round2(b.floorArea) +
      2.10 * Round2(b.wallAreaNet) + 2.60 * Round2(b.roofArea) +
      1.25 * Round2(b.raftersLf) + 175.00 * b.windows + 250.00
  {
    var rows := ApplyBill(InitialRows(), b);
    assert rows[..0] == [];
    assert Total(rows[..1]) == 0.0 + Subtotal(rows[0]) by { assert rows[..1][..0] == rows[..0]; }
    assert Total(rows[..2]) == Total(rows[..1]) + Subtotal(rows[1]) by { assert rows[..2][..1] == rows[..1]; }
    assert Total(rows[..3]) == Total(rows[..2]) + Subtotal(rows[2]) by { assert rows[..3][..2] == rows[..2]; }
    assert Total(rows[..4]) == Total(rows[..3]) + Subtotal(rows[3]) by { assert rows[..4][..3] == rows[..3]; }
    assert Total(rows[..5]) == Total(rows[..4]) + Subtotal(rows[4]) by { assert rows[..5][..4] == rows[..4]; }
    assert Total(rows[..6]) == Total(rows[..5]) + Subtotal(rows[5]) by { assert rows[..6][..5] == rows[..5]; }
    assert Total(rows[..7]) == Total(rows[..6]) + Subtotal(rows[6]) by { assert rows[..7][..6] == rows[..6]; }
    assert Total(rows) == Total(rows[..7]) + Subtotal(rows[7]) by { assert rows[..8][..7] == rows[..7]; assert rows[..8] == rows; }
  }

  /** The shared `costModel` table and its `costByKey` index. */
  class CostLedger {
    var rows: array<Row>
    const byKey: map<string, nat>

    ghost predicate Valid()
      reads this, rows
    {
      rows.Length == |Keys| &&
      (forall i :: 0 <= i < rows.Length ==> rows[i].key == Keys[i]) &&
      byKey == KeyIndex
    }

    constructor ()
      ensures Valid() && fresh(rows)
      ensures rows[..] == InitialRows()
    {
      var init := InitialRows();
      rows := new Row[|Keys|](i requires 0 <= i < |Keys| => init[i]);
      byKey := KeyIndex;
    }

    /** `costByKey.get(key).qty = v`: the row the index names for `key`, and
        only that row, gets the new quantity. */
    method SetQuantity(key: string, v: real)
      requires Valid() && key in byKey
      modifies rows
      ensures Valid()
      ensures byKey[key] < rows.Length && rows[byKey[key]].key == key
      ensures rows[byKey[key]] == old(rows[byKey[key]]).(qty := Some(v))
      ensures forall j :: 0 <= j < rows.Length && j != byKey[key] ==> rows[j] == old(rows[j])
    {
      KeyIndexPositions();
      assert key in Keys;
      var i := byKey[key];
      rows[i] := rows[i].(qty := Some(v));
    }

    /** `updateCostQuantities(bill)`. */
    method UpdateCostQuantities(b: Bill)
      requires Valid()
      modifies rows
      ensures Valid()
      ensures rows[..] == ApplyBill(old(rows[..]), b)
    {
      BillKeyRows();
      SetQuantity("studs_2x4_8", b.studs);
      SetQuantity("plates_2x4", Round2(b.platesLf));
      SetQuantity("floor_sheath", Round2(b.floorArea));
      SetQuantity("wall_sheath", Round2(b.wallAreaNet));
      SetQuantity("roofing", Round2(b.roofArea));
      SetQuantity("rafters", Round2(b.raftersLf));
      SetQuantity("windows", b.windows);
      ghost var before := old(rows[..]);
      ApplyBillByPosition(before, b);
      assert rows[..] == ApplyBill(before, b) by {
        assert rows[0] == before[0].(qty := Some(b.studs));
        assert rows[1] == before[1].(qty := Some(Round2(b.platesLf)));
        assert rows[2] == before[2].(qty := Some(Round2(b.floorArea)));
        assert rows[3] == before[3].(qty := Some(Round2(b.wallAreaNet)));
        assert rows[4] == before[4].(qty := Some(Round2(b.roofArea)));
        assert rows[5] == before[5].(qty := Some(Round2(b.raftersLf)));
        assert rows[6] == before[6].(qty := Some(b.windows));
        assert rows[7] == before[7];
      }
    }

    /** The unit-cost input handler: `row.unitCost = Number(inp.value)`. */
    method SetUnitCost(i: nat, c: Option<real>)
      requires Valid() && i < rows.Length
      modifies rows
      ensures Valid()
      ensures rows[..] == old(rows[..])[i := old(rows[i]).(unitCost := c)]
      ensures Total(rows[..]) ==
        old(Total(rows[..])) + NumberOrZero(old(rows[i].qty)) *
          (NumberOrZero(c) - NumberOrZero(old(rows[i].unitCost)))
    {
      TotalAfterUnitCostEdit(rows[..], i, c);
      rows[i] := rows[i].(unitCost := c);
    }

    /** `computeGrandTotal()`. */
    method ComputeGrandTotal() returns (total: real)
      requires Valid()
      ensures total == Total(rows[..])
    {
      total := 0.0;
      var i := 0;
      while i < rows.Length
        invariant 0 <= i <= rows.Length
        invariant total == Total(rows[..i])
      {
        var row := rows[i];
        var qty := NumberOrZero(row.qty);
        var unitCost := NumberOrZero(row.unitCost);
        assert rows[..i + 1][..i] == rows[..i];
        total := total + qty * unitCost;
        i := i + 1;
      }
      assert rows[..i] == rows[..];
    }
  }
}
