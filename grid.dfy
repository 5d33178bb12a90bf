/** The "Car Types" tab lays the list of car types out two to a row: the loop
    steps i by 2, puts item i in the left column and, when it exists, item i+1
    in the right one. Only the index logic is modelled; each card's image,
    caption and text are rendering. */
module CarTypesGrid {
  import opened Dicts

  /** One `st.columns(2)` row: the left and the right card, either possibly empty. */
  datatype Row<T> = Row(left: Option<T>, right: Option<T>)

  function OptionCards<T>(o: Option<T>): seq<T> {
    match o
    case None => []
    case Some(x) => [x]
  }

  /** The cards of a row, left to right. */
  function Cards<T>(row: Row<T>): seq<T> {
    OptionCards(row.left) + OptionCards(row.right)
  }

  /** The cards of the grid in reading order: row by row, left to right. */
  function Shown<T>(rows: seq<Row<T>>): seq<T> {
    if |rows| == 0 then []
    else Shown(rows[..|rows| - 1]) + Cards(rows[|rows| - 1])
  }

  /** Row r holds item 2r on the left and, when it exists, item 2r+1 on the right. */
  ghost predicate PairedRows<T>(carTypes: seq<T>, rows: seq<Row<T>>) {
    forall r :: 0 <= r < |rows| ==>
      2 * r < |carTypes| && rows[r] == RowAt(carTypes, 2 * r)
  }

  /** The row the loop body renders for index i. */
  function RowAt<T>(carTypes: seq<T>, i: nat): Row<T> {
    Row(if i < |carTypes| then Some(carTypes[i]) else None,
        if i + 1 < |carTypes| then Some(carTypes[i + 1]) else None)
  }

  function Min(a: int, b: int): int {
    if a <= b then a else b
  }

  /** The loop over `range(0, len(car_types), 2)`: one row per pair, and read
      row by row the grid shows every car type exactly once and in list order. */
  method LayoutGrid<T>(carTypes: seq<T>) returns (rows: seq<Row<T>>)
    ensures |rows| == (|carTypes| + 1) / 2
    ensures PairedRows(carTypes, rows)
    ensures Shown(rows) == carTypes
  {
    rows := [];
    var i := 0;
    while i < |carTypes|
      invariant i == 2 * |rows| && i <= |carTypes| + 1
      invariant PairedRows(carTypes, rows)
      invariant Shown(rows) == carTypes[..Min(i, |carTypes|)]
    {
      var left := if i < |carTypes| then Some(carTypes[i]) else None;
      var right := if i + 1 < |carTypes| then Some(carTypes[i + 1]) else None;
      AppendRow(carTypes, rows, i);
      rows := rows + [Row(left, right)];
      i := i + 2;
    }
  }

  /** One turn of the loop keeps the grid paired and extends what it shows by
      the next one or two items. */
  lemma AppendRow<T>(carTypes: seq<T>, rows: seq<Row<T>>, i: nat)
    requires i == 2 * |rows| && i < |carTypes|
    requires PairedRows(carTypes, rows) && Shown(rows) == carTypes[..i]
    ensures PairedRows(carTypes, rows + [RowAt(carTypes, i)])
    ensures Shown(rows + [RowAt(carTypes, i)]) == carTypes[..Min(i + 2, |carTypes|)]
  {
    var rows' := rows + [RowAt(carTypes, i)];
    forall r | 0 <= r < |rows'|
      ensures 2 * r < |carTypes| && rows'[r] == RowAt(carTypes, 2 * r)
    {
      if r < |rows| {
        assert rows'[r] == rows[r];
      } else {
        assert r == |rows| && rows'[r] == RowAt(carTypes, i);
      }
    }
    AppendShown(carTypes, rows, i);
  }

  lemma AppendShown<T>(carTypes: seq<T>, rows: seq<Row<T>>, i: nat)
    requires i < |carTypes| && Shown(rows) == carTypes[..i]
    ensures Shown(rows + [RowAt(carTypes, i)]) == carTypes[..Min(i + 2, |carTypes|)]
  {
    var rows' := rows + [RowAt(carTypes, i)];
    assert rows'[..|rows|] == rows;
    assert Shown(rows') == carTypes[..i] + Cards(RowAt(carTypes, i));
    if i + 1 < |carTypes| {
      assert carTypes[..i + 2] == carTypes[..i] + [carTypes[i], carTypes[i + 1]];
    } else {
      assert carTypes[..i + 1] == carTypes[..i] + [carTypes[i]];
    }
  }

  /** In such a grid item k sits in row k/2, on the left when k is even; every
      row has a left card, and only the last row of an odd-length list lacks a
      right one. */
  lemma GridPositions<T>(carTypes: seq<T>, rows: seq<Row<T>>, k: nat)
    requires |rows| == (|carTypes| + 1) / 2 && PairedRows(carTypes, rows)
    requires k < |carTypes|
    ensures (if k % 2 == 0 then rows[k / 2].left else rows[k / 2].right) == Some(carTypes[k])
    ensures forall r :: 0 <= r < |rows| ==> rows[r].left.Some?
    ensures forall r :: 0 <= r < |rows| ==> (rows[r].right.None? <==> 2 * r + 1 == |carTypes|)
  {
    var r := k / 2;
    assert 2 * r == k || 2 * r + 1 == k;
    assert rows[r] == RowAt(carTypes, 2 * r);
  }

  /** The names of the page's five car types, in list order. */
  const CarTypeNames: seq<string> := ["Sedan", "SUV", "Hatchback", "Luxury", "Electric"]

  /** The page's five car types make three rows: Sedan and SUV, Hatchback and
      Luxury, and Electric alone on the left. */
  lemma CarTypesExample(rows: seq<Row<string>>)
    requires |rows| == (|CarTypeNames| + 1) / 2 && PairedRows(CarTypeNames, rows)
    ensures |rows| == 3
    ensures rows[0] == Row(Some("Sedan"), Some("SUV"))
    ensures rows[1] == Row(Some("Hatchback"), Some("Luxury"))
    ensures rows[2] == Row(Some("Electric"), None)
  {
    assert rows[0] == RowAt(CarTypeNames, 0);
    assert rows[1] == RowAt(CarTypeNames, 2);
    assert rows[2] == RowAt(CarTypeNames, 4);
  }
}
