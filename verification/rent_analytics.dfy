/** The sortable neighbourhood table and the period lookup of
    `src/components/RentAnalytics.tsx`. The year-on-year changes are
    decimals with one digit; they are held in tenths of a percent, which
    keeps every comparison the table makes. */
module RentAnalytics {
  import opened Wrappers
  import opened Sorting

  datatype Column = Name | OneBed | TwoBed | ThreeBed | YoyChange
  datatype Direction = Asc | Desc

  datatype Neighborhood = Neighborhood(name: string, oneBed: int, twoBed: int, threeBed: int, yoyTenths: int)

  /** The five rows of the table, in declaration order. */
  const NeighborhoodData: seq<Neighborhood> := [
    Neighborhood("Brickell", 3200, 4100, 5500, 62),
    Neighborhood("Downtown", 2900, 3700, 4800, 45),
    Neighborhood("Miami Beach", 3500, 4500, 6200, 71),
    Neighborhood("Coral Gables", 2700, 3400, 4400, 38),
    Neighborhood("Wynwood", 2600, 3200, 4100, 52)
  ]

  /** The sort state after clicking the header of `column`: the current
      column flips its direction, any other column is selected descending. */
  function NextSort(sortColumn: Option<Column>, sortDirection: Direction, column: Column): (r: (Option<Column>, Direction))
    ensures r.0 == Some(column)
    ensures sortColumn == Some(column) ==> r.1 != sortDirection
    ensures sortColumn != Some(column) ==> r.1 == Desc
  {
    if sortColumn == Some(column) then (sortColumn, if sortDirection == Asc then Desc else Asc)
    else (Some(column), Desc)
  }

  /** Clicking a new column twice sorts it ascending; a third click goes
      back to descending. */
  lemma ClickCycle(sortColumn: Option<Column>, sortDirection: Direction, column: Column)
    requires sortColumn != Some(column)
    ensures var s1 := NextSort(sortColumn, sortDirection, column);
            var s2 := NextSort(s1.0, s1.1, column);
            s2 == (Some(column), Asc) && NextSort(s2.0, s2.1, column) == s1
  {
  }

  /** The value of a number column. */
  function NumericValue(n: Neighborhood, column: Column): int
    requires column != Name
  {
    match column
    case OneBed => n.oneBed
    case TwoBed => n.twoBed
    case ThreeBed => n.threeBed
    case YoyChange => n.yoyTenths
  }

  function Modifier(direction: Direction): int {
    if direction == Asc then 1 else -1
  }

  /** What the comparator can return: a number, or NaN. */
  datatype Num = Finite(value: int) | NaN

  /** The comparator of `sortedNeighborhoodData`: 0 with no column; for
      a column, the difference of the two values times the direction.
      On the name column that difference is of two strings, which is NaN. */
  function Comparator(sortColumn: Option<Column>, sortDirection: Direction, a: Neighborhood, b: Neighborhood): (r: Num)
    ensures sortColumn == Some(Name) <==> r.NaN?
    ensures sortColumn.None? ==> r == Finite(0)
  {
    if sortColumn.None? then Finite(0)
    else if sortColumn.value == Name then NaN
    else Finite((NumericValue(a, sortColumn.value) - NumericValue(b, sortColumn.value)) * Modifier(sortDirection))
  }

  /** How `Array.prototype.sort` reads a comparator result: NaN counts as
      +0 (SortCompare, section 23.1.3.30.2 of ECMA-262). */
  function SortCompareValue(v: Num): int {
    if v.NaN? then 0 else v.value
  }

  /** "a may stay before b" for the table's comparator. */
  function RowLe(sortColumn: Option<Column>, sortDirection: Direction): (Neighborhood, Neighborhood) -> bool {
    (a: Neighborhood, b: Neighborhood) => SortCompareValue(Comparator(sortColumn, sortDirection, a, b)) <= 0
  }

  /** On a number column the comparator is consistent. */
  lemma NumericIsPreorder(column: Column, sortDirection: Direction)
    requires column != Name
    ensures TotalPreorder(RowLe(Some(column), sortDirection))
  {
    var le := RowLe(Some(column), sortDirection);
    forall a, b, c | Chain(le, a, b, c) ensures le(a, c) {
    }
  }

  /** `sortedNeighborhoodData`: a copy of the rows (the table uses the
      five of `NeighborhoodData`) in the order the header asks for; it is
      always the same rows. */
  function SortRows(rows: seq<Neighborhood>, sortColumn: Option<Column>, sortDirection: Direction): (r: seq<Neighborhood>)
    ensures multiset(r) == multiset(rows) && |r| == |rows|
  {
    SortBy(rows, RowLe(sortColumn, sortDirection))
  }

  /** With no column, or on the name column whose comparator is NaN, every
      pair compares equal and the declared order stays. */
  lemma DeclaredOrderWithoutNumericColumn(rows: seq<Neighborhood>, sortColumn: Option<Column>, sortDirection: Direction)
    requires sortColumn.None? || sortColumn == Some(Name)
    ensures SortRows(rows, sortColumn, sortDirection) == rows
  {
    SortByAllTied(rows, RowLe(sortColumn, sortDirection));
  }

  /** On a number column the values run up (asc) or down (desc). */
  lemma NumericColumnOrdered(rows: seq<Neighborhood>, column: Column, sortDirection: Direction)
    requires column != Name
    ensures var r := SortRows(rows, Some(column), sortDirection);
            forall i, j :: 0 <= i < j < |r| ==>
              if sortDirection == Asc then NumericValue(r[i], column) <= NumericValue(r[j], column)
              else NumericValue(r[i], column) >= NumericValue(r[j], column)
  {
    var le := RowLe(Some(column), sortDirection);
    NumericIsPreorder(column, sortDirection);
    SortBySorted(rows, le);
    var r := SortBy(rows, le);
    forall i, j | 0 <= i < j < |r|
      ensures if sortDirection == Asc then NumericValue(r[i], column) <= NumericValue(r[j], column)
              else NumericValue(r[i], column) >= NumericValue(r[j], column)
    {
      assert le(r[i], r[j]);
    }
  }

  /** Rows with equal values keep their declared order. */
  lemma NumericColumnStable(rows: seq<Neighborhood>, column: Column, sortDirection: Direction, k: Neighborhood)
    requires column != Name
    ensures Tied(SortRows(rows, Some(column), sortDirection), k, RowLe(Some(column), sortDirection))
            == Tied(rows, k, RowLe(Some(column), sortDirection))
  {
    NumericIsPreorder(column, sortDirection);
    SortByStable(rows, k, RowLe(Some(column), sortDirection));
  }

  /** One row of a bedroom card's period list. */
  datatype Period = Period(period: string, changeTenths: int, startPrice: int, endPrice: int)

  /** `getPeriodData`: the first period with that name, if any. */
  function GetPeriodData(periods: seq<Period>, periodName: string): (r: Option<Period>)
    ensures r.None? <==> forall i :: 0 <= i < |periods| ==> periods[i].period != periodName
    ensures r.Some? ==> exists i :: 0 <= i < |periods| && periods[i] == r.value && r.value.period == periodName
                                    && forall j :: 0 <= j < i ==> periods[j].period != periodName
  {
    if periods == [] then None
    else if periods[0].period == periodName then Some(periods[0])
    else
      var r := GetPeriodData(periods[1..], periodName);
      assert forall i :: 1 <= i < |periods| ==> periods[i] == periods[1..][i - 1];
      assert r.Some? ==> exists i :: 0 <= i < |periods| && periods[i] == r.value && r.value.period == periodName
                                     && forall j :: 0 <= j < i ==> periods[j].period != periodName by {
        if r.Some? {
          var i :| 0 <= i < |periods[1..]| && periods[1..][i] == r.value && r.value.period == periodName
                   && forall j :: 0 <= j < i ==> periods[1..][j].period != periodName;
          assert periods[i + 1] == r.value;
          forall j | 0 <= j < i + 1 ensures periods[j].period != periodName {
            if j > 0 { assert periods[j] == periods[1..][j - 1]; }
          }
        }
      }
      r
  }

  /** The column header's sort state. */
  class SortHeader {
    var sortColumn: Option<Column>
    var sortDirection: Direction

    constructor()
      ensures sortColumn.None? && sortDirection == Desc
    {
      sortColumn := None;
      sortDirection := Desc;
    }

    /** `handleSort(column)`. */
    method HandleSort(column: Column)
      modifies this
      ensures (sortColumn, sortDirection) == NextSort(old(sortColumn), old(sortDirection), column)
    {
      if sortColumn == Some(column) {
        sortDirection := if sortDirection == Asc then Desc else Asc;
      } else {
        sortColumn := Some(column);
        sortDirection := Desc;
      }
    }

    function Table(): seq<Neighborhood>
      reads this
    {
      SortRows(NeighborhoodData, sortColumn, sortDirection)
    }
  }
}
