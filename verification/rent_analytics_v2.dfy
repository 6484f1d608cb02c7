/** The neighbourhood table of `src/components/RentAnalyticsV2.tsx`. Its
    header keeps the same sort state as the first version
    (`RentAnalytics.SortHeader`), but its comparator orders the name
    column by `localeCompare` instead of subtracting strings. */
module RentAnalyticsV2 {
  import opened Wrappers
  import opened Sorting
  import opened Text
  import RentAnalytics

  type Column = RentAnalytics.Column
  type Direction = RentAnalytics.Direction

  /** A row; `x` and `y` place the neighbourhood on the map view. */
  datatype Neighborhood = Neighborhood(
    name: string, oneBed: int, twoBed: int, threeBed: int, yoyTenths: int, x: int, y: int)

  const NeighborhoodData: seq<Neighborhood> := [
    Neighborhood("Brickell", 3200, 4100, 5500, 62, 45, 55),
    Neighborhood("Downtown", 2900, 3700, 4800, 45, 50, 40),
    Neighborhood("Miami Beach", 3500, 4500, 6200, 71, 75, 35),
    Neighborhood("Coral Gables", 2700, 3400, 4400, 38, 30, 65),
    Neighborhood("Wynwood", 2600, 3200, 4100, 52, 55, 30)
  ]

  function NumericValue(n: Neighborhood, column: Column): int
    requires !column.Name?
  {
    match column
    case OneBed => n.oneBed
    case TwoBed => n.twoBed
    case ThreeBed => n.threeBed
    case YoyChange => n.yoyTenths
  }

  /** The comparator of `sortedNeighborhoodData`: 0 with no column; on the
      name column `localeCompare` times the direction; on a number column
      the difference times the direction. */
  function Comparator(sortColumn: Option<Column>, sortDirection: Direction, a: Neighborhood, b: Neighborhood): (r: int)
    ensures sortColumn.None? ==> r == 0
    ensures sortColumn == Some(RentAnalytics.Name) ==>
              (r <= 0 <==> if sortDirection.Asc? then LexLe(a.name, b.name) else LexLe(b.name, a.name))
  {
    if sortColumn.None? then 0
    else if sortColumn.value.Name? then
      NameComparison(a.name, b.name, sortDirection);
      LocaleCompare(a.name, b.name) * RentAnalytics.Modifier(sortDirection)
    else (NumericValue(a, sortColumn.value) - NumericValue(b, sortColumn.value)) * RentAnalytics.Modifier(sortDirection)
  }

  /** `localeCompare` times -1 is at most 0 exactly when the order is
      reversed. */
  lemma NameComparison(a: string, b: string, sortDirection: Direction)
    ensures LocaleCompare(a, b) * RentAnalytics.Modifier(sortDirection) <= 0
            <==> if sortDirection.Asc? then LexLe(a, b) else LexLe(b, a)
  {
    LexLeTotal(a, b);
    LexLeReflexive(a);
    if LexLe(a, b) && LexLe(b, a) {
      LexLeAntisymmetric(a, b);
    }
  }

  function RowLe(sortColumn: Option<Column>, sortDirection: Direction): (Neighborhood, Neighborhood) -> bool {
    (a: Neighborhood, b: Neighborhood) => Comparator(sortColumn, sortDirection, a, b) <= 0
  }

  /** Every column gives a consistent comparator. */
  lemma ComparatorIsPreorder(column: Column, sortDirection: Direction)
    ensures TotalPreorder(RowLe(Some(column), sortDirection))
  {
    var le := RowLe(Some(column), sortDirection);
    if column.Name? {
      forall a, b ensures le(a, b) || le(b, a) {
        LexLeTotal(a.name, b.name);
      }
      forall a, b, c | Chain(le, a, b, c) ensures le(a, c) {
        if sortDirection.Asc? {
          LexLeTransitive(a.name, b.name, c.name);
        } else {
          LexLeTransitive(c.name, b.name, a.name);
        }
      }
    } else {
      forall a, b, c | Chain(le, a, b, c) ensures le(a, c) {
      }
    }
  }

  /** `sortedNeighborhoodData`: a copy of the rows (the table uses the five
      of `NeighborhoodData`) in the order the header asks for. */
  function SortRows(rows: seq<Neighborhood>, sortColumn: Option<Column>, sortDirection: Direction): (r: seq<Neighborhood>)
    ensures multiset(r) == multiset(rows) && |r| == |rows|
  {
    SortBy(rows, RowLe(sortColumn, sortDirection))
  }

  /** With no column the rows keep their declared order. */
  lemma DeclaredOrderWithoutColumn(rows: seq<Neighborhood>, sortDirection: Direction)
    ensures SortRows(rows, None, sortDirection) == rows
  {
    SortByAllTied(rows, RowLe(None, sortDirection));
  }

  /** The name column is in alphabetical order (asc) or its reverse (desc). */
  lemma NameColumnOrdered(rows: seq<Neighborhood>, sortDirection: Direction)
    ensures var r := SortRows(rows, Some(RentAnalytics.Name), sortDirection);
            forall i, j :: 0 <= i < j < |r| ==>
              if sortDirection.Asc? then LexLe(r[i].name, r[j].name) else LexLe(r[j].name, r[i].name)
  {
    var le := RowLe(Some(RentAnalytics.Name), sortDirection);
    ComparatorIsPreorder(RentAnalytics.Name, sortDirection);
    SortBySorted(rows, le);
    var r := SortBy(rows, le);
    forall i, j | 0 <= i < j < |r|
      ensures if sortDirection.Asc? then LexLe(r[i].name, r[j].name) else LexLe(r[j].name, r[i].name)
    {
      assert le(r[i], r[j]);
    }
  }

  /** On a number column the values run up (asc) or down (desc). */
  lemma NumericColumnOrdered(rows: seq<Neighborhood>, column: Column, sortDirection: Direction)
    requires !column.Name?
    ensures var r := SortRows(rows, Some(column), sortDirection);
            forall i, j :: 0 <= i < j < |r| ==>
              if sortDirection.Asc? then NumericValue(r[i], column) <= NumericValue(r[j], column)
              else NumericValue(r[i], column) >= NumericValue(r[j], column)
  {
    var le := RowLe(Some(column), sortDirection);
    ComparatorIsPreorder(column, sortDirection);
    SortBySorted(rows, le);
    var r := SortBy(rows, le);
    forall i, j | 0 <= i < j < |r|
      ensures if sortDirection.Asc? then NumericValue(r[i], column) <= NumericValue(r[j], column)
              else NumericValue(r[i], column) >= NumericValue(r[j], column)
    {
      assert le(r[i], r[j]);
    }
  }

  /** Rows that compare equal keep their declared order. */
  lemma SortIsStable(rows: seq<Neighborhood>, column: Column, sortDirection: Direction, k: Neighborhood)
    ensures Tied(SortRows(rows, Some(column), sortDirection), k, RowLe(Some(column), sortDirection))
            == Tied(rows, k, RowLe(Some(column), sortDirection))
  {
    ComparatorIsPreorder(column, sortDirection);
    SortByStable(rows, k, RowLe(Some(column), sortDirection));
  }

  /** The table as shown under a header's sort state. */
  function Table(header: RentAnalytics.SortHeader): seq<Neighborhood>
    reads header
  {
    SortRows(NeighborhoodData, header.sortColumn, header.sortDirection)
  }
}
