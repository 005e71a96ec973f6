/** Ordered dictionaries, and the grid that the rows of a room table fill. */
module SeatGrid {
  import opened Wrappers

  type Place = (int, int)

  type Grid = seq<(Place, string)>

  // ---------------------------------------------------------------- dictionaries

  ghost predicate Distinct<K, V>(d: seq<(K, V)>) { forall i, j | 0 <= i < j < |d| :: d[i].0 != d[j].0 }

  function IndexOf(d: Grid, k: Place): (r: Option<nat>)
    ensures r.Some? ==> r.value < |d| && d[r.value].0 == k
    ensures r.None? ==> forall i | 0 <= i < |d| :: d[i].0 != k
  {
    if d == [] then None else if d[|d| - 1].0 == k then Some(|d| - 1) else IndexOf(d[..|d| - 1], k)
  }

  function Get(d: Grid, k: Place): Option<string> {
    match IndexOf(d, k) case None => None case Some(i) => Some(d[i].1)
  }

  /** Assignment keeps the place of an existing key. */
  function Put(d: Grid, k: Place, v: string): (r: Grid)
    ensures Distinct(d) ==> Distinct(r)
    ensures (forall i | 0 <= i < |d| :: d[i].0 != k) ==> r == d + [(k, v)]
    ensures |d| <= |r| <= |d| + 1 && (forall i | 0 <= i < |d| :: r[i].0 == d[i].0 && (d[i].0 != k ==> r[i] == d[i]))
    ensures (forall i | 0 <= i < |r| && r[i].0 == k :: r[i].1 == v) || !Distinct(d)
    ensures (exists i :: 0 <= i < |r| && r[i].0 == k) && (|r| > |d| ==> r[|d|] == (k, v))
  {
    var i := IndexOf(d, k);
    var r := if i.Some? then d[i.value := (k, v)] else d + [(k, v)];
    assert r[if i.Some? then i.value else |d|] == (k, v);
    r
  }

  predicate HasPlace(grid: Grid, place: Place) { exists i :: 0 <= i < |grid| && grid[i].0 == place }

  // ---------------------------------------------------------------- the sheet

  /** The column labels of a room table, and of each row below them its number and the roll numbers in its cells. */
  datatype Sheet = Sheet(labels: seq<Option<nat>>, numbers: seq<Option<nat>>, rolls: seq<seq<Option<string>>>)

  /** Cell k of row n is a seat: labelled, in a numbered row, with a roll number. */
  predicate IsSeat(s: Sheet, n: nat, k: nat) {
    && n < |s.numbers| && s.numbers[n].Some? && k < |s.labels| && s.labels[k].Some?
    && n < |s.rolls| && k < |s.rolls[n]| && s.rolls[n][k].Some?
  }

  function PlaceOf(s: Sheet, n: nat, k: nat): Place
    requires IsSeat(s, n, k)
  {
    (s.numbers[n].value, s.labels[k].value)
  }

  /** Cell (n, k) comes before cell (m, l), row by row. */
  predicate Reached(n: nat, k: nat, m: nat, l: nat) { n < m || (n == m && k < l) }

  /** Entry `e` is what seat (n, k) holds, and no later seat before (m, l) has its place. */
  ghost predicate Last(s: Sheet, m: nat, l: nat, e: (Place, string), n: nat, k: nat) {
    && Reached(n, k, m, l) && IsSeat(s, n, k) && e == (PlaceOf(s, n, k), s.rolls[n][k].value)
    && forall n': nat, k': nat | IsSeat(s, n', k') && Reached(n', k', m, l) && Reached(n, k, n', k') ::
        PlaceOf(s, n', k') != e.0
  }

  ghost predicate FromSheet(s: Sheet, m: nat, l: nat, e: (Place, string)) {
    exists n: nat, k: nat :: Last(s, m, l, e, n, k)
  }

  /** The grid is that of the seats before (m, l): each of its entries is the last one of its place, and every seat's
      place is in it. */
  ghost predicate Matches(s: Sheet, m: nat, l: nat, grid: Grid) {
    && Distinct(grid)
    && (forall i {:trigger FromSheet(s, m, l, grid[i])} | 0 <= i < |grid| :: FromSheet(s, m, l, grid[i]))
    && forall n: nat, k: nat | IsSeat(s, n, k) && Reached(n, k, m, l) :: HasPlace(grid, PlaceOf(s, n, k))
  }

  ghost predicate IsGridOfSheet(s: Sheet, grid: Grid) { Matches(s, |s.numbers|, 0, grid) }

  lemma {:induction false} NothingYet(s: Sheet)
    ensures Matches(s, 0, 0, [])
  {
  }

  lemma {:induction false} EntryCell(s: Sheet, m: nat, l: nat, grid: Grid, i: nat) returns (n: nat, k: nat)
    requires Matches(s, m, l, grid) && i < |grid|
    ensures Last(s, m, l, grid[i], n, k)
  {
    assert FromSheet(s, m, l, grid[i]);
    n, k :| Last(s, m, l, grid[i], n, k);
  }

  /** From one cell to a later one with no seat between them. */
  lemma {:induction false} NothingBetween(s: Sheet, m: nat, l: nat, m': nat, l': nat, grid: Grid)
    requires Matches(s, m, l, grid)
    requires forall n: nat, k: nat | IsSeat(s, n, k) :: Reached(n, k, m, l) <==> Reached(n, k, m', l')
    ensures Matches(s, m', l', grid)
  {
    forall i | 0 <= i < |grid| ensures FromSheet(s, m', l', grid[i]) {
      var n, k := EntryCell(s, m, l, grid, i);
      assert Last(s, m', l', grid[i], n, k);
    }
  }

  /** One seat more. */
  lemma {:induction false} SeatAdded(s: Sheet, m: nat, l: nat, grid: Grid)
    requires Matches(s, m, l, grid) && IsSeat(s, m, l)
    ensures Matches(s, m, l + 1, Put(grid, PlaceOf(s, m, l), s.rolls[m][l].value))
  {
    var place := PlaceOf(s, m, l);
    var grid' := Put(grid, place, s.rolls[m][l].value);
    forall i | 0 <= i < |grid'| ensures FromSheet(s, m, l + 1, grid'[i]) {
      if grid'[i].0 == place {
        assert Last(s, m, l + 1, grid'[i], m, l);
      } else {
        var n, k := EntryCell(s, m, l, grid, i);
        assert Last(s, m, l + 1, grid'[i], n, k);
      }
    }
    forall n: nat, k: nat | IsSeat(s, n, k) && Reached(n, k, m, l + 1) ensures HasPlace(grid', PlaceOf(s, n, k)) {
      if Reached(n, k, m, l) {
        assert HasPlace(grid, PlaceOf(s, n, k));
        var i :| 0 <= i < |grid| && grid[i].0 == PlaceOf(s, n, k);
        assert grid'[i].0 == PlaceOf(s, n, k);
      }
    }
  }

  // ---------------------------------------------------------------- filling it

  /** The labelled ones of the first n header cells, with their column numbers. */
  ghost predicate AreColumns(labels: seq<Option<nat>>, n: nat, columns: seq<(nat, nat)>) {
    && n <= |labels|
    && (forall j | 0 <= j < |columns| :: columns[j].0 < n && labels[columns[j].0] == Some(columns[j].1))
    && (forall i, j | 0 <= i < j < |columns| :: columns[i].0 < columns[j].0)
    && (forall k: nat | k < n && labels[k].Some? :: exists j :: 0 <= j < |columns| && columns[j].0 == k)
  }

  method ReadColumns(labels: seq<Option<nat>>) returns (columns: seq<(nat, nat)>)
    ensures AreColumns(labels, |labels|, columns)
  {
    columns := [];
    for k := 0 to |labels|
      invariant AreColumns(labels, k, columns)
    {
      if labels[k].Some? {
        ghost var was := columns;
        columns := columns + [(k, labels[k].value)];
        assert columns[|was|].0 == k && forall j | 0 <= j < |was| :: columns[j] == was[j];
      }
    }
  }

  /** Where the cells from the j-th column on start. */
  function After(columns: seq<(nat, nat)>, j: nat): nat
    requires j <= |columns|
  {
    if j == 0 then 0 else columns[j - 1].0 + 1
  }

  /** No label stands between two columns, or after the last one. */
  lemma {:induction false} NoLabelBefore(s: Sheet, columns: seq<(nat, nat)>, j: nat, k: nat)
    requires AreColumns(s.labels, |s.labels|, columns) && j <= |columns|
    requires After(columns, j) <= k < |s.labels| && s.labels[k].Some?
    ensures j < |columns| && columns[j].0 <= k
  {
    var i :| 0 <= i < |columns| && columns[i].0 == k;
    assert j <= i;
  }

  lemma {:induction false} UpToColumn(s: Sheet, n: nat, columns: seq<(nat, nat)>, j: nat, grid: Grid)
    requires AreColumns(s.labels, |s.labels|, columns) && j < |columns| && Matches(s, n, After(columns, j), grid)
    ensures Matches(s, n, columns[j].0, grid)
  {
    forall k: nat | After(columns, j) <= k < |s.labels| && s.labels[k].Some? ensures columns[j].0 <= k {
      NoLabelBefore(s, columns, j, k);
    }
    NothingBetween(s, n, After(columns, j), n, columns[j].0, grid);
  }

  lemma {:induction false} UpToEnd(s: Sheet, n: nat, columns: seq<(nat, nat)>, grid: Grid)
    requires AreColumns(s.labels, |s.labels|, columns) && Matches(s, n, After(columns, |columns|), grid)
    ensures Matches(s, n + 1, 0, grid)
  {
    forall k: nat | k < |s.labels| && s.labels[k].Some? ensures k < After(columns, |columns|) {
      if After(columns, |columns|) <= k { NoLabelBefore(s, columns, |columns|, k); }
    }
    NothingBetween(s, n, After(columns, |columns|), n + 1, 0, grid);
  }

  /** The grid after a cell. */
  function Filled(s: Sheet, n: nat, k: nat, grid: Grid): Grid {
    if IsSeat(s, n, k) then Put(grid, PlaceOf(s, n, k), s.rolls[n][k].value) else grid
  }

  lemma {:induction false} CellFilled(s: Sheet, n: nat, columns: seq<(nat, nat)>, j: nat, grid: Grid, grid': Grid)
    requires AreColumns(s.labels, |s.labels|, columns) && 0 < j <= |columns| &&
            Matches(s, n, After(columns, j - 1), grid)
    requires grid' == Filled(s, n, columns[j - 1].0, grid)
    ensures Matches(s, n, After(columns, j), grid')
  {
    UpToColumn(s, n, columns, j - 1, grid);
    OneCell(s, n, columns[j - 1].0, grid, grid');
  }

  lemma {:induction false} OneCell(s: Sheet, n: nat, k: nat, grid: Grid, grid': Grid)
    requires Matches(s, n, k, grid) && grid' == Filled(s, n, k, grid)
    ensures Matches(s, n, k + 1, grid')
  {
    if IsSeat(s, n, k) {
      SeatAdded(s, n, k, grid);
    } else {
      NothingBetween(s, n, k, n, k + 1, grid);
    }
  }

  /** The grid after the first j columns of row n. */
  ghost function RowFilled(s: Sheet, n: nat, columns: seq<(nat, nat)>, j: nat, grid: Grid): Grid
    requires j <= |columns|
  {
    if j == 0 then grid else Filled(s, n, columns[j - 1].0, RowFilled(s, n, columns, j - 1, grid))
  }

  lemma {:induction false} RowMatches(s: Sheet, n: nat, columns: seq<(nat, nat)>, j: nat, grid: Grid)
    requires AreColumns(s.labels, |s.labels|, columns) && j <= |columns| && Matches(s, n, 0, grid)
    ensures Matches(s, n, After(columns, j), RowFilled(s, n, columns, j, grid))
  {
    if j > 0 {
      RowMatches(s, n, columns, j - 1, grid);
      CellFilled(s, n, columns, j, RowFilled(s, n, columns, j - 1, grid), RowFilled(s, n, columns, j, grid));
    }
  }

  lemma {:induction false} WholeRowMatches(s: Sheet, n: nat, columns: seq<(nat, nat)>, grid: Grid)
    requires AreColumns(s.labels, |s.labels|, columns) && Matches(s, n, 0, grid)
    ensures Matches(s, n + 1, 0, RowFilled(s, n, columns, |columns|, grid))
  {
    RowMatches(s, n, columns, |columns|, grid);
    UpToEnd(s, n, columns, RowFilled(s, n, columns, |columns|, grid));
  }

  /** The grid after the first n rows. */
  ghost function SheetFilled(s: Sheet, columns: seq<(nat, nat)>, n: nat): Grid
    requires n <= |s.numbers|
  {
    if n == 0 then [] else RowDone(s, columns, n - 1, SheetFilled(s, columns, n - 1))
  }

  ghost function RowDone(s: Sheet, columns: seq<(nat, nat)>, n: nat, grid: Grid): Grid
    requires n < |s.numbers|
  {
    if s.numbers[n].Some? then RowFilled(s, n, columns, |columns|, grid) else grid
  }

  lemma {:induction false} RowDoneMatches(s: Sheet, columns: seq<(nat, nat)>, n: nat, grid: Grid)
    requires n < |s.numbers| && AreColumns(s.labels, |s.labels|, columns) && Matches(s, n, 0, grid)
    ensures Matches(s, n + 1, 0, RowDone(s, columns, n, grid))
  {
    if s.numbers[n].Some? {
      WholeRowMatches(s, n, columns, grid);
    } else {
      NothingBetween(s, n, 0, n + 1, 0, grid);
    }
  }

  lemma {:induction false} SheetMatches(s: Sheet, columns: seq<(nat, nat)>, n: nat)
    requires n <= |s.numbers| && AreColumns(s.labels, |s.labels|, columns)
    ensures Matches(s, n, 0, SheetFilled(s, columns, n))
  {
    if n == 0 {
      NothingYet(s);
    } else {
      SheetMatches(s, columns, n - 1);
      RowDoneMatches(s, columns, n - 1, SheetFilled(s, columns, n - 1));
    }
  }

  /** One numbered row. */
  method FillRow(ghost s: Sheet, ghost n: nat, number: nat, rolls: seq<Option<string>>, columns: seq<(nat, nat)>,
                 grid: Grid)
    returns (filled: Grid)
    requires n < |s.numbers| == |s.rolls| && s.numbers[n] == Some(number) && s.rolls[n] == rolls
    requires AreColumns(s.labels, |s.labels|, columns)
    ensures filled == RowFilled(s, n, columns, |columns|, grid)
  {
    filled := grid;
    for j := 0 to |columns|
      invariant filled == RowFilled(s, n, columns, j, grid)
    {
      var (cell, column) := columns[j];
      if cell < |rolls| && rolls[cell].Some? {
        filled := Put(filled, (number, column), rolls[cell].value);
      }
    }
  }
}
