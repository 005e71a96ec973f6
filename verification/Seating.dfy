/** Exam seating: the view computed from the cached room grid equals the view computed while parsing the room page.

    A dictionary is a sequence of key-value pairs with distinct keys, in insertion order. The cache writes the key
    (r, c) as the text "r,c" and reads it back by splitting at the comma and parsing both numbers. */
module Seating {

  import opened SeatGrid
  import opened Words
  import opened Wrappers

  datatype Seat = Seat(row: int, col: int, totalRows: int, totalCols: int)

  datatype Neighbours = Neighbours(left: Option<string>, right: Option<string>, front: Option<string>,
                                   behind: Option<string>)

  datatype View = View(total: nat, seat: Option<Seat>, neighbours: Option<Neighbours>)

  // ---------------------------------------------------------------- text

  /** How roll numbers are compared. */
  function Norm(roll: string): string { Upper(Strip(roll)) }

  /** Roll numbers are the same if they differ in white space around them and in case only. */
  lemma {:induction false} SameRoll(a: string, b: string)
    ensures Norm(a) == Norm(b) <==> SameButCase(Strip(a), Strip(b))
  {
    UpperIs(Strip(a), Strip(b));
  }

  function ParseInt(s: string): Option<int> {
    if s != "" && (s[0] == '-' || s[0] == '+') then
      match Parse(s[1..])
      case None => None
      case Some(n) => var v: int := n; Some(if s[0] == '-' then -v else v)
    else match Parse(s) case None => None case Some(n) => Some(n)
  }

  /** Text between commas. */
  function Split(s: string): seq<string> {
    if s == "" then [""]
    else
      var rest := Split(s[1..]);
      if s[0] == ',' then [""] + rest
      else if rest == [] then [[s[0]]]
      else [[s[0]] + rest[0]] + rest[1..]
  }

  lemma {:induction false} SplitOne(s: string)
    requires forall i | 0 <= i < |s| :: s[i] != ','
    ensures Split(s) == [s]
  {
    if s != "" {
      SplitOne(s[1..]);
      assert [s[0]] + s[1..] == s;
    }
  }

  lemma {:induction false} SplitTwo(a: string, b: string)
    requires forall i | 0 <= i < |a| :: a[i] != ','
    requires forall i | 0 <= i < |b| :: b[i] != ','
    ensures Split(a + "," + b) == [a, b]
  {
    var s := a + "," + b;
    if a == "" {
      assert s[1..] == b;
      SplitOne(b);
    } else {
      assert s[1..] == a[1..] + "," + b;
      SplitTwo(a[1..], b);
      assert [a[0]] + a[1..] == a;
    }
  }

  // ---------------------------------------------------------------- the cached grid

  function Key(r: nat, c: nat): string { Print(r) + "," + Print(c) }

  function ParseKey(key: string): Option<Place> {
    var parts := Split(key);
    if |parts| != 2 then None
    else
      match ParseInt(parts[0])
      case None => None
      case Some(r) => match ParseInt(parts[1]) { case None => None case Some(c) => Some((r, c)) }
  }

  lemma {:induction false} KeyParses(r: nat, c: nat)
    ensures ParseKey(Key(r, c)) == Some((r, c))
  {
    SplitTwo(Print(r), Print(c));
    PrintParses(r);
    PrintParses(c);
  }

  predicate Counted(grid: Grid) { forall i | 0 <= i < |grid| :: grid[i].0.0 >= 0 && grid[i].0.1 >= 0 }

  function Serialised(grid: Grid): seq<(string, string)>
    requires Counted(grid)
  {
    seq(|grid|, i requires 0 <= i < |grid| => (Key(grid[i].0.0, grid[i].0.1), grid[i].1))
  }

  /** Malformed keys are skipped. */
  function Read(raw: seq<(string, string)>): Grid {
    if raw == [] then []
    else
      var before, last := Read(raw[..|raw| - 1]), raw[|raw| - 1];
      match ParseKey(last.0) case None => before case Some(place) => Put(before, place, last.1)
  }

  lemma {:induction false} ReadPrefix(grid: Grid, n: nat)
    requires Counted(grid) && Distinct(grid) && n <= |grid|
    ensures Read(Serialised(grid)[..n]) == grid[..n]
  {
    if n > 0 {
      ReadPrefix(grid, n - 1);
      assert Serialised(grid)[..n][..n - 1] == Serialised(grid)[..n - 1];
      KeyParses(grid[n - 1].0.0, grid[n - 1].0.1);
      assert grid[..n] == grid[..n - 1] + [grid[n - 1]];
    }
  }

  /** Reading back what was serialised gives the same grid, in the same order, and the serialised keys are distinct. */
  lemma {:induction false} ReadBack(grid: Grid)
    requires Counted(grid) && Distinct(grid)
    ensures Read(Serialised(grid)) == grid && Distinct(Serialised(grid))
  {
    ReadPrefix(grid, |grid|);
    assert Serialised(grid)[..|grid|] == Serialised(grid) && grid[..|grid|] == grid;
    forall i, j | 0 <= i < j < |grid| ensures Serialised(grid)[i].0 != Serialised(grid)[j].0 {
      KeyParses(grid[i].0.0, grid[i].0.1);
      KeyParses(grid[j].0.0, grid[j].0.1);
    }
  }

  // ---------------------------------------------------------------- the view

  predicate SeatOf(grid: Grid, roll: string, i: nat) {
    i < |grid| && Norm(grid[i].1) == Norm(roll) && forall j | 0 <= j < i :: Norm(grid[j].1) != Norm(roll)
  }

  ghost predicate IsMax(grid: Grid, rows: int, cols: int) {
    && (forall i | 0 <= i < |grid| :: grid[i].0.0 <= rows && grid[i].0.1 <= cols)
    && (exists i :: 0 <= i < |grid| && grid[i].0.0 == rows) && (exists i :: 0 <= i < |grid| && grid[i].0.1 == cols)
  }

  function Around(grid: Grid, place: Place): Neighbours {
    var (r, c) := place;
    Neighbours(Get(grid, (r, c - 1)), Get(grid, (r, c + 1)), Get(grid, (r - 1, c)), Get(grid, (r + 1, c)))
  }

  /** Left and right are the columns beside the place in its row, front and behind the rows before and after it in its
      column, and each is whoever sits there, if anybody does. */
  lemma {:induction false} AroundIs(grid: Grid, r: int, c: int, roll: string)
    requires Distinct(grid)
    ensures var around := Around(grid, (r, c));
            && (around.left == Some(roll) <==> ((r, c - 1), roll) in grid)
            && (around.right == Some(roll) <==> ((r, c + 1), roll) in grid)
            && (around.front == Some(roll) <==> ((r - 1, c), roll) in grid)
            && (around.behind == Some(roll) <==> ((r + 1, c), roll) in grid)
  {
    GetIs(grid, (r, c - 1), roll);
    GetIs(grid, (r, c + 1), roll);
    GetIs(grid, (r - 1, c), roll);
    GetIs(grid, (r + 1, c), roll);
  }

  lemma {:induction false} GetIs(grid: Grid, place: Place, roll: string)
    requires Distinct(grid)
    ensures Get(grid, place) == Some(roll) <==> (place, roll) in grid
  {
    if (place, roll) in grid {
      var i :| 0 <= i < |grid| && grid[i] == (place, roll);
      assert grid[i].0 == place;
    }
  }

  /** Whatever the cached keys are, the grid read from them has every place once. */
  lemma {:induction false} ReadIsDistinct(raw: seq<(string, string)>)
    ensures Distinct(Read(raw))
  {
    if raw != [] { ReadIsDistinct(raw[..|raw| - 1]); }
  }

  /** Seat i is the first with the roll number, and these are its place, the totals, and the four places around. */
  ghost predicate Seats(grid: Grid, roll: string, i: nat, seat: Seat, neighbours: Option<Neighbours>) {
    && SeatOf(grid, roll, i) && IsMax(grid, seat.totalRows, seat.totalCols)
    && grid[i].0 == (seat.row, seat.col) && neighbours == Some(Around(grid, grid[i].0))
  }

  ghost predicate IsView(grid: Grid, roll: string, v: View) {
    v.total == |grid| &&
    match v.seat
    case None => v.neighbours.None? && forall i | 0 <= i < |grid| :: Norm(grid[i].1) != Norm(roll)
    case Some(seat) => exists i :: Seats(grid, roll, i, seat, v.neighbours)
  }

  /** A grid has one view for a roll number. */
  lemma {:induction false} ViewIsUnique(grid: Grid, roll: string, v: View, w: View)
    requires IsView(grid, roll, v) && IsView(grid, roll, w)
    ensures v == w
  {
    if v.seat.Some? && w.seat.Some? {
      var i :| Seats(grid, roll, i, v.seat.value, v.neighbours);
      var j :| Seats(grid, roll, j, w.seat.value, w.neighbours);
      assert i == j;
      MaxIsUnique(grid, v.seat.value.totalRows, v.seat.value.totalCols, w.seat.value.totalRows, w.seat.value.totalCols);
    }
  }

  lemma {:induction false} MaxIsUnique(grid: Grid, rows: int, cols: int, rows': int, cols': int)
    requires IsMax(grid, rows, cols) && IsMax(grid, rows', cols')
    ensures rows == rows' && cols == cols'
  {
  }

  method MaxPlace(grid: Grid) returns (rows: int, cols: int)
    requires grid != []
    ensures IsMax(grid, rows, cols)
  {
    rows, cols := grid[0].0.0, grid[0].0.1;
    ghost var a, b := 0, 0;
    for i := 1 to |grid|
      invariant forall k | 0 <= k < i :: grid[k].0.0 <= rows && grid[k].0.1 <= cols
      invariant 0 <= a < |grid| && 0 <= b < |grid| && grid[a].0.0 == rows && grid[b].0.1 == cols
    {
      if grid[i].0.0 > rows { rows, a := grid[i].0.0, i; }
      if grid[i].0.1 > cols { cols, b := grid[i].0.1, i; }
    }
  }

  method FindSeat(grid: Grid, roll: string, rows: int, cols: int)
    returns (seat: Option<Seat>, neighbours: Option<Neighbours>)
    requires grid != [] ==> IsMax(grid, rows, cols)
    ensures IsView(grid, roll, View(|grid|, seat, neighbours))
  {
    var target := Norm(roll);
    for i := 0 to |grid|
      invariant forall j | 0 <= j < i :: Norm(grid[j].1) != target
    {
      if Norm(grid[i].1) == target {
        assert Seats(grid, roll, i, Seat(grid[i].0.0, grid[i].0.1, rows, cols), Some(Around(grid, grid[i].0)));
        return Some(Seat(grid[i].0.0, grid[i].0.1, rows, cols)), Some(Around(grid, grid[i].0));
      }
    }
    seat, neighbours := None, None;
  }

  /** The cached path. An empty grid has totals of 1 that nothing shows. */
  method ViewFromCachedGrid(raw: seq<(string, string)>, roll: string) returns (v: View)
    ensures IsView(Read(raw), roll, v)
  {
    var grid: Grid := [];
    assert raw[..0] == [];
    for n := 0 to |raw|
      invariant grid == Read(raw[..n])
    {
      assert raw[..n + 1][..n] == raw[..n];
      var place := ParseKey(raw[n].0);
      if place.Some? {
        grid := Put(grid, place.value, raw[n].1);
      }
    }
    assert raw[..|raw|] == raw;
    var rows, cols := 1, 1;
    if grid != [] {
      rows, cols := MaxPlace(grid);
    }
    var seat, neighbours := FindSeat(grid, roll, rows, cols);
    v := View(|grid|, seat, neighbours);
  }

  // ---------------------------------------------------------------- the live page

  /** A row of the room table: the column labels found in its cells, its row number, and its cells' text. */
  datatype TableRow = TableRow(labels: seq<Option<nat>>, row: Option<nat>, cells: seq<string>)

  predicate Placeholder(roll: string) { roll in {"", "-", "--", "&nbsp;"} }

  /** A roll number as the parser stores it: stripped, and not a placeholder. */
  predicate Occupied(roll: string) { roll == Strip(roll) && !Placeholder(roll) }

  ghost predicate AllOccupied(grid: Grid) { forall i | 0 <= i < |grid| :: Occupied(grid[i].1) }

  predicate HasLabel(tr: TableRow) { exists k :: 0 <= k < |tr.labels| && tr.labels[k].Some? }

  /** Row h is the column header: the first row with a label. */
  predicate IsHeader(table: seq<TableRow>, h: nat) {
    h < |table| && HasLabel(table[h]) && forall i: nat | i < h :: !HasLabel(table[i])
  }

  /** The roll number in a cell, if there is one. */
  function RollIn(cell: string): (roll: Option<string>)
    ensures roll.Some? ==> Occupied(roll.value)
  {
    StripTwice(cell);
    if Placeholder(Strip(cell)) then None else Some(Strip(cell))
  }

  function RollsIn(cells: seq<string>): seq<Option<string>> {
    seq(|cells|, k requires 0 <= k < |cells| => RollIn(cells[k]))
  }

  /** The rows below header h, with the header's labels. */
  function SheetOf(table: seq<TableRow>, h: nat): Sheet
    requires h < |table|
  {
    Sheet(table[h].labels, seq(|table| - h - 1, i requires 0 <= i < |table| - h - 1 => table[h + 1 + i].row),
          seq(|table| - h - 1, i requires 0 <= i < |table| - h - 1 => RollsIn(table[h + 1 + i].cells)))
  }

  /** The grid of a table: nothing without a header, and that of the sheet below the header otherwise. */
  ghost predicate IsGridOf(table: seq<TableRow>, grid: Grid) {
    && ((forall h: nat :: !IsHeader(table, h)) ==> grid == [])
    && forall h: nat | IsHeader(table, h) :: IsGridOfSheet(SheetOf(table, h), grid)
  }

  /** Every entry has a place of numbered row and column, and a roll number. */
  lemma {:induction false} EntriesAreSeats(table: seq<TableRow>, h: nat, grid: Grid)
    requires h < |table| && IsGridOfSheet(SheetOf(table, h), grid)
    ensures Counted(grid) && AllOccupied(grid)
  {
    var sheet := SheetOf(table, h);
    forall i | 0 <= i < |grid| ensures grid[i].0.0 >= 0 && grid[i].0.1 >= 0 && Occupied(grid[i].1) {
      var n, k := EntryCell(sheet, |sheet.numbers|, 0, grid, i);
      assert sheet.rolls[n][k] == RollIn(table[h + 1 + n].cells[k]);
    }
  }

  /** Every entry comes from a cell below the header: its row is the number of the cell's row, its column the label
      above it, and its roll number the stripped text of the cell, which is none of the placeholders. */
  lemma {:induction false} EntryIsFromCell(table: seq<TableRow>, grid: Grid, i: nat) returns (h: nat, n: nat, k: nat)
    requires IsGridOf(table, grid) && i < |grid|
    ensures IsHeader(table, h) && h < n < |table| && k < |table[h].labels| && k < |table[n].cells|
    ensures table[n].row.Some? && table[h].labels[k].Some? && grid[i].1 == Strip(table[n].cells[k])
    ensures grid[i].0 == (table[n].row.value, table[h].labels[k].value)
    ensures grid[i].1 != "" && grid[i].1 != "-" && grid[i].1 != "--" && grid[i].1 != "&nbsp;"
  {
    h :| IsHeader(table, h);
    var sheet := SheetOf(table, h);
    var m: nat;
    m, k := EntryCell(sheet, |sheet.numbers|, 0, grid, i);
    n := h + 1 + m;
    assert sheet.rolls[m] == RollsIn(table[n].cells) && sheet.numbers[m] == table[n].row;
    assert sheet.rolls[m][k] == RollIn(table[n].cells[k]);
  }

  predicate NoLabels(table: seq<TableRow>, n: nat)
    requires n <= |table|
  {
    forall i: nat | i < n :: !HasLabel(table[i])
  }

  lemma {:induction false} HeaderIsUnique(table: seq<TableRow>, h: nat)
    requires IsHeader(table, h)
    ensures forall g: nat | IsHeader(table, g) :: g == h
  {
  }

  /** One row below the header. */
  method FillBelow(table: seq<TableRow>, ghost h: nat, n: nat, columns: seq<(nat, nat)>, grid: Grid)
    returns (filled: Grid)
    requires h < n < |table| && AreColumns(table[h].labels, |table[h].labels|, columns)
    ensures filled == RowDone(SheetOf(table, h), columns, n - h - 1, grid)
  {
    filled := grid;
    if table[n].row.Some? {
      filled := FillRow(SheetOf(table, h), n - h - 1, table[n].row.value, RollsIn(table[n].cells), columns, grid);
    }
  }

  /** The column header is the first row with labels; the rows below it that carry a number fill the grid. */
  method FillGrid(table: seq<TableRow>) returns (grid: Grid)
    ensures IsGridOf(table, grid) && Distinct(grid) && Counted(grid) && AllOccupied(grid)
  {
    grid := [];
    var columns: seq<(nat, nat)> := [];
    ghost var h: nat := 0;
    for n := 0 to |table|
      invariant columns == [] ==> grid == [] && NoLabels(table, n)
      invariant columns != [] ==> h < n && IsHeader(table, h) && AreColumns(table[h].labels, |table[h].labels|, columns)
      invariant columns != [] ==> grid == SheetFilled(SheetOf(table, h), columns, n - h - 1)
    {
      if columns == [] {
        if HasLabel(table[n]) {
          columns := ReadColumns(table[n].labels);
          h := n;
        }
      } else {
        grid := FillBelow(table, h, n, columns, grid);
      }
    }
    if columns != [] {
      HeaderIsUnique(table, h);
      SheetMatches(SheetOf(table, h), columns, |table| - h - 1);
      EntriesAreSeats(table, h, grid);
    }
  }

  /** Some cell of the table holds a roll number. */
  ghost predicate HasSeat(table: seq<TableRow>) {
    exists h: nat, n: nat, k: nat :: IsHeader(table, h) && IsSeat(SheetOf(table, h), n, k)
  }

  /** The grid is empty exactly if no cell holds a roll number. */
  lemma {:induction false} GridHasSeats(table: seq<TableRow>, grid: Grid)
    requires IsGridOf(table, grid)
    ensures grid != [] <==> HasSeat(table)
  {
    if h: nat :| IsHeader(table, h) {
      var sheet := SheetOf(table, h);
      if grid != [] {
        var n, k := EntryCell(sheet, |sheet.numbers|, 0, grid, 0);
        assert IsHeader(table, h) && IsSeat(sheet, n, k);
      }
      forall g: nat, n: nat, k: nat | IsHeader(table, g) && IsSeat(SheetOf(table, g), n, k) ensures grid != [] {
        assert g == h && HasPlace(grid, PlaceOf(sheet, n, k));
      }
    }
  }

  datatype LiveView = NoSeats | Live(view: View, grid: Grid)

  /** The parsing path: it fails on an empty grid, and looks for a seat only if a roll number was given. */
  method ParseRoom(table: seq<TableRow>, target: string) returns (r: LiveView)
    ensures r.Live? ==> IsGridOf(table, r.grid) && Distinct(r.grid) && Counted(r.grid) && IsView(r.grid, target, r.view)
    ensures r.NoSeats? <==> !HasSeat(table)
  {
    var grid := FillGrid(table);
    GridHasSeats(table, grid);
    if grid == [] { return NoSeats; }
    var rows, cols := MaxPlace(grid);
    var seat, neighbours := None, None;
    if target != "" {
      seat, neighbours := FindSeat(grid, target, rows, cols);
    } else {
      forall i | 0 <= i < |grid| ensures Norm(grid[i].1) != Norm(target) {
        assert |Norm(grid[i].1)| == |grid[i].1| > 0;
      }
    }
    r := Live(View(|grid|, seat, neighbours), grid);
  }

  /** Cached equals live: for every room page that parses and every roll number, the view read from the serialised
      grid is the view computed while parsing. */
  lemma {:induction false} CachedEqualsLive(grid: Grid, roll: string, live: View, cached: View)
    requires Distinct(grid) && Counted(grid)
    requires IsView(grid, roll, live) && IsView(Read(Serialised(grid)), roll, cached)
    ensures live == cached
  {
    ReadBack(grid);
    ViewIsUnique(grid, roll, live, cached);
  }

  /** The first fetch of a room: parse, serialise for the cache, and answer from the serialised grid. What it answers is
      what the parser computed. */
  method FetchRoomLayout(table: seq<TableRow>, roll: string) returns (parsed: LiveView, answer: View)
    ensures parsed.Live? ==> answer == parsed.view
  {
    answer := View(0, None, None);
    parsed := ParseRoom(table, roll);
    if parsed.Live? {
      answer := ViewFromCachedGrid(Serialised(parsed.grid), roll);
      CachedEqualsLive(parsed.grid, roll, parsed.view, answer);
    }
  }
}
