/** The timetable parser's rowspan alignment, and the declarative table layout it computes.

    The parser walks the weekday rows with `active`, a map from a column to the cell spanning it and the rows it
    still spans, and an array `aligned` per row. The declarative side is section 4.9.12.1 ("Forming a table") of the
    WHATWG HTML Standard without column spans: a cell placed at row j covers its column in the rows j, j + 1, ...,
    j + span - 1, and the explicit cells of a row take its uncovered columns from left to right. */
module Timetable {

  import opened Wrappers

  /** What a period cell says. */
  datatype Meaning = Nothing | Lunch | Class(subject: string, room: string)

  /** `rowspan` is the attribute as a number, None if it is missing or not a number. */
  datatype Cell = Cell(meaning: Meaning, rowspan: Option<int>)

  /** A table row: None if it has no cells, otherwise the text of its first cell and the cells after it. */
  datatype TableRow = TableRow(heading: Option<string>, cells: seq<Cell>)

  datatype Slot = Slot(day: string, weekday: nat, period: nat, start: string, end: string, meaning: Meaning)

  datatype Failure = NoPeriods | NoRows | NoEntries

  datatype Result = Parsed(slots: seq<Slot>) | Failed(failure: Failure)

  function Weekday(heading: string): Option<nat> {
    if heading == "Monday" then Some(0)
    else if heading == "Tuesday" then Some(1)
    else if heading == "Wednesday" then Some(2)
    else if heading == "Thursday" then Some(3)
    else if heading == "Friday" then Some(4)
    else if heading == "Saturday" then Some(5)
    else if heading == "Sunday" then Some(6) else None
  }

  const WEEKDAYS: seq<string> := ["Monday", "Tuesday", "Wednesday", "Thursday", "Friday", "Saturday", "Sunday"]

  /** An accepted row. */
  datatype DayRow = DayRow(day: string, weekday: nat, cells: seq<Cell>)

  /** Rows without cells and rows of no weekday are skipped, and count for no span. */
  function Accepted(row: TableRow): Option<DayRow> {
    match row.heading
    case None => None
    case Some(heading) =>
      match Weekday(heading)
      case None => None
      case Some(w) => Some(DayRow(heading, w, row.cells))
  }

  function AllAccepted(rows: seq<TableRow>): seq<DayRow> {
    if rows == [] then []
    else
      var before := AllAccepted(rows[..|rows| - 1]);
      match Accepted(rows[|rows| - 1]) { case None => before case Some(row) => before + [row] }
  }

  /** A row is accepted exactly if it has cells and the first one is the name of a weekday, with the number of that day
      from Monday on and the cells after it. */
  lemma {:induction false} AcceptedIs(row: TableRow)
    ensures Accepted(row).Some? <==> row.heading.Some? && row.heading.value in WEEKDAYS
    ensures Accepted(row).Some? ==>
              var accepted := Accepted(row).value;
              && accepted.weekday < 7 && accepted.day == WEEKDAYS[accepted.weekday]
              && row.heading == Some(accepted.day) && row.cells == accepted.cells
  {
    assert WEEKDAYS[0] == "Monday" && WEEKDAYS[1] == "Tuesday" && WEEKDAYS[2] == "Wednesday";
    assert WEEKDAYS[3] == "Thursday" && WEEKDAYS[4] == "Friday" && WEEKDAYS[5] == "Saturday" && WEEKDAYS[6] == "Sunday";
  }

  /** The rows of the layout are the accepted ones, in order. */
  lemma {:induction false} AcceptedInOrder(rows: seq<TableRow>) returns (at: seq<nat>)
    ensures |at| == |AllAccepted(rows)|
    ensures forall k | 0 <= k < |at| :: at[k] < |rows| && Accepted(rows[at[k]]) == Some(AllAccepted(rows)[k])
    ensures forall j, k | 0 <= j < k < |at| :: at[j] < at[k]
    ensures forall i: nat | i < |rows| :: i in at <==> Accepted(rows[i]).Some?
  {
    if rows == [] {
      at := [];
    } else {
      var n := |rows| - 1;
      at := AcceptedInOrder(rows[..n]);
      if Accepted(rows[n]).Some? { at := at + [n]; }
    }
  }

  // ---------------------------------------------------------------- the declarative layout

  /** max(1, rowspan). */
  function Span(x: Cell): nat { if x.rowspan.Some? && x.rowspan.value >= 1 then x.rowspan.value else 1 }

  type Grid = seq<seq<Option<Cell>>>

  predicate Shaped(g: Grid, n: nat) { forall i | 0 <= i < |g| :: |g[i]| == n }

  /** The cell placed at (j, c) covers (i, c): its own row always, and the rows below for as long as its rowspan says.
      */
  predicate Covers(g: Grid, n: nat, j: nat, i: int, c: nat)
    requires Shaped(g, n) && j < |g| && c < n
  {
    && g[j][c].Some? && j <= i
    && (i == j || (g[j][c].value.rowspan.Some? && i < j + g[j][c].value.rowspan.value))
  }

  /** An earlier row's cell covers (i, c). */
  ghost predicate Covered(g: Grid, n: nat, i: nat, c: nat)
    requires Shaped(g, n) && i <= |g| && c < n
  {
    exists j :: 0 <= j < i && Covers(g, n, j, i, c)
  }

  /** How many of the first `c` columns of row i no earlier row covers. */
  ghost function FreeBefore(g: Grid, n: nat, i: nat, c: nat): nat
    requires Shaped(g, n) && i <= |g| && c <= n
  {
    if c == 0 then 0 else FreeBefore(g, n, i, c - 1) + (if Covered(g, n, i, c - 1) then 0 else 1)
  }

  /** What row i of the layout places in column c: the k-th explicit cell goes to the k-th uncovered column. */
  ghost function Placement(g: Grid, n: nat, i: nat, c: nat, cells: seq<Cell>): Option<Cell>
    requires Shaped(g, n) && i <= |g| && c < n
  {
    var k := FreeBefore(g, n, i, c);
    if Covered(g, n, i, c) || |cells| <= k then None else Some(cells[k])
  }

  /** `g` places every row of `rows` over what the rows above it cover. */
  ghost predicate IsLayout(g: Grid, n: nat, rows: seq<DayRow>) {
    && |g| == |rows| && Shaped(g, n)
    && forall i, c | 0 <= i < |g| && 0 <= c < n :: g[i][c] == Placement(g, n, i, c, rows[i].cells)
  }

  /** `aligned` shows in every column the cell that covers it, if any. */
  ghost predicate Shows(aligned: seq<Option<Cell>>, g: Grid, n: nat, i: nat)
    requires Shaped(g, n) && i < |g|
  {
    && |aligned| == n
    && (forall c, x | 0 <= c < n && aligned[c] == Some(x) ::
          exists j :: 0 <= j <= i && Covers(g, n, j, i, c) && g[j][c] == Some(x))
    && (forall c, j | 0 <= c < n && 0 <= j <= i && Covers(g, n, j, i, c) :: aligned[c] == g[j][c])
  }

  // ---------------------------------------------------------------- one row, in place

  /** The cell that spans a column and the number of rows it still spans. */
  type Spans = map<nat, (Cell, int)>

  ghost function FreeOf(active: Spans, c: nat): nat {
    if c == 0 then 0 else FreeOf(active, c - 1) + (if c - 1 in active then 0 else 1)
  }

  ghost function CellAt(active: Spans, cells: seq<Cell>, c: nat): Option<Cell> {
    if c in active then Some(active[c].0)
    else if FreeOf(active, c) < |cells| then Some(cells[FreeOf(active, c)])
    else None
  }

  lemma {:induction false} FreeOfMonotone(active: Spans, c: nat, d: nat)
    requires c <= d
    ensures FreeOf(active, c) <= FreeOf(active, d)
    ensures c < d && c !in active ==> FreeOf(active, c) < FreeOf(active, d)
    decreases d
  {
    if c < d { FreeOfMonotone(active, c, d - 1); }
  }

  /** The cells placed in the first `c` columns that span rows below, with the number of those rows. */
  ghost function NewSpans(active: Spans, cells: seq<Cell>, c: nat): seq<(nat, Cell, int)> {
    if c == 0 then []
    else
      var x := CellAt(active, cells, c - 1);
      if c - 1 !in active && x.Some? && Span(x.value) > 1
      then NewSpans(active, cells, c - 1) + [(c - 1, x.value, Span(x.value) - 1)]
      else NewSpans(active, cells, c - 1)
  }

  /** The first `col` columns are final, and the others hold what spans them. */
  ghost predicate Filled(row: seq<Option<Cell>>, active: Spans, cells: seq<Cell>, col: nat) {
    forall c {:trigger row[c]} | 0 <= c < |row| ::
      row[c] == if c < col then CellAt(active, cells, c) else if c in active then Some(active[c].0) else None
  }

  lemma {:induction false} SkipColumn(row: seq<Option<Cell>>, active: Spans, cells: seq<Cell>, col: nat)
    requires col < |row| && row[col].Some? && Filled(row, active, cells, col)
    ensures Filled(row, active, cells, col + 1) && FreeOf(active, col + 1) == FreeOf(active, col)
    ensures NewSpans(active, cells, col + 1) == NewSpans(active, cells, col)
  {
  }

  lemma {:induction false} TakeColumn(row: seq<Option<Cell>>, active: Spans, cells: seq<Cell>, col: nat)
    requires col < |row| && row[col].None? && Filled(row, active, cells, col) && FreeOf(active, col) < |cells|
    ensures var x := cells[FreeOf(active, col)];
            && Filled(row[col := Some(x)], active, cells, col + 1)
            && FreeOf(active, col + 1) == FreeOf(active, col) + 1
            && NewSpans(active, cells, col + 1) ==
               if Span(x) > 1 then NewSpans(active, cells, col) + [(col, x, Span(x) - 1)]
               else NewSpans(active, cells, col)
  {
  }

  /** Step A: the spanned columns. */
  method PreFill(n: nat, active: Spans, aligned: array<Option<Cell>>)
    requires aligned.Length == n
    modifies aligned
    ensures forall cells :: Filled(aligned[..], active, cells, 0)
  {
    forall c | 0 <= c < n {
      aligned[c] := if c in active then Some(active[c].0) else None;
    }
  }

  /** Steps A and B: pre-fill the spanned columns, then place the row's cells in the free ones. `spanning` are the
      cells that will span rows below, with the number of those rows. */
  method PlaceRow(cells: seq<Cell>, n: nat, active: Spans, aligned: array<Option<Cell>>)
    returns (spanning: seq<(nat, Cell, int)>)
    requires aligned.Length == n
    modifies aligned
    ensures forall c {:trigger aligned[c]} | 0 <= c < n :: aligned[c] == CellAt(active, cells, c)
    ensures spanning == NewSpans(active, cells, n)
  {
    PreFill(n, active, aligned);
    var col, k := 0, 0;
    spanning := [];
    while k < |cells|
      invariant 0 <= k <= |cells| && 0 <= col <= n && FreeOf(active, col) == k
      invariant Filled(aligned[..], active, cells, col) && spanning == NewSpans(active, cells, col)
    {
      while col < n && aligned[col].Some?
        invariant col <= n && FreeOf(active, col) == k
        invariant Filled(aligned[..], active, cells, col) && spanning == NewSpans(active, cells, col)
      {
        SkipColumn(aligned[..], active, cells, col);
        col := col + 1;
      }
      if col >= n { break; }
      var cell := cells[k];
      TakeColumn(aligned[..], active, cells, col);
      ghost var was := aligned[..];
      aligned[col] := Some(cell);
      assert aligned[..] == was[col := Some(cell)];
      if cell.rowspan.Some? && cell.rowspan.value >= 2 {
        spanning := spanning + [(col, cell, cell.rowspan.value - 1)];
      }
      col := col + 1;
      k := k + 1;
    }
    RestIsFree(active, cells, col, n);
    forall c | 0 <= c < n ensures aligned[c] == CellAt(active, cells, c) {
      assert aligned[..][c] == aligned[c];
    }
  }

  /** Once the cells are used up, the remaining columns stay as they were. */
  lemma {:induction false} RestIsFree(active: Spans, cells: seq<Cell>, col: nat, n: nat)
    requires col <= n && (col < n ==> |cells| <= FreeOf(active, col))
    ensures NewSpans(active, cells, n) == NewSpans(active, cells, col)
    ensures forall c {:trigger CellAt(active, cells, c)} | col <= c < n && c !in active ::
            CellAt(active, cells, c) == None
  {
    if col < n {
      FreeOfMonotone(active, col, n - 1);
      RestIsFree(active, cells, col, n - 1);
    }
  }

  /** What spans column c below the row. */
  ghost function Next(active: Spans, cells: seq<Cell>, n: nat, c: nat): Option<(Cell, int)> {
    if c in active then if active[c].1 > 1 then Some((active[c].0, active[c].1 - 1)) else None
    else
      var x := CellAt(active, cells, c);
      if c < n && x.Some? && Span(x.value) > 1 then Some((x.value, Span(x.value) - 1)) else None
  }

  ghost predicate Entry(spans: Spans, c: nat, want: Option<(Cell, int)>) {
    if want.None? then c !in spans else c in spans && spans[c] == want.value
  }

  /** Step C: decrement what spans, and expire what hits zero. */
  method Decrement(active: Spans) returns (rest: Spans)
    ensures forall c: nat {:trigger Decremented(active, c)} :: Entry(rest, c, Decremented(active, c))
  {
    rest := active;
    var todo := active.Keys;
    var expired: set<nat> := {};
    while todo != {}
      invariant todo <= active.Keys == rest.Keys
      invariant forall c | c in active && c in todo :: rest[c] == active[c] && c !in expired
      invariant forall c | c in active && c !in todo ::
                  if active[c].1 > 1 then rest[c] == (active[c].0, active[c].1 - 1) && c !in expired else c in expired
      decreases |todo|
    {
      var c :| c in todo;
      var (x, remaining) := rest[c];
      var newRemaining: int := remaining - 1;
      if newRemaining <= 0 {
        expired := expired + {c};
      } else {
        rest := rest[c := (x, newRemaining)];
      }
      todo := todo - {c};
    }
    rest := rest - expired;
  }

  /** Step D: register the cells that span rows below. */
  method Register(rest: Spans, spanning: seq<(nat, Cell, int)>) returns (next: Spans)
    requires forall i, k | 0 <= i < k < |spanning| :: spanning[i].0 < spanning[k].0
    ensures forall c {:trigger c in next} | !Collected(spanning, c) ::
              (c in next <==> c in rest) && (c in next ==> next[c] == rest[c])
    ensures forall i | 0 <= i < |spanning| ::
            spanning[i].0 in next && next[spanning[i].0] == (spanning[i].1, spanning[i].2)
  {
    next := rest;
    for k := 0 to |spanning|
      invariant forall c {:trigger c in next} | !Collected(spanning[..k], c) ::
                  (c in next <==> c in rest) && (c in next ==> next[c] == rest[c])
      invariant forall i | 0 <= i < k :: spanning[i].0 in next && next[spanning[i].0] == (spanning[i].1, spanning[i].2)
    {
      CollectedSnoc(spanning, k);
      next := next[spanning[k].0 := (spanning[k].1, spanning[k].2)];
    }
    assert spanning[..|spanning|] == spanning;
  }

  /** Steps A to D for one row. */
  method AlignRow(cells: seq<Cell>, n: nat, active: Spans) returns (aligned: array<Option<Cell>>, next: Spans)
    ensures fresh(aligned) && aligned.Length == n
    ensures forall c {:trigger aligned[c]} | 0 <= c < n :: aligned[c] == CellAt(active, cells, c)
    ensures forall c: nat {:trigger Next(active, cells, n, c)} :: Entry(next, c, Next(active, cells, n, c))
  {
    aligned := new Option<Cell>[n];
    var spanning := PlaceRow(cells, n, active, aligned);
    var rest := Decrement(active);
    CollectedAre(active, cells, n);
    next := Register(rest, spanning);
    forall c: nat ensures Entry(next, c, Next(active, cells, n, c)) {
      EntryIs(active, cells, n, rest, next, c);
    }
  }

  ghost function Decremented(active: Spans, c: nat): Option<(Cell, int)> {
    if c in active && active[c].1 > 1 then Some((active[c].0, active[c].1 - 1)) else None
  }

  lemma {:induction false} EntryIs(active: Spans, cells: seq<Cell>, n: nat, rest: Spans, next: Spans, c: nat)
    requires Entry(rest, c, Decremented(active, c))
    requires var spanning := NewSpans(active, cells, n);
             && (!Collected(spanning, c) ==> (c in next <==> c in rest) && (c in next ==> next[c] == rest[c]))
             && (forall i | 0 <= i < |spanning| ::
                 spanning[i].0 in next && next[spanning[i].0] == (spanning[i].1, spanning[i].2))
    ensures Entry(next, c, Next(active, cells, n, c))
  {
    CollectedIff(active, cells, n, c);
    CollectedAre(active, cells, n);
    var spanning := NewSpans(active, cells, n);
    if Collected(spanning, c) {
      var i :| 0 <= i < |spanning| && spanning[i].0 == c;
      assert spanning[i].0 in next;
    }
  }

  lemma {:induction false} CollectedSnoc(spanning: seq<(nat, Cell, int)>, k: nat)
    requires k < |spanning|
    ensures forall c :: Collected(spanning[..k + 1], c) <==> Collected(spanning[..k], c) || c == spanning[k].0
  {
  }

  ghost predicate Collected(spanning: seq<(nat, Cell, int)>, c: nat) {
    exists i :: 0 <= i < |spanning| && spanning[i].0 == c
  }

  /** The collected spans are those of the placed cells. */
  lemma {:induction false} CollectedIff(active: Spans, cells: seq<Cell>, n: nat, c: nat)
    ensures Collected(NewSpans(active, cells, n), c) <==> c !in active && Next(active, cells, n, c).Some?
  {
    if n > 0 {
      CollectedIff(active, cells, n - 1, c);
      var before, spanning := NewSpans(active, cells, n - 1), NewSpans(active, cells, n);
      if spanning != before {
        assert spanning == before + [spanning[|before|]] && spanning[|before|].0 == n - 1;
        assert spanning[..|before| + 1] == spanning && spanning[..|before|] == before;
        CollectedSnoc(spanning, |before|);
      }
    }
  }

  /** Each column once, with the cell placed there. */
  ghost predicate Registered(active: Spans, cells: seq<Cell>, n: nat, spanning: seq<(nat, Cell, int)>) {
    && (forall i | 0 <= i < |spanning| ::
          && spanning[i].0 < n && spanning[i].0 !in active &&
              CellAt(active, cells, spanning[i].0) == Some(spanning[i].1)
          && Span(spanning[i].1) == spanning[i].2 + 1 && spanning[i].2 > 0)
    && (forall i, k | 0 <= i < k < |spanning| :: spanning[i].0 < spanning[k].0)
  }

  lemma {:induction false} CollectedAre(active: Spans, cells: seq<Cell>, n: nat)
    ensures Registered(active, cells, n, NewSpans(active, cells, n))
  {
    if n > 0 {
      CollectedAre(active, cells, n - 1);
    }
  }

  // ---------------------------------------------------------------- the map tracks the layout

  ghost function PlacedRow(g: Grid, n: nat, cells: seq<Cell>): (row: seq<Option<Cell>>)
    requires Shaped(g, n)
    ensures |row| == n
  {
    seq(n, c requires 0 <= c < n => Placement(g, n, |g|, c, cells))
  }

  /** The spans are those of the cells that cover the row below the grid, with the rows they still cover. */
  ghost predicate Tracks(active: Spans, g: Grid, n: nat)
    requires Shaped(g, n)
  {
    && (forall c | c in active :: c < n && Covered(g, n, |g|, c))
    && (forall c, j | 0 <= c < n && 0 <= j < |g| && Covers(g, n, j, |g|, c) ::
          c in active && active[c] == (g[j][c].value, j + Span(g[j][c].value) - |g|))
  }

  lemma {:induction false} FreeMatches(active: Spans, g: Grid, n: nat, c: nat)
    requires Shaped(g, n) && Tracks(active, g, n) && c <= n
    ensures FreeBefore(g, n, |g|, c) == FreeOf(active, c)
    ensures c < n ==> (Covered(g, n, |g|, c) <==> c in active)
  {
    if c > 0 { FreeMatches(active, g, n, c - 1); }
  }

  /** A row placed below does not change what is above it. */
  lemma {:induction false} PlacementFrame(g: Grid, row: seq<Option<Cell>>, n: nat, i: nat, c: nat, cells: seq<Cell>)
    requires Shaped(g, n) && |row| == n && i <= |g| && c < n
    ensures Placement(g + [row], n, i, c, cells) == Placement(g, n, i, c, cells)
  {
    FreeFrame(g, row, n, i, c);
    CoveredFrame(g, row, n, i, c);
  }

  lemma {:induction false} FreeFrame(g: Grid, row: seq<Option<Cell>>, n: nat, i: nat, c: nat)
    requires Shaped(g, n) && |row| == n && i <= |g| && c <= n
    ensures FreeBefore(g + [row], n, i, c) == FreeBefore(g, n, i, c)
  {
    if c > 0 {
      FreeFrame(g, row, n, i, c - 1);
      CoveredFrame(g, row, n, i, c - 1);
    }
  }

  lemma {:induction false} CoveredFrame(g: Grid, row: seq<Option<Cell>>, n: nat, i: nat, c: nat)
    requires Shaped(g, n) && |row| == n && i <= |g| && c < n
    ensures Covered(g + [row], n, i, c) <==> Covered(g, n, i, c)
  {
    forall j | 0 <= j < i ensures Covers(g + [row], n, j, i, c) <==> Covers(g, n, j, i, c) {
      assert (g + [row])[j] == g[j];
    }
  }

  lemma {:induction false} LayoutSnoc(g: Grid, n: nat, rows: seq<DayRow>, row: DayRow)
    requires IsLayout(g, n, rows)
    ensures IsLayout(g + [PlacedRow(g, n, row.cells)], n, rows + [row])
  {
    var placed := PlacedRow(g, n, row.cells);
    forall i, c | 0 <= i < |g| + 1 && 0 <= c < n
      ensures (g + [placed])[i][c] == Placement(g + [placed], n, i, c, (rows + [row])[i].cells)
    {
      PlacementFrame(g, placed, n, i, c, (rows + [row])[i].cells);
    }
  }

  lemma {:induction false} RowShows(active: Spans, g: Grid, n: nat, cells: seq<Cell>, aligned: seq<Option<Cell>>)
    requires Shaped(g, n) && Tracks(active, g, n) && |aligned| == n
    requires forall c {:trigger aligned[c]} | 0 <= c < n :: aligned[c] == CellAt(active, cells, c)
    ensures Shows(aligned, g + [PlacedRow(g, n, cells)], n, |g|)
  {
    var g' := g + [PlacedRow(g, n, cells)];
    assert Shaped(g', n);
    forall c: nat | c < n
      ensures aligned[c].Some? ==> exists j :: 0 <= j <= |g| && Covers(g', n, j, |g|, c) && g'[j][c] == aligned[c]
      ensures forall j | 0 <= j <= |g| && Covers(g', n, j, |g|, c) :: aligned[c] == g'[j][c]
    {
      ColumnShows(active, g, n, cells, c);
    }
  }

  /** What `Tracks` says of one column. */
  ghost predicate TracksColumn(spans: Spans, g: Grid, n: nat, c: nat)
    requires Shaped(g, n)
  {
    && (c in spans ==> c < n && Covered(g, n, |g|, c))
    && (forall j | 0 <= j < |g| && c < n && Covers(g, n, j, |g|, c) ::
          c in spans && spans[c] == (g[j][c].value, j + Span(g[j][c].value) - |g|))
  }

  lemma {:induction false} TracksByColumn(spans: Spans, g: Grid, n: nat)
    requires Shaped(g, n) && forall c: nat :: TracksColumn(spans, g, n, c)
    ensures Tracks(spans, g, n)
  {
    forall c | c in spans ensures c < n && Covered(g, n, |g|, c) {
      assert TracksColumn(spans, g, n, c);
    }
    forall c, j | 0 <= c < n && 0 <= j < |g| && Covers(g, n, j, |g|, c)
      ensures c in spans && spans[c] == (g[j][c].value, j + Span(g[j][c].value) - |g|)
    {
      assert TracksColumn(spans, g, n, c);
    }
  }

  lemma {:induction false} EnteredColumn(spans: Spans, g: Grid, n: nat, c: nat, want: Option<(Cell, int)>)
    requires Shaped(g, n) && Entry(spans, c, want) && (want.Some? ==> c < n && Covered(g, n, |g|, c))
    requires forall j | 0 <= j < |g| && c < n && Covers(g, n, j, |g|, c) ::
               want == Some((g[j][c].value, j + Span(g[j][c].value) - |g|))
    ensures TracksColumn(spans, g, n, c)
  {
  }

  lemma {:induction false} RowTracks(active: Spans, g: Grid, n: nat, cells: seq<Cell>, next: Spans)
    requires Shaped(g, n) && Tracks(active, g, n)
    requires forall c: nat {:trigger Next(active, cells, n, c)} :: Entry(next, c, Next(active, cells, n, c))
    ensures Tracks(next, g + [PlacedRow(g, n, cells)], n)
  {
    var g' := g + [PlacedRow(g, n, cells)];
    assert Shaped(g', n);
    forall c: nat ensures TracksColumn(next, g', n, c) {
      assert Entry(next, c, Next(active, cells, n, c));
      if c < n { ColumnTracks(active, g, n, cells, c); }
      EnteredColumn(next, g', n, c, Next(active, cells, n, c));
    }
    TracksByColumn(next, g', n);
  }

  /** One row: what the array shows is what the layout shows, and the map tracks the layout with this row. */
  lemma {:induction false} RowRefines(active: Spans, g: Grid, n: nat, cells: seq<Cell>, aligned: seq<Option<Cell>>,
                                      next: Spans)
    requires Shaped(g, n) && Tracks(active, g, n) && |aligned| == n
    requires forall c {:trigger aligned[c]} | 0 <= c < n :: aligned[c] == CellAt(active, cells, c)
    requires forall c: nat {:trigger Next(active, cells, n, c)} :: Entry(next, c, Next(active, cells, n, c))
    ensures Shows(aligned, g + [PlacedRow(g, n, cells)], n, |g|)
    ensures Tracks(next, g + [PlacedRow(g, n, cells)], n)
  {
    RowShows(active, g, n, cells, aligned);
    RowTracks(active, g, n, cells, next);
  }

  lemma {:induction false} ColumnShows(active: Spans, g: Grid, n: nat, cells: seq<Cell>, c: nat)
    requires Shaped(g, n) && Tracks(active, g, n) && c < n
    ensures var g', x := g + [PlacedRow(g, n, cells)], CellAt(active, cells, c);
            && (x.Some? ==> exists j :: 0 <= j <= |g| && Covers(g', n, j, |g|, c) && g'[j][c] == x)
            && (forall j | 0 <= j <= |g| && Covers(g', n, j, |g|, c) :: x == g'[j][c])
  {
    var g', x := g + [PlacedRow(g, n, cells)], CellAt(active, cells, c);
    FreeMatches(active, g, n, c);
    if c in active {
      var j :| 0 <= j < |g| && Covers(g, n, j, |g|, c);
      assert Covers(g', n, j, |g|, c) && g'[j][c] == x;
    } else if x.Some? {
      assert Covers(g', n, |g|, |g|, c) && g'[|g|][c] == x;
    }
    forall j | 0 <= j <= |g| && Covers(g', n, j, |g|, c) ensures x == g'[j][c] {
      if j < |g| { assert Covers(g, n, j, |g|, c); }
    }
  }

  lemma {:induction false} ColumnTracks(active: Spans, g: Grid, n: nat, cells: seq<Cell>, c: nat)
    requires Shaped(g, n) && Tracks(active, g, n) && c < n
    ensures var g', want := g + [PlacedRow(g, n, cells)], Next(active, cells, n, c);
            && (want.Some? ==> Covered(g', n, |g'|, c))
            && (forall j | 0 <= j < |g'| && Covers(g', n, j, |g'|, c) ::
                  want == Some((g'[j][c].value, j + Span(g'[j][c].value) - |g'|)))
  {
    var g', want := g + [PlacedRow(g, n, cells)], Next(active, cells, n, c);
    FreeMatches(active, g, n, c);
    if c in active {
      var j :| 0 <= j < |g| && Covers(g, n, j, |g|, c);
      assert want.Some? ==> Covers(g', n, j, |g'|, c);
    } else if want.Some? {
      assert Covers(g', n, |g|, |g'|, c);
    }
    forall j | 0 <= j < |g'| && Covers(g', n, j, |g'|, c)
      ensures want == Some((g'[j][c].value, j + Span(g'[j][c].value) - |g'|))
    {
      if j < |g| { assert Covers(g, n, j, |g|, c); }
    }
  }

  /** A cell is dropped only when no free column remains: the k-th cell of a row has a column of its own, the k-th
      uncovered one, exactly when there are more than k uncovered columns. */
  lemma {:induction false} PlacedUnlessFull(g: Grid, n: nat, rows: seq<DayRow>, i: nat, k: nat)
    requires IsLayout(g, n, rows) && i < |rows| && k < |rows[i].cells|
    ensures (exists c :: 0 <= c < n && TakesColumn(g, n, i, c, k)) <==> k < FreeBefore(g, n, i, n)
    ensures forall c | 0 <= c < n && TakesColumn(g, n, i, c, k) :: g[i][c] == Some(rows[i].cells[k])
  {
    if k < FreeBefore(g, n, i, n) {
      var c := KthFree(g, n, i, n, k);
      assert TakesColumn(g, n, i, c, k);
    }
    forall c: nat | c < n && TakesColumn(g, n, i, c, k) ensures k < FreeBefore(g, n, i, n) {
      FreeBeforeMonotone(g, n, i, c + 1, n);
    }
  }

  /** Column c is the k-th uncovered one of row i. */
  ghost predicate TakesColumn(g: Grid, n: nat, i: nat, c: nat, k: nat)
    requires Shaped(g, n) && i <= |g| && c < n
  {
    !Covered(g, n, i, c) && FreeBefore(g, n, i, c) == k
  }

  lemma {:induction false} KthFree(g: Grid, n: nat, i: nat, d: nat, k: nat) returns (c: nat)
    requires Shaped(g, n) && i <= |g| && d <= n && k < FreeBefore(g, n, i, d)
    ensures c < d && TakesColumn(g, n, i, c, k)
  {
    if k < FreeBefore(g, n, i, d - 1) {
      c := KthFree(g, n, i, d - 1, k);
    } else {
      c := d - 1;
    }
  }

  lemma {:induction false} FreeBeforeMonotone(g: Grid, n: nat, i: nat, c: nat, d: nat)
    requires Shaped(g, n) && i <= |g| && c <= d <= n
    ensures FreeBefore(g, n, i, c) <= FreeBefore(g, n, i, d)
    decreases d
  {
    if c < d { FreeBeforeMonotone(g, n, i, c, d - 1); }
  }

  /** The layout is determined by the rows. */
  lemma {:induction false} LayoutIsUnique(g: Grid, h: Grid, n: nat, rows: seq<DayRow>)
    requires IsLayout(g, n, rows) && IsLayout(h, n, rows)
    ensures g == h
    decreases |rows|
  {
    if rows == [] {
    } else {
      var k := |rows| - 1;
      PrefixIsLayout(g, n, rows);
      PrefixIsLayout(h, n, rows);
      LayoutIsUnique(g[..k], h[..k], n, rows[..k]);
      assert g[..k] + [g[k]] == g && h[..k] + [h[k]] == h;
      forall c | 0 <= c < n ensures g[k][c] == h[k][c] {
        PlacementFrame(g[..k], g[k], n, k, c, rows[k].cells);
        PlacementFrame(h[..k], h[k], n, k, c, rows[k].cells);
      }
      assert g[k] == h[k];
    }
  }

  lemma {:induction false} PrefixIsLayout(g: Grid, n: nat, rows: seq<DayRow>)
    requires IsLayout(g, n, rows) && rows != []
    ensures IsLayout(g[..|rows| - 1], n, rows[..|rows| - 1])
  {
    var k := |rows| - 1;
    assert g[..k] + [g[k]] == g;
    forall i, c | 0 <= i < k && 0 <= c < n ensures g[..k][i][c] == Placement(g[..k], n, i, c, rows[..k][i].cells) {
      PlacementFrame(g[..k], g[k], n, i, c, rows[i].cells);
    }
  }

  // ---------------------------------------------------------------- the whole table

  /** The slot a shown cell gives, if it says anything. */
  function SlotOf(x: Option<Cell>, row: DayRow, times: seq<(string, string)>, c: nat): Option<Slot>
    requires c < |times|
  {
    if x.None? || x.value.meaning.Nothing? then None
    else Some(Slot(row.day, row.weekday, c + 1, times[c].0, times[c].1, x.value.meaning))
  }

  /** The slots of the first `c` columns. */
  ghost function RowSlots(aligned: seq<Option<Cell>>, row: DayRow, times: seq<(string, string)>, c: nat): seq<Slot>
    requires c <= |times| == |aligned|
  {
    if c == 0 then []
    else
      match SlotOf(aligned[c - 1], row, times, c - 1)
      case None => RowSlots(aligned, row, times, c - 1)
      case Some(slot) => RowSlots(aligned, row, times, c - 1) + [slot]
  }

  ghost function AllSlots(shown: Grid, rows: seq<DayRow>, times: seq<(string, string)>): seq<Slot>
    requires |shown| == |rows| && Shaped(shown, |times|)
  {
    if rows == [] then []
    else
      var i := |rows| - 1;
      AllSlots(shown[..i], rows[..i], times) + RowSlots(shown[i], rows[i], times, |times|)
  }

  /** Step E: emit the row's slots. */
  method EmitRow(aligned: array<Option<Cell>>, row: DayRow, times: seq<(string, string)>, entries: seq<Slot>)
    returns (more: seq<Slot>)
    requires aligned.Length == |times|
    ensures more == entries + RowSlots(aligned[..], row, times, |times|)
  {
    more := entries;
    for c := 0 to |times|
      invariant more == entries + RowSlots(aligned[..], row, times, c)
    {
      var cell := aligned[c];
      if cell.Some? && !cell.value.meaning.Nothing? {
        more := more + [Slot(row.day, row.weekday, c + 1, times[c].0, times[c].1, cell.value.meaning)];
      }
    }
  }

  /** Every row of `shown` shows the layout of the accepted rows. */
  ghost predicate ShowsLayout(shown: Grid, g: Grid, n: nat, rows: seq<DayRow>) {
    && IsLayout(g, n, rows) && |shown| == |g| && Shaped(shown, n)
    && forall i | 0 <= i < |g| :: Shows(shown[i], g, n, i)
  }

  /** A row below changes nothing for the rows above. */
  lemma {:induction false} ShowsFrame(aligned: seq<Option<Cell>>, g: Grid, row: seq<Option<Cell>>, n: nat, i: nat)
    requires Shaped(g, n) && |row| == n && i < |g| && Shows(aligned, g, n, i)
    ensures Shows(aligned, g + [row], n, i)
  {
    forall c: nat, x | c < n && aligned[c] == Some(x)
      ensures exists j :: 0 <= j <= i && Covers(g + [row], n, j, i, c) && (g + [row])[j][c] == Some(x)
    {
      var j :| 0 <= j <= i && Covers(g, n, j, i, c) && g[j][c] == Some(x);
      assert Covers(g + [row], n, j, i, c);
    }
    forall c: nat, j: nat | c < n && j <= i && Covers(g + [row], n, j, i, c) ensures aligned[c] == (g + [row])[j][c] {
      assert Covers(g, n, j, i, c);
    }
  }

  lemma {:induction false} ShownSnoc(g: Grid, placed: seq<Option<Cell>>, n: nat, shown: Grid,
                                     aligned: seq<Option<Cell>>, rows: seq<DayRow>, row: DayRow)
    requires ShowsLayout(shown, g, n, rows) && |placed| == |aligned| == n
    requires IsLayout(g + [placed], n, rows + [row]) && Shows(aligned, g + [placed], n, |g|)
    ensures ShowsLayout(shown + [aligned], g + [placed], n, rows + [row])
  {
    forall i | 0 <= i < |g| ensures Shows(shown[i], g + [placed], n, i) {
      ShowsFrame(shown[i], g, placed, n, i);
    }
  }

  lemma {:induction false} TableStep(active: Spans, next: Spans, g: Grid, shown: Grid, rows: seq<DayRow>, row: DayRow,
                                     aligned: seq<Option<Cell>>, times: seq<(string, string)>)
    requires var n := |times|; ShowsLayout(shown, g, n, rows) && Tracks(active, g, n) && |aligned| == n
    requires forall c {:trigger aligned[c]} | 0 <= c < |times| :: aligned[c] == CellAt(active, row.cells, c)
    requires forall c: nat {:trigger Next(active, row.cells, |times|, c)} ::
            Entry(next, c, Next(active, row.cells, |times|, c))
    ensures var n, g' := |times|, g + [PlacedRow(g, |times|, row.cells)];
            && ShowsLayout(shown + [aligned], g', n, rows + [row]) && Tracks(next, g', n)
            && AllSlots(shown + [aligned], rows + [row], times) ==
                AllSlots(shown, rows, times) + RowSlots(aligned, row, times, n)
  {
    var n := |times|;
    var placed := PlacedRow(g, n, row.cells);
    RowRefines(active, g, n, row.cells, aligned, next);
    LayoutSnoc(g, n, rows, row);
    ShownSnoc(g, placed, n, shown, aligned, rows, row);
    assert (shown + [aligned])[..|rows|] == shown && (rows + [row])[..|rows|] == rows;
  }

  /** The timetable parser from its rows on. The slots are those of the declarative layout of the accepted rows. */
  method ParseTimetable(times: seq<(string, string)>, table: seq<TableRow>)
    returns (r: Result, ghost g: Grid, ghost shown: Grid)
    ensures times == [] ==> r == Failed(NoPeriods)
    ensures times != [] && table == [] ==> r == Failed(NoRows)
    ensures times != [] && table != [] ==>
              && ShowsLayout(shown, g, |times|, AllAccepted(table))
              && var slots := AllSlots(shown, AllAccepted(table), times);
                 r == if slots == [] then Failed(NoEntries) else Parsed(slots)
  {
    g, shown := [], [];
    if times == [] { return Failed(NoPeriods), g, shown; }
    if table == [] { return Failed(NoRows), g, shown; }
    var active: Spans := map[];
    var entries: seq<Slot> := [];
    assert table[..0] == [];
    for k := 0 to |table|
      invariant ShowsLayout(shown, g, |times|, AllAccepted(table[..k])) && Tracks(active, g, |times|)
      invariant entries == AllSlots(shown, AllAccepted(table[..k]), times)
    {
      ghost var rows := AllAccepted(table[..k]);
      assert table[..k + 1][..k] == table[..k];
      var accepted := Accepted(table[k]);
      if accepted.Some? {
        var row := accepted.value;
        var aligned, next := AlignRow(row.cells, |times|, active);
        entries := EmitRow(aligned, row, times, entries);
        TableStep(active, next, g, shown, rows, row, aligned[..], times);
        active, g, shown := next, g + [PlacedRow(g, |times|, row.cells)], shown + [aligned[..]];
      }
    }
    assert table[..|table|] == table;
    r := if entries == [] then Failed(NoEntries) else Parsed(entries);
  }

  predicate Above(p: (nat, nat), q: (nat, nat)) { p.0 < q.0 || (p.0 == q.0 && p.1 < q.1) }

  /** The place shows a cell that says something, and the slot is that of its row and its column, counted from one. */
  ghost predicate GivesSlot(shown: Grid, rows: seq<DayRow>, times: seq<(string, string)>, p: (nat, nat), slot: Slot)
    requires |shown| == |rows| && Shaped(shown, |times|)
  {
    && p.0 < |rows| && p.1 < |times| && shown[p.0][p.1].Some? && shown[p.0][p.1].value.meaning != Nothing
    && slot.day == rows[p.0].day && slot.weekday == rows[p.0].weekday && slot.meaning == shown[p.0][p.1].value.meaning
    && slot.period == p.1 + 1 && slot.start == times[p.1].0 && slot.end == times[p.1].1
  }

  /** `at` lists the (row, column) of each slot, increasing row by row and left to right, and contains exactly the
      places that show a cell which says something. */
  ghost predicate ListsSlots(at: seq<(nat, nat)>, slots: seq<Slot>, shown: Grid, rows: seq<DayRow>,
                             times: seq<(string, string)>)
    requires |shown| == |rows| && Shaped(shown, |times|)
  {
    && |at| == |slots|
    && (forall k | 0 <= k < |at| :: GivesSlot(shown, rows, times, at[k], slots[k]))
    && (forall k, l | 0 <= k < l < |at| :: Above(at[k], at[l]))
    && (forall p, slot | GivesSlot(shown, rows, times, p, slot) :: p in at)
  }

  /** The slots come out once per row and column, in order. */
  lemma {:induction false} SlotsInOrder(shown: Grid, rows: seq<DayRow>, times: seq<(string, string)>)
    returns (at: seq<(nat, nat)>)
    requires |shown| == |rows| && Shaped(shown, |times|)
    ensures ListsSlots(at, AllSlots(shown, rows, times), shown, rows, times)
    decreases |rows|
  {
    at := [];
    if rows == [] {
    } else {
      var i := |rows| - 1;
      var above := SlotsInOrder(shown[..i], rows[..i], times);
      var here := RowInOrder(shown[i], rows[i], times, |times|);
      at := above + InRow(i, here);
      RowListed(shown, rows, times, above, AllSlots(shown[..i], rows[..i], times), here,
                RowSlots(shown[i], rows[i], times, |times|));
    }
  }

  /** The places of a row. */
  ghost function InRow(i: nat, columns: seq<nat>): seq<(nat, nat)> {
    seq(|columns|, k requires 0 <= k < |columns| => (i, columns[k]))
  }

  lemma {:induction false} RowListed(shown: Grid, rows: seq<DayRow>, times: seq<(string, string)>,
                                     above: seq<(nat, nat)>, before: seq<Slot>, here: seq<nat>, slots: seq<Slot>)
    requires |shown| == |rows| > 0 && Shaped(shown, |times|)
    requires ListsSlots(above, before, shown[..|rows| - 1], rows[..|rows| - 1], times)
    requires ListsRow(here, slots, shown[|rows| - 1], rows[|rows| - 1], times, |times|)
    ensures ListsSlots(above + InRow(|rows| - 1, here), before + slots, shown, rows, times)
  {
    var i, at := |rows| - 1, above + InRow(|rows| - 1, here);
    RowGives(shown, rows, times, above, before, here, slots);
    forall k, l | 0 <= k < l < |at| ensures Above(at[k], at[l]) {
      if k < |above| <= l {
        assert GivesSlot(shown[..i], rows[..i], times, above[k], before[k]);
      }
    }
    forall p: (nat, nat), slot | GivesSlot(shown, rows, times, p, slot) ensures p in at {
      if p.0 < i {
        assert GivesSlot(shown[..i], rows[..i], times, p, slot);
        assert p in above;
      } else {
        assert p.0 == i && SlotOf(shown[i][p.1], rows[i], times, p.1).Some?;
        assert p.1 in here;
        var k :| 0 <= k < |here| && here[k] == p.1;
        assert at[|above| + k] == p;
      }
    }
  }

  lemma {:induction false} RowGives(shown: Grid, rows: seq<DayRow>, times: seq<(string, string)>,
                                    above: seq<(nat, nat)>, before: seq<Slot>, here: seq<nat>, slots: seq<Slot>)
    requires |shown| == |rows| > 0 && Shaped(shown, |times|)
    requires ListsSlots(above, before, shown[..|rows| - 1], rows[..|rows| - 1], times)
    requires ListsRow(here, slots, shown[|rows| - 1], rows[|rows| - 1], times, |times|)
    ensures var at := above + InRow(|rows| - 1, here);
            |at| == |before| + |slots| && forall k | 0 <= k < |at| ::
                GivesSlot(shown, rows, times, at[k], (before + slots)[k])
  {
  }

  ghost predicate ListsRow(at: seq<nat>, slots: seq<Slot>, aligned: seq<Option<Cell>>, row: DayRow,
                           times: seq<(string, string)>, c: nat)
    requires c <= |times| == |aligned|
  {
    && |at| == |slots|
    && (forall k | 0 <= k < |at| :: at[k] < c && SlotOf(aligned[at[k]], row, times, at[k]) == Some(slots[k]))
    && (forall k, l | 0 <= k < l < |at| :: at[k] < at[l])
    && (forall d: nat | d < c && SlotOf(aligned[d], row, times, d).Some? :: d in at)
  }

  lemma {:induction false} RowInOrder(aligned: seq<Option<Cell>>, row: DayRow, times: seq<(string, string)>, c: nat)
    returns (at: seq<nat>)
    requires c <= |times| == |aligned|
    ensures ListsRow(at, RowSlots(aligned, row, times, c), aligned, row, times, c)
  {
    at := [];
    if c > 0 {
      at := RowInOrder(aligned, row, times, c - 1);
      if SlotOf(aligned[c - 1], row, times, c - 1).Some? {
        var before := at;
        at := at + [c - 1];
        assert at[|before|] == c - 1 && forall d | d in before :: d in at;
      }
    }
  }
}
