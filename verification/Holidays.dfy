/** The holiday calendar: which cells of the displayed grid belong to the month, and the walk from month to month. */
module Holidays {
  import opened Words
  import opened Wrappers
  import StableSort

  // ---------------------------------------------------------------- the grid

  /** A table cell: its text as a number, None if it is not one, and its stripped title, empty if it is no holiday. */
  datatype Td = Td(day: Option<nat>, title: string)

  datatype Holiday = Holiday(day: nat, name: string, month: int, year: int, isTrailing: bool)

  predicate DayAt(cells: seq<Td>, k: nat, day: nat) { k < |cells| && cells[k].day == Some(day) }

  /** Day 1 stands at cell k or before. */
  predicate SawDay1(cells: seq<Td>, k: nat) { exists j: nat :: j <= k && DayAt(cells, j, 1) }

  /** From the first day 1 on, up to cell k, a day from the 15th on was seen. */
  predicate SawMidMonth(cells: seq<Td>, k: nat) {
    exists j: nat :: j <= k && j < |cells| && cells[j].day.Some? && cells[j].day.value >= 15 && SawDay1(cells, j)
  }

  predicate Trailing(cells: seq<Td>, k: nat, daysInMonth: nat)
    requires k < |cells| && cells[k].day.Some?
  {
    var day := cells[k].day.value;
    (!SawDay1(cells, k) && day > 15) || (SawMidMonth(cells, k) && day < 15) || day < 1 || day > daysInMonth
  }

  predicate IsHoliday(td: Td) { td.day.Some? && td.title != "" }

  function EntryAt(cells: seq<Td>, k: nat, daysInMonth: nat, month: int, year: int): Holiday
    requires k < |cells| && IsHoliday(cells[k])
  {
    Holiday(cells[k].day.value, cells[k].title, month, year, Trailing(cells, k, daysInMonth))
  }

  /** `at` lists the holiday cells among the first n, and `holidays` their entries. */
  ghost predicate Collects(cells: seq<Td>, n: nat, daysInMonth: nat, month: int, year: int, holidays: seq<Holiday>,
                           at: seq<nat>)
  {
    && n <= |cells| && |at| == |holidays|
    && (forall i | 0 <= i < |at| ::
          at[i] < n && IsHoliday(cells[at[i]]) && holidays[i] == EntryAt(cells, at[i], daysInMonth, month, year))
    && (forall i, j | 0 <= i < j < |at| :: at[i] < at[j])
    && (forall k: nat | k < n && IsHoliday(cells[k]) :: k in at)
  }

  /** Leading days first, then the month, then trailing days. */
  function SortKey(h: Holiday): StableSort.Key {
    StableSort.Key(if !h.isTrailing then 1 else if h.day > 15 then 0 else 2, h.day)
  }

  /** The result for a table: the entries of its holiday cells, in the order of the cells, sorted stably. */
  ghost predicate IsHolidayList(cells: seq<Td>, daysInMonth: nat, month: int, year: int, holidays: seq<Holiday>) {
    exists found, at ::
      && Collects(cells, |cells|, daysInMonth, month, year, found, at)
      && StableSort.IsSort(found, SortKey, holidays)
  }

  method ParseHolidayCells(cells: seq<Td>, daysInMonth: nat, month: int, year: int) returns (holidays: seq<Holiday>)
    ensures IsHolidayList(cells, daysInMonth, month, year, holidays)
  {
    var sawDay1, sawMidMonth := false, false;
    holidays := [];
    ghost var at: seq<nat> := [];
    for k := 0 to |cells|
      invariant sawDay1 <==> k > 0 && SawDay1(cells, k - 1)
      invariant sawMidMonth <==> k > 0 && SawMidMonth(cells, k - 1)
      invariant Collects(cells, k, daysInMonth, month, year, holidays, at)
    {
      var td := cells[k];
      SeenAt(cells, k);
      if td.day.Some? {
        var day := td.day.value;
        if day == 1 { sawDay1 := true; }
        if sawDay1 && day >= 15 { sawMidMonth := true; }
        if td.title != "" {
          var isTrailing := false;
          if !sawDay1 && day > 15 {
            isTrailing := true;
          } else if sawMidMonth && day < 15 {
            isTrailing := true;
          } else if day < 1 || day > daysInMonth {
            isTrailing := true;
          }
          CollectsMore(cells, k, daysInMonth, month, year, holidays, at);
          holidays := holidays + [Holiday(day, td.title, month, year, isTrailing)];
          at := at + [k];
        }
      }
    }
    ghost var found := holidays;
    assert Collects(cells, |cells|, daysInMonth, month, year, found, at);
    holidays := StableSort.Sort(holidays, SortKey);
  }

  lemma {:induction false} SeenAt(cells: seq<Td>, k: nat)
    requires k < |cells|
    ensures SawDay1(cells, k) <==> (k > 0 && SawDay1(cells, k - 1)) || cells[k].day == Some(1)
    ensures SawMidMonth(cells, k) <==>
              (k > 0 && SawMidMonth(cells, k - 1)) ||
                  (cells[k].day.Some? && cells[k].day.value >= 15 && SawDay1(cells, k))
  {
    if cells[k].day == Some(1) { assert DayAt(cells, k, 1); }
    if SawDay1(cells, k) {
      var j: nat :| j <= k && DayAt(cells, j, 1);
      assert j < k ==> j <= k - 1 && DayAt(cells, j, 1);
    }
  }

  lemma {:induction false} CollectsMore(cells: seq<Td>, k: nat, daysInMonth: nat, month: int, year: int,
                                        holidays: seq<Holiday>, at: seq<nat>)
    requires k < |cells| && IsHoliday(cells[k]) && Collects(cells, k, daysInMonth, month, year, holidays, at)
    ensures Collects(cells, k + 1, daysInMonth, month, year, holidays + [EntryAt(cells, k, daysInMonth, month, year)],
            at + [k])
  {
  }

  /** A marked entry above the 15th is of the previous month, a marked one up to the 15th of the next. */
  predicate InOrder(h: Holiday, k: Holiday, i: nat, j: nat) {
    var first, last := h.isTrailing && h.day > 15, k.isTrailing && k.day <= 15;
    if h.isTrailing == k.isTrailing && (h.isTrailing ==> (h.day > 15) == (k.day > 15))
    then h.day < k.day || (h.day == k.day && i < j)
    else first || last
  }

  /** The entry is that of cell k: its day and title, and the displayed month. */
  predicate IsEntryOf(h: Holiday, cells: seq<Td>, k: nat, daysInMonth: nat, month: int, year: int) {
    && k < |cells| && cells[k].day == Some(h.day) && cells[k].title == h.name && h.name != ""
    && h.month == month && h.year == year && (h.isTrailing <==> Trailing(cells, k, daysInMonth))
  }

  /** The list has one entry for each cell with a day and a title, with that day and title and the displayed month:
      those of the previous month first, those of the next one last, and by day in between, equal ones as displayed. */
  lemma {:induction false} ListedAre(cells: seq<Td>, daysInMonth: nat, month: int, year: int, holidays: seq<Holiday>)
    returns (from: seq<nat>)
    requires IsHolidayList(cells, daysInMonth, month, year, holidays)
    ensures |from| == |holidays|
    ensures forall i | 0 <= i < |from| :: IsEntryOf(holidays[i], cells, from[i], daysInMonth, month, year)
    ensures forall k: nat | k < |cells| && cells[k].day.Some? && cells[k].title != "" :: k in from
    ensures forall i, j | 0 <= i < j < |from| :: InOrder(holidays[i], holidays[j], from[i], from[j])
  {
    var found, at :| Collects(cells, |cells|, daysInMonth, month, year, found, at) &&
        StableSort.IsSort(found, SortKey, holidays);
    var order :| StableSort.Orders(found, SortKey, order) && StableSort.ComesFrom(found, holidays, order);
    from := seq(|order|, i requires 0 <= i < |order| => at[order[i]]);
    forall i | 0 <= i < |from| ensures IsEntryOf(holidays[i], cells, from[i], daysInMonth, month, year) {
      CollectedIs(cells, daysInMonth, month, year, found, at, order[i]);
    }
    forall k: nat | k < |cells| && IsHoliday(cells[k]) ensures k in from {
      assert k in at;
      ComposedIn(at, order, from, k);
    }
    SortedInOrder(found, at, order, holidays, from);
  }

  lemma {:induction false} CollectedIs(
      cells: seq<Td>, daysInMonth: nat, month: int, year: int, found: seq<Holiday>, at: seq<nat>, m: nat)
    requires Collects(cells, |cells|, daysInMonth, month, year, found, at) && m < |at|
    ensures IsEntryOf(found[m], cells, at[m], daysInMonth, month, year)
  {
  }

  lemma {:induction false} ComposedIn(at: seq<nat>, order: seq<nat>, from: seq<nat>, k: nat)
    requires |from| == |order| && forall i | 0 <= i < |order| :: order[i] < |at| && from[i] == at[order[i]]
    requires k in at && forall m: nat | m < |at| :: m in order
    ensures k in from
  {
    var m :| 0 <= m < |at| && at[m] == k;
    assert m in order;
    var i :| 0 <= i < |order| && order[i] == m;
    assert from[i] == k;
  }

  lemma {:induction false} SortedInOrder(
      found: seq<Holiday>, at: seq<nat>, order: seq<nat>, holidays: seq<Holiday>, from: seq<nat>)
    requires |at| == |found| && forall i, j | 0 <= i < j < |at| :: at[i] < at[j]
    requires StableSort.Orders(found, SortKey, order) && StableSort.ComesFrom(found, holidays, order)
    requires |from| == |order| && forall i | 0 <= i < |order| :: from[i] == at[order[i]]
    ensures forall i, j | 0 <= i < j < |from| :: InOrder(holidays[i], holidays[j], from[i], from[j])
  {
    forall i, j | 0 <= i < j < |from| ensures InOrder(holidays[i], holidays[j], from[i], from[j]) {
      assert StableSort.Before(found, SortKey, order[i], order[j]);
    }
  }

  /** A displayed month: cells without a day, then the end of the previous month (days above 15, ascending), the days
      1 to `days` of the month, and the first days of the next one (14 at most), in any mixture of holidays. */
  ghost predicate IsMonthGrid(cells: seq<Td>, first: nat, start: nat, days: nat) {
    && first <= start && start + days <= |cells| && 28 <= days && |cells| - (start + days) <= 14
    && (forall k | 0 <= k < |cells| :: cells[k].day.Some? <==> first <= k)
    && (forall k | first <= k < start :: cells[k].day.value > 15)
    && (forall k, l | first <= k < l < start :: cells[k].day.value < cells[l].day.value)
    && (forall k | start <= k < start + days :: cells[k].day.value == k - start + 1)
    && (forall k | start + days <= k < |cells| :: cells[k].day.value == k - (start + days) + 1)
  }

  /** On a displayed month, the mark is exact: a cell is marked exactly if it is not of the month. */
  lemma {:induction false} MarkIsExact(cells: seq<Td>, first: nat, start: nat, days: nat, k: nat)
    requires IsMonthGrid(cells, first, start, days) && first <= k < |cells|
    ensures Trailing(cells, k, days) <==> !(start <= k < start + days)
  {
    if start <= k { assert DayAt(cells, start, 1); }
    if start + 14 <= k {
      assert DayAt(cells, start, 1) && SawDay1(cells, start + 14);
      assert cells[start + 14].day.value >= 15;
    }
  }

  /** On a displayed month, the list comes out in the order of the grid, the final sort changing nothing, and an
      entry is marked exactly if its cell is not of the month. */
  lemma {:induction false} SortIsIdentity(cells: seq<Td>, first: nat, start: nat, days: nat, month: int, year: int,
                                          holidays: seq<Holiday>) returns (at: seq<nat>)
    requires IsMonthGrid(cells, first, start, days) && IsHolidayList(cells, days, month, year, holidays)
    ensures Collects(cells, |cells|, days, month, year, holidays, at)
    ensures forall i | 0 <= i < |at| :: holidays[i].isTrailing <==> !(start <= at[i] < start + days)
  {
    var found: seq<Holiday>;
    found, at :| Collects(cells, |cells|, days, month, year, found, at) && StableSort.IsSort(found, SortKey, holidays);
    forall i | 0 <= i < |at| ensures found[i].isTrailing <==> !(start <= at[i] < start + days) {
      MarkIsExact(cells, first, start, days, at[i]);
    }
    KeysAscend(cells, first, start, days, month, year, found, at);
    StableSort.SortedStays(found, SortKey, holidays);
  }

  lemma {:induction false} KeysAscend(cells: seq<Td>, first: nat, start: nat, days: nat, month: int, year: int,
                                      found: seq<Holiday>, at: seq<nat>)
    requires IsMonthGrid(cells, first, start, days) && Collects(cells, |cells|, days, month, year, found, at)
    requires forall i | 0 <= i < |at| :: found[i].isTrailing <==> !(start <= at[i] < start + days)
    ensures StableSort.Ascending(found, SortKey)
  {
    forall i, j | 0 <= i < j < |found| ensures !StableSort.Less(SortKey(found[j]), SortKey(found[i])) {
      assert at[i] < at[j];
    }
  }

  // ---------------------------------------------------------------- labels

  function MonthName(m: int): string {
    match m
    case 1 => "January" case 2 => "February" case 3 => "March" case 4 => "April" case 5 => "May" case 6 => "June"
    case 7 => "July" case 8 => "August" case 9 => "September" case 10 => "October" case 11 => "November"
    case 12 => "December" case _ => ""
  }

  const MONTHS: seq<string> := ["January", "February", "March", "April", "May", "June", "July", "August", "September",
                                "October", "November", "December"]

  lemma {:induction false} NameIsListed(m: nat)
    requires 1 <= m <= 12
    ensures MonthName(m) == MONTHS[m - 1]
  {
  }

  function MonthLabel(m: int, y: nat): string { MonthName(m) + " " + Print(y) }

  function Letters(s: string): (r: string)
    ensures r <= s && (|r| < |s| ==> !IsLetter(s[|r|])) && forall i | 0 <= i < |r| :: IsLetter(r[i])
  {
    if s != "" && IsLetter(s[0]) then [s[0]] + Letters(s[1..]) else ""
  }

  /** The number of the month with this name, 0 if there is none. */
  function MonthNumber(name: string, m: nat): (r: nat)
    requires 1 <= m <= 13
    ensures r == 0 || (m <= r <= 12 && Lower(MonthName(r)) == Lower(name))
    decreases 13 - m
  {
    if m == 13 then 0 else if Lower(MonthName(m)) == Lower(name) then m else MonthNumber(name, m + 1)
  }

  /** Letters, white space, four digits, with white space around; (0, 0) on failure. */
  function LabelToYearMonth(heading: string): (nat, nat) {
    var s := StripLeft(heading);
    var name := Letters(s);
    var tail := s[|name|..];
    var digits := Strip(tail);
    if name == "" || tail == "" || !IsSpace(tail[0]) || |digits| != 4 then (0, 0)
    else
      match Parse(digits)
      case None => (0, 0)
      case Some(y) => var m := MonthNumber(name, 1); if m == 0 then (0, 0) else (y, m)
  }

  lemma {:induction false} PrintHasFourDigits(y: nat)
    requires 1000 <= y <= 9999
    ensures |Print(y)| == 4
  {
    assert |Print(y / 1000)| == 1 && |Print(y / 100)| == 2 && |Print(y / 10)| == 3;
  }

  lemma {:induction false} NameIsLetters(m: int, rest: string)
    requires 1 <= m <= 12 && (rest == "" || !IsLetter(rest[0]))
    ensures Letters(MonthName(m) + rest) == MonthName(m) && MonthName(m) != ""
    ensures StripLeft(MonthName(m) + rest) == MonthName(m) + rest
  {
    LettersThen(MonthName(m), rest);
  }

  lemma {:induction false} LettersThen(name: string, rest: string)
    requires (forall i | 0 <= i < |name| :: IsLetter(name[i])) && (rest == "" || !IsLetter(rest[0]))
    ensures Letters(name + rest) == name
  {
    if name == "" {
      assert name + rest == rest;
    } else {
      assert (name + rest)[1..] == name[1..] + rest;
      LettersThen(name[1..], rest);
    }
  }

  lemma {:induction false} NumberOfName(m: nat, from: nat)
    requires 1 <= from <= m <= 12
    ensures MonthNumber(MonthName(m), from) == m
    decreases m - from
  {
    if from < m {
      NamesDiffer(from, m);
      NumberOfName(m, from + 1);
    }
  }

  /** Two months differ in length or in one of the first three letters. */
  lemma {:induction false} NamesDiffer(m: int, n: int)
    requires 1 <= m <= 12 && 1 <= n <= 12 && m != n
    ensures Lower(MonthName(m)) != Lower(MonthName(n))
  {
    var a, b := Lower(MonthName(m)), Lower(MonthName(n));
    assert a[0] != b[0] || a[1] != b[1] || a[2] != b[2];
  }

  lemma {:induction false} SplitReads(name: string, digits: string, y: nat, m: nat)
    requires name != "" && StripLeft(name + (" " + digits)) == name + (" " + digits)
    requires Letters(name + (" " + digits)) == name && MonthNumber(name, 1) == m > 0
    requires |digits| == 4 && (forall i | 0 <= i < 4 :: IsDigit(digits[i])) && Parse(digits) == Some(y)
    ensures LabelToYearMonth(name + " " + digits) == (y, m)
  {
    assert name + " " + digits == name + (" " + digits);
    var tail := (name + (" " + digits))[|name|..];
    assert tail == " " + digits && tail[1..] == digits;
    assert StripLeft(tail) == digits && Strip(tail) == digits;
  }

  /** A label made for a month is read back as that month. */
  lemma {:induction false} LabelReadsBack(m: nat, y: nat)
    requires 1 <= m <= 12 && 1000 <= y <= 9999
    ensures LabelToYearMonth(MonthLabel(m, y)) == (y, m)
  {
    NameIsLetters(m, " " + Print(y));
    PrintHasFourDigits(y);
    PrintParses(y);
    NumberOfName(m, 1);
    SplitReads(MonthName(m), Print(y), y, m);
  }

  /** The calendar's own names: the m-th of them, a space and the year is the label of that month, and read as it. */
  lemma {:induction false} CalendarNames(m: nat, y: nat)
    requires 1 <= m <= 12 && 1000 <= y <= 9999
    ensures MonthLabel(m, y) == MONTHS[m - 1] + " " + Print(y)
    ensures LabelToYearMonth(MONTHS[m - 1] + " " + Print(y)) == (y, m)
  {
    NameIsListed(m);
    LabelReadsBack(m, y);
  }

  // ---------------------------------------------------------------- the walk

  /** A calendar page; `prev` and `next` say whether the portal offers the links. */
  datatype Page = Page(month: int, year: int, heading: string, prev: bool, next: bool)

  /** Months counted from year 0. */
  function IndexOf(p: Page): int { 12 * p.year + p.month - 1 }

  function MonthOf(i: nat): nat { i % 12 + 1 }

  function YearOf(i: nat): nat { i / 12 }

  function HeadingOf(i: nat): string { MonthLabel(MonthOf(i), YearOf(i)) }

  /** The page of month i, with the portal's canonical heading. */
  ghost predicate IsPageOf(p: Page, i: nat) {
    p.month == MonthOf(i) && p.year == YearOf(i) && p.heading == HeadingOf(i)
  }

  /** Months of four-digit years. */
  predicate InRange(i: int) { 12000 <= i < 120000 }

  /** The portal shows one page per month. */
  ghost predicate Canonical(portal: int -> Page) {
    forall i {:trigger portal(i)} | InRange(i) :: IsPageOf(portal(i), i)
  }

  lemma {:induction false} MonthsInOrder(i: nat, j: nat)
    ensures i == 12 * YearOf(i) + MonthOf(i) - 1
    ensures i < j <==> YearOf(i) < YearOf(j) || (YearOf(i) == YearOf(j) && MonthOf(i) < MonthOf(j))
    ensures InRange(i) ==> 1000 <= YearOf(i) <= 9999
  {
  }

  datatype Direction = Prev | Next

  function TargetLabel(current: Page, direction: Direction): string
    requires current.year > 0
  {
    match direction
    case Prev =>
      if current.month - 1 < 1 then MonthLabel(12, current.year - 1) else MonthLabel(current.month - 1, current.year)
    case Next =>
      if current.month + 1 > 12 then MonthLabel(1, current.year + 1) else MonthLabel(current.month + 1, current.year)
  }

  function StepDirection(walker: Page, target: string): Option<Direction> {
    if Lower(walker.heading) == Lower(target) then None
    else
      var (y, m) := LabelToYearMonth(target);
      if walker.year < y || (walker.year == y && walker.month < m) then Some(Next) else Some(Prev)
  }

  /** The page one step on, None if the portal offers no such link. */
  function Navigate(portal: int -> Page, p: Page, step: Direction): Option<Page> {
    match step
    case Prev => if p.prev then Some(portal(IndexOf(p) - 1)) else None
    case Next => if p.next then Some(portal(IndexOf(p) + 1)) else None
  }

  /** The target is the month before or after the current page's. */
  lemma {:induction false} TargetIsNeighbour(current: Page, direction: Direction, i: nat)
    requires 12000 < i < 119999 && IsPageOf(current, i)
    ensures TargetLabel(current, direction) == HeadingOf(if direction.Prev? then i - 1 else i + 1)
  {
  }

  /** The page of month i is told to step towards month t, and to stop exactly at t. */
  ghost predicate Guided(portal: int -> Page, target: string, t: int, i: int) {
    && IndexOf(portal(i)) == i
    && StepDirection(portal(i), target) == (if i == t then None else if i < t then Some(Next) else Some(Prev))
  }

  ghost predicate PointsTo(portal: int -> Page, target: string, t: int) {
    forall i {:trigger Guided(portal, target, t, i)} | InRange(i) :: Guided(portal, target, t, i)
  }

  lemma {:induction false} HeadingPointsTo(portal: int -> Page, t: nat)
    requires Canonical(portal) && InRange(t)
    ensures PointsTo(portal, HeadingOf(t), t)
  {
    MonthsInOrder(t, t);
    LabelReadsBack(MonthOf(t), YearOf(t));
    forall i | InRange(i) ensures Guided(portal, HeadingOf(t), t, i) {
      assert IsPageOf(portal(i), i);
      HeadingsDiffer(i, t);
      MonthsInOrder(i, t);
      MonthsInOrder(t, i);
      StepsByOrder(portal(i), HeadingOf(t), YearOf(t), MonthOf(t));
    }
  }

  lemma {:induction false} NextPage(portal: int -> Page, target: string, t: int, i: int)
    requires Guided(portal, target, t, i) && i != t
    ensures StepDirection(portal(i), target).Some?
    ensures Navigate(portal, portal(i), StepDirection(portal(i), target).value) ==
            if Offers(portal, i, t) then Some(portal(if i < t then i + 1 else i - 1)) else None
  {
  }

  lemma {:induction false} StepsByOrder(walker: Page, target: string, y: nat, m: nat)
    requires LabelToYearMonth(target) == (y, m)
    requires Lower(walker.heading) == Lower(target) <==> walker.year == y && walker.month == m
    ensures StepDirection(walker, target) ==
            if walker.year == y && walker.month == m then None
            else if walker.year < y || (walker.year == y && walker.month < m) then Some(Next) else Some(Prev)
  {
  }

  lemma {:induction false} HeadingsDiffer(i: nat, j: nat)
    requires InRange(i) && InRange(j)
    ensures Lower(HeadingOf(i)) == Lower(HeadingOf(j)) <==> i == j
  {
    if i != j {
      MonthsInOrder(i, j);
      MonthsInOrder(j, i);
      LabelsDiffer(MonthOf(i), YearOf(i), MonthOf(j), YearOf(j));
    }
  }

  /** Lower-case labels of different months differ: they are read back as different months. */
  lemma {:induction false} LabelsDiffer(m: nat, y: nat, n: nat, z: nat)
    requires 1 <= m <= 12 && 1 <= n <= 12 && 1000 <= y <= 9999 && 1000 <= z <= 9999 && (m != n || y != z)
    ensures Lower(MonthLabel(m, y)) != Lower(MonthLabel(n, z))
  {
    var a, b := MonthLabel(m, y), MonthLabel(n, z);
    if Lower(a) == Lower(b) {
      PrintHasFourDigits(y);
      PrintHasFourDigits(z);
      assert |MonthName(m)| == |a| - 5 == |b| - 5 == |MonthName(n)|;
      PrintParses(y);
      PrintParses(z);
      LowerSplits(MonthName(m), Print(y));
      LowerSplits(MonthName(n), Print(z));
      if m != n { NamesDiffer(m, n); }
    }
  }

  lemma {:induction false} LowerSplits(name: string, digits: string)
    requires forall i | 0 <= i < |digits| :: IsDigit(digits[i])
    ensures var s := Lower(name + " " + digits); s[..|name|] == Lower(name) && s[|name| + 1..] == digits
  {
  }

  const MAX_STEPS := 24

  function Abs(x: int): nat { if x < 0 then -x else x }

  /** The month n steps from f towards t. */
  function Towards(f: int, t: int, n: nat): int { if f <= t then f + n else f - n }

  /** The page of month i offers the link towards t. */
  predicate Offers(portal: int -> Page, i: int, t: int) {
    if i < t then portal(i).next else portal(i).prev
  }

  /** How far the walk from month f towards month t got after n steps: every step brought it one month nearer, and it
      stopped at the target, after MAX_STEPS steps, or at a page without the link. */
  ghost predicate Walked(portal: int -> Page, f: int, t: int, n: nat) {
    && n <= Abs(t - f) && n <= MAX_STEPS
    && (forall k | 0 <= k < n :: Offers(portal, Towards(f, t, k), t))
    && (n == Abs(t - f) || n == MAX_STEPS || !Offers(portal, Towards(f, t, n), t))
  }

  /** One round of the loop: None at the target, and where the portal offers no link. */
  method StepOnce(portal: int -> Page, walker: Page, target: string, ghost t: int, ghost i: int)
    returns (next: Option<Page>)
    requires PointsTo(portal, target, t) && InRange(i) && walker == portal(i)
    ensures next == if i != t && Offers(portal, i, t) then Some(portal(if i < t then i + 1 else i - 1)) else None
  {
    assert Guided(portal, target, t, i);
    if i != t { NextPage(portal, target, t, i); }
    var step := StepDirection(walker, target);
    if step.None? { return None; }
    next := Navigate(portal, walker, step.value);
  }

  ghost predicate WalkedTo(portal: int -> Page, f: int, t: int, reached: Page) {
    exists n: nat :: reached == portal(Towards(f, t, n)) && Walked(portal, f, t, n)
  }

  method Walk(portal: int -> Page, home: Page, target: string, ghost f: int, ghost t: int) returns (reached: Page)
    requires InRange(f) && InRange(t) && home == portal(f) && PointsTo(portal, target, t)
    ensures WalkedTo(portal, f, t, reached)
  {
    reached := home;
    for n := 0 to MAX_STEPS
      invariant n <= Abs(t - f) && reached == portal(Towards(f, t, n))
      invariant forall k | 0 <= k < n :: Offers(portal, Towards(f, t, k), t)
    {
      ghost var i := Towards(f, t, n);
      assert InRange(i);
      var page := StepOnce(portal, reached, target, t, i);
      if page.None? {
        assert Walked(portal, f, t, n);
        return;
      }
      reached := page.value;
    }
    assert Walked(portal, f, t, MAX_STEPS);
  }

  /** Month t is within MAX_STEPS months of month f, and every page on the way offers the link. */
  predicate InReach(portal: int -> Page, f: int, t: int) {
    Abs(t - f) <= MAX_STEPS && forall k | 0 <= k < Abs(t - f) :: Offers(portal, Towards(f, t, k), t)
  }

  /** From the freshly fetched home page to the month next to the current page's: the walk reaches that month exactly
      if it is in reach. */
  method WalkToMonth(portal: int -> Page, current: Page, direction: Direction, home: Page, ghost c: nat, ghost f: nat)
    returns (reached: Page)
    requires Canonical(portal) && 12000 < c < 119999 && IsPageOf(current, c) && InRange(f) && home == portal(f)
    ensures var t := if direction.Prev? then c - 1 else c + 1;
            WalkedTo(portal, f, t, reached) && (IndexOf(reached) == t <==> InReach(portal, f, t))
  {
    ghost var t := if direction.Prev? then c - 1 else c + 1;
    TargetIsNeighbour(current, direction, c);
    HeadingPointsTo(portal, t);
    var target := TargetLabel(current, direction);
    assert IsPageOf(portal(f), f);
    HeadingsDiffer(f, t);
    if Lower(home.heading) == Lower(target) {
      assert portal(Towards(f, t, 0)) == home && Walked(portal, f, t, 0);
      reached := home;
    } else {
      reached := Walk(portal, home, target, f, t);
    }
    WalkReachesIff(portal, f, t, reached);
  }

  lemma {:induction false} WalkReachesIff(portal: int -> Page, f: int, t: int, reached: Page)
    requires Canonical(portal) && InRange(f) && InRange(t) && WalkedTo(portal, f, t, reached)
    ensures IndexOf(reached) == t <==> InReach(portal, f, t)
  {
  }
}
