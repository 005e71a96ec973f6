/** Which class is running and which comes next, as the earliest occurrence of the weekly cycle.

    Times are microseconds; a `TimeOfDay` counts from midnight, as the evaluation time `now` of day `today` does. */
module NowNext {
  import opened Words
  import opened Wrappers
  import StableSort

  const MINUTE := 60_000_000
  const DAY := 1440 * MINUTE

  type Weekday = d: nat | d < 7

  type TimeOfDay = t: nat | t < DAY

  datatype Slot = Slot(subject: string, room: string, start: TimeOfDay, end: TimeOfDay, period: int, weekday: Weekday,
                       isBreak: bool)

  /** The grace in minutes, and how many days ahead to look. */
  datatype Config = Config(grace: nat, lookahead: nat)

  datatype Answer = Answer(current: Option<Slot>, next: Option<Slot>, isLunch: bool, isBeforeFirst: bool,
                           isDayDone: bool,
                           isWeekend: bool, minutes: Option<int>, offset: nat)

  predicate LunchAt(subject: string, i: int) {
    0 <= i < |subject| - 4 &&
    UpperChar(subject[i]) == 'L' && UpperChar(subject[i + 1]) == 'U' && UpperChar(subject[i + 2]) == 'N' &&
    UpperChar(subject[i + 3]) == 'C' && UpperChar(subject[i + 4]) == 'H'
  }

  predicate SaysLunch(subject: string) { exists i :: 0 <= i < |subject| && LunchAt(subject, i) }

  predicate Pause(s: Slot) { s.isBreak || SaysLunch(s.subject) }

  /** The word stands at position i. */
  predicate Reads(s: string, i: int, word: string) { 0 <= i && i + |word| <= |s| && s[i..i + |word|] == word }

  /** A slot is a pause if it is marked as a break, or its subject says lunch in whatever case. */
  lemma {:induction false} PauseIs(s: Slot)
    ensures Pause(s) <==> s.isBreak || exists i :: Reads(Upper(s.subject), i, "LUNCH")
  {
    forall i ensures Reads(Upper(s.subject), i, "LUNCH") <==> LunchAt(s.subject, i) { LunchReads(s.subject, i); }
    if SaysLunch(s.subject) {
      var i :| LunchAt(s.subject, i);
      assert Reads(Upper(s.subject), i, "LUNCH");
    }
  }

  lemma {:induction false} LunchReads(subject: string, i: int)
    ensures Reads(Upper(subject), i, "LUNCH") <==> LunchAt(subject, i)
  {
    if 0 <= i <= |subject| - 5 {
      var five := Upper(subject)[i..i + 5];
      assert five == "LUNCH" <==>
          five[0] == 'L' && five[1] == 'U' && five[2] == 'N' && five[3] == 'C' && five[4] == 'H';
    }
  }

  // ---------------------------------------------------------------- the days

  /** Entry i goes before entry j of its day: by start, then as stored. */
  predicate Earlier(entries: seq<Slot>, i: nat, j: nat)
    requires i < |entries| && j < |entries|
  {
    entries[i].start < entries[j].start || (entries[i].start == entries[j].start && i < j)
  }

  /** `at` lists the entries of day d, each once. */
  ghost predicate Lists(entries: seq<Slot>, n: nat, d: nat, slots: seq<Slot>, at: seq<nat>)
    requires n <= |entries|
  {
    && |at| == |slots|
    && (forall k | 0 <= k < |at| :: at[k] < n && entries[at[k]].weekday == d && slots[k] == entries[at[k]])
    && (forall i: nat | i < n && entries[i].weekday == d :: i in at)
  }

  ghost predicate Ascends(at: seq<nat>) { forall k, l | 0 <= k < l < |at| :: at[k] < at[l] }

  /** A day's slots in order of their start. */
  ghost predicate IsDay(entries: seq<Slot>, d: nat, slots: seq<Slot>, at: seq<nat>) {
    Lists(entries, |entries|, d, slots, at) && forall k, l | 0 <= k < l < |at| :: Earlier(entries, at[k], at[l])
  }

  ghost predicate Grouped(entries: seq<Slot>, n: nat, days: seq<seq<Slot>>, at: seq<seq<nat>>) {
    && n <= |entries| && |days| == 7 == |at|
    && forall d | 0 <= d < 7 :: Lists(entries, n, d, days[d], at[d]) && Ascends(at[d])
  }

  ghost predicate AllDays(entries: seq<Slot>, n: nat, days: seq<seq<Slot>>, at: seq<seq<nat>>) {
    |days| == 7 == |at| && forall d | 0 <= d < n && d < 7 :: IsDay(entries, d, days[d], at[d])
  }

  method GroupByDay(entries: seq<Slot>) returns (byDay: array<seq<Slot>>, ghost at: seq<seq<nat>>)
    ensures fresh(byDay) && byDay.Length == 7 && Grouped(entries, |entries|, byDay[..], at)
  {
    byDay := new seq<Slot>[7](_ => []);
    at := seq(7, _ => []);
    for n := 0 to |entries|
      invariant Grouped(entries, n, byDay[..], at)
    {
      var w := entries[n].weekday;
      GroupedMore(entries, n, byDay[..], at);
      ghost var was := byDay[..];
      at := at[w := at[w] + [n]];
      byDay[w] := byDay[w] + [entries[n]];
      assert byDay[..] == was[w := was[w] + [entries[n]]];
    }
  }

  lemma {:induction false} GroupedMore(entries: seq<Slot>, n: nat, days: seq<seq<Slot>>, at: seq<seq<nat>>)
    requires n < |entries| && Grouped(entries, n, days, at)
    ensures var w := entries[n].weekday;
            Grouped(entries, n + 1, days[w := days[w] + [entries[n]]], at[w := at[w] + [n]])
  {
  }

  /** Sort every day's list in place. */
  method SortDays(byDay: array<seq<Slot>>, ghost entries: seq<Slot>, ghost grouped: seq<seq<nat>>)
    returns (ghost at: seq<seq<nat>>)
    requires byDay.Length == 7 && Grouped(entries, |entries|, byDay[..], grouped)
    modifies byDay
    ensures AllDays(entries, 7, byDay[..], at)
  {
    at := grouped;
    ghost var days := byDay[..];
    for d := 0 to 7
      invariant AllDays(entries, d, byDay[..], at) && byDay[d..] == days[d..]
    {
      assert byDay[d] == byDay[d..][0] == days[d];
      ghost var was := byDay[..];
      byDay[d] := StableSort.Sort(byDay[d], SortKey);
      ghost var sorted := SortedIsDay(entries, d, days[d], grouped[d], byDay[d]);
      at := at[d := sorted];
      assert byDay[..] == was[d := byDay[d]];
    }
  }

  function SortKey(s: Slot): StableSort.Key { StableSort.Key(0, s.start) }

  lemma {:induction false} SortedIsDay(entries: seq<Slot>, d: nat, unsorted: seq<Slot>, from: seq<nat>,
                                       slots: seq<Slot>)
    returns (at: seq<nat>)
    requires Lists(entries, |entries|, d, unsorted, from) && Ascends(from) &&
            StableSort.IsSort(unsorted, SortKey, slots)
    ensures IsDay(entries, d, slots, at)
  {
    var order :| StableSort.Orders(unsorted, SortKey, order) && StableSort.ComesFrom(unsorted, slots, order);
    at := seq(|order|, k requires 0 <= k < |order| => from[order[k]]);
    forall i: nat | i < |entries| && entries[i].weekday == d ensures i in at {
      assert i in from;
      StaysListed(from, order, at, i);
    }
    forall k, l | 0 <= k < l < |at| ensures Earlier(entries, at[k], at[l]) {
      assert StableSort.Before(unsorted, SortKey, order[k], order[l]);
    }
  }

  lemma {:induction false} StaysListed(from: seq<nat>, order: seq<nat>, at: seq<nat>, i: nat)
    requires |at| == |order| && (forall k | 0 <= k < |at| :: order[k] < |from| && at[k] == from[order[k]])
    requires (forall m: nat | m < |from| :: m in order) && i in from
    ensures i in at
  {
    var m :| 0 <= m < |from| && from[m] == i;
    assert m in order;
    var k :| 0 <= k < |order| && order[k] == m;
    assert at[k] == i;
  }

  // ---------------------------------------------------------------- the running slot

  /** The graced end is a time of day: it wraps at midnight. */
  function GracedEnd(c: Config, s: Slot): TimeOfDay { (s.end + c.grace * MINUTE) % DAY }

  predicate Running(c: Config, now: TimeOfDay, s: Slot) { s.start <= now <= GracedEnd(c, s) }

  ghost predicate RunsToday(c: Config, entries: seq<Slot>, today: Weekday, now: TimeOfDay, i: nat) {
    i < |entries| && entries[i].weekday == today && Running(c, now, entries[i])
  }

  /** The first entry of today that is running, if there is one. */
  ghost predicate IsRunning(c: Config, entries: seq<Slot>, today: Weekday, now: TimeOfDay, running: Option<nat>) {
    match running
    case None => forall i :: !RunsToday(c, entries, today, now, i)
    case Some(i) =>
      RunsToday(c, entries, today, now, i) &&
      forall j | RunsToday(c, entries, today, now, j) && j != i :: Earlier(entries, i, j)
  }

  /** The running class, or the mark of a running pause. */
  ghost predicate IsCurrent(c: Config, entries: seq<Slot>, today: Weekday, now: TimeOfDay, current: Option<Slot>,
                            isLunch: bool)
  {
    exists running ::
      && IsRunning(c, entries, today, now, running)
      && isLunch == (running.Some? && Pause(entries[running.value]))
      && current == if running.Some? && !isLunch then Some(entries[running.value]) else None
  }

  method FindCurrent(c: Config, now: TimeOfDay, todays: seq<Slot>, ghost entries: seq<Slot>, ghost today: Weekday,
                     ghost at: seq<nat>)
    returns (current: Option<Slot>, isLunch: bool)
    requires IsDay(entries, today, todays, at)
    ensures IsCurrent(c, entries, today, now, current, isLunch)
  {
    current, isLunch := None, false;
    for k := 0 to |todays|
      invariant current.None? && !isLunch
      invariant forall m | 0 <= m < k :: !Running(c, now, todays[m])
    {
      if todays[k].start <= now <= GracedEnd(c, todays[k]) {
        if Pause(todays[k]) {
          isLunch := true;
        } else {
          current := Some(todays[k]);
        }
        FirstIsRunning(c, now, todays, entries, today, at, k);
        return;
      }
    }
    NoneIsRunning(c, now, todays, entries, today, at);
  }

  lemma {:induction false} FirstIsRunning(c: Config, now: TimeOfDay, todays: seq<Slot>, entries: seq<Slot>,
                                          today: Weekday, at: seq<nat>, k: nat)
    requires IsDay(entries, today, todays, at) && k < |todays| && Running(c, now, todays[k])
    requires forall m | 0 <= m < k :: !Running(c, now, todays[m])
    ensures at[k] < |entries| && entries[at[k]] == todays[k] && IsRunning(c, entries, today, now, Some(at[k]))
  {
    forall j | RunsToday(c, entries, today, now, j) && j != at[k] ensures Earlier(entries, at[k], j) {
      assert j in at;
      var l :| 0 <= l < |at| && at[l] == j;
      assert Running(c, now, todays[l]);
    }
  }

  lemma {:induction false} NoneIsRunning(c: Config, now: TimeOfDay, todays: seq<Slot>, entries: seq<Slot>,
                                         today: Weekday, at: seq<nat>)
    requires IsDay(entries, today, todays, at) && forall m | 0 <= m < |todays| :: !Running(c, now, todays[m])
    ensures IsRunning(c, entries, today, now, None)
  {
    forall i: nat | i < |entries| && entries[i].weekday == today ensures !Running(c, now, entries[i]) {
      assert i in at;
      var l :| 0 <= l < |at| && at[l] == i;
      assert todays[l] == entries[i];
    }
  }

  /** With a grace shorter than a day, a slot is found throughout its time exactly if its graced end does not pass
      midnight. */
  lemma {:induction false} GraceMustNotWrap(c: Config, s: Slot)
    requires s.start <= s.end && c.grace * MINUTE < DAY
    ensures (forall now: TimeOfDay | s.start <= now <= s.end :: Running(c, now, s)) <==> s.end + c.grace * MINUTE < DAY
  {
    if DAY <= s.end + c.grace * MINUTE {
      assert GracedEnd(c, s) == s.end + c.grace * MINUTE - DAY;
      assert !Running(c, s.end, s);
    }
  }

  // ---------------------------------------------------------------- the next class

  /** An occurrence of entry i in `offset` days: not a pause, and today only if it has not started. */
  ghost predicate Occurs(c: Config, entries: seq<Slot>, today: Weekday, now: TimeOfDay, offset: nat, i: nat) {
    && i < |entries| && offset < c.lookahead && entries[i].weekday == (today + offset) % 7
    && !Pause(entries[i]) && (offset == 0 ==> entries[i].start > now)
  }

  predicate Sooner(entries: seq<Slot>, o: nat, i: nat, p: nat, j: nat)
    requires i < |entries| && j < |entries|
  {
    o < p || (o == p && Earlier(entries, i, j))
  }

  datatype Occurrence = Occurrence(offset: nat, i: nat)

  /** The least occurrence by (day offset, start, stored order), if there is one. */
  ghost predicate IsUpcoming(c: Config, entries: seq<Slot>, today: Weekday, now: TimeOfDay,
                             upcoming: Option<Occurrence>)
  {
    match upcoming
    case None => forall o, i :: !Occurs(c, entries, today, now, o, i)
    case Some(occ) =>
      Occurs(c, entries, today, now, occ.offset, occ.i) &&
      forall o, i | Occurs(c, entries, today, now, o, i) && (o != occ.offset || i != occ.i) ::
        Sooner(entries, occ.offset, occ.i, o, i)
  }

  /** From now to the start of a slot, `offset` days ahead. */
  function Until(s: Slot, offset: nat, now: TimeOfDay): int { offset * DAY + s.start - now }

  function Max0(x: int): int { if x < 0 then 0 else x }

  ghost predicate NoneBefore(c: Config, entries: seq<Slot>, today: Weekday, now: TimeOfDay, offset: nat) {
    forall o, i | Occurs(c, entries, today, now, o, i) :: offset <= o
  }

  /** The next class, its day offset, and the minutes until it starts. */
  ghost predicate IsNext(c: Config, entries: seq<Slot>, today: Weekday, now: TimeOfDay, next: Option<Slot>,
                         offset: nat, minutes: Option<int>)
  {
    exists upcoming ::
      && IsUpcoming(c, entries, today, now, upcoming)
      && match upcoming
         case None => next.None? && offset == 0 && minutes.None?
         case Some(occ) =>
           && offset == occ.offset && next == Some(entries[occ.i])
           && minutes == Some(Max0(Until(next.value, offset, now) / MINUTE))
  }

  /** The running slot and the next class are determined by the entries and the time. */
  lemma {:induction false} AnswerIsUnique(c: Config, entries: seq<Slot>, today: Weekday, now: TimeOfDay)
    ensures forall r, s | IsRunning(c, entries, today, now, r) && IsRunning(c, entries, today, now, s) :: r == s
    ensures forall p, q | IsUpcoming(c, entries, today, now, p) && IsUpcoming(c, entries, today, now, q) :: p == q
  {
  }

  /** The first slot of the day that may be next. */
  method FirstOfDay(now: TimeOfDay, offset: nat, slots: seq<Slot>) returns (found: Option<nat>)
    ensures match found
            case None => forall k | 0 <= k < |slots| :: Pause(slots[k]) || (offset == 0 && slots[k].start <= now)
            case Some(n) =>
              n < |slots| && !Pause(slots[n]) && (offset == 0 ==> slots[n].start > now) &&
              forall k | 0 <= k < n :: Pause(slots[k]) || (offset == 0 && slots[k].start <= now)
  {
    for k := 0 to |slots|
      invariant forall m | 0 <= m < k :: Pause(slots[m]) || (offset == 0 && slots[m].start <= now)
    {
      if !Pause(slots[k]) && (offset != 0 || slots[k].start > now) {
        return Some(k);
      }
    }
    found := None;
  }

  method FindNext(c: Config, today: Weekday, now: TimeOfDay, byDay: array<seq<Slot>>, ghost entries: seq<Slot>,
                  ghost at: seq<seq<nat>>)
    returns (next: Option<Slot>, offset: nat, minutes: Option<int>)
    requires byDay.Length == 7 && AllDays(entries, 7, byDay[..], at)
    ensures IsNext(c, entries, today, now, next, offset, minutes)
  {
    next, offset, minutes := None, 0, None;
    for o := 0 to c.lookahead
      invariant next.None? && offset == 0 && minutes.None?
      invariant NoneBefore(c, entries, today, now, o)
    {
      var d := (today + o) % 7;
      assert IsDay(entries, d, byDay[..][d], at[d]);
      var found := FirstOfDay(now, o, byDay[d]);
      if found.Some? {
        next, offset := Some(byDay[d][found.value]), o;
        minutes := Some(Max0(Until(next.value, o, now) / MINUTE));
        FirstIsUpcoming(c, entries, today, now, o, byDay[d], at[d], found.value);
        return;
      }
      forall i: nat | i < |entries| && entries[i].weekday == d ensures !Occurs(c, entries, today, now, o, i) {
        assert i in at[d];
        var k :| 0 <= k < |at[d]| && at[d][k] == i;
        assert byDay[d][k] == entries[i];
      }
    }
    assert IsUpcoming(c, entries, today, now, None);
  }

  lemma {:induction false} FirstIsUpcoming(c: Config, entries: seq<Slot>, today: Weekday, now: TimeOfDay, o: nat,
                                           slots: seq<Slot>, at: seq<nat>, n: nat)
    requires IsDay(entries, (today + o) % 7, slots, at) && NoneBefore(c, entries, today, now, o) && o < c.lookahead
    requires n < |slots| && !Pause(slots[n]) && (o == 0 ==> slots[n].start > now)
    requires forall k | 0 <= k < n :: Pause(slots[k]) || (o == 0 && slots[k].start <= now)
    ensures IsUpcoming(c, entries, today, now, Some(Occurrence(o, at[n])))
  {
  }

  /** The reported minutes are the exact floor of the time until the next class, never cut off at zero, and no
      occurrence within the lookahead is nearer. */
  lemma {:induction false} NothingIsNearer(c: Config, entries: seq<Slot>, today: Weekday, now: TimeOfDay,
                                           next: Option<Slot>, offset: nat, minutes: Option<int>, o: nat, i: nat)
    requires IsNext(c, entries, today, now, next, offset, minutes) && Occurs(c, entries, today, now, o, i)
    ensures next.Some? && 0 < Until(next.value, offset, now) <= Until(entries[i], o, now)
    ensures minutes == Some(Until(next.value, offset, now) / MINUTE)
    ensures minutes.value <= Until(entries[i], o, now) / MINUTE
  {
  }

  /** In microseconds: the next class starts strictly later than now, the minutes are the whole minutes until then, and
      every occurrence within the lookahead starts at that time or later. */
  lemma {:induction false} MinutesAre(c: Config, entries: seq<Slot>, today: Weekday, now: TimeOfDay,
                                      next: Option<Slot>, offset: nat, minutes: Option<int>, o: nat, i: nat)
    requires IsNext(c, entries, today, now, next, offset, minutes) && Occurs(c, entries, today, now, o, i)
    ensures next.Some? && minutes.Some?
    ensures var away := offset * 86_400_000_000 + next.value.start - now;
            && 0 < away <= o * 86_400_000_000 + entries[i].start - now
            && minutes.value * 60_000_000 <= away < (minutes.value + 1) * 60_000_000
  {
    NothingIsNearer(c, entries, today, now, next, offset, minutes, o, i);
  }

  /** Days from today to the weekday of a slot. */
  function DaysTo(today: Weekday, s: Slot): nat { (s.weekday - today) % 7 }

  /** There is no next class exactly when every slot that is not a pause is out of reach: too many days ahead, or
      today, already started, and not looked at again a week later. With a lookahead of 7 that is: every class is
      today and has started. */
  lemma {:induction false} NoNextIff(c: Config, entries: seq<Slot>, today: Weekday, now: TimeOfDay, next: Option<Slot>,
                                     offset: nat, minutes: Option<int>)
    requires IsNext(c, entries, today, now, next, offset, minutes)
    ensures next.None? <==>
              forall i: nat | i < |entries| && !Pause(entries[i]) ::
                c.lookahead <= DaysTo(today, entries[i]) ||
                (DaysTo(today, entries[i]) == 0 && entries[i].start <= now && c.lookahead <= 7)
    ensures c.lookahead == 7 ==>
              (next.None? <==> forall i: nat | i < |entries| && !Pause(entries[i]) ::
                                 entries[i].weekday == today && entries[i].start <= now)
  {
    forall i: nat | i < |entries| && !Pause(entries[i])
      ensures (exists o: nat :: Occurs(c, entries, today, now, o, i)) <==>
              !(c.lookahead <= DaysTo(today, entries[i]) ||
                (DaysTo(today, entries[i]) == 0 && entries[i].start <= now && c.lookahead <= 7))
      ensures DaysTo(today, entries[i]) < 7 && (DaysTo(today, entries[i]) == 0 <==> entries[i].weekday == today)
    {
      OccursWithin(c, entries, today, now, i);
    }
  }

  lemma {:induction false} OccursWithin(c: Config, entries: seq<Slot>, today: Weekday, now: TimeOfDay, i: nat)
    requires i < |entries| && !Pause(entries[i])
    ensures (exists o: nat :: Occurs(c, entries, today, now, o, i)) <==>
            !(c.lookahead <= DaysTo(today, entries[i]) ||
              (DaysTo(today, entries[i]) == 0 && entries[i].start <= now && c.lookahead <= 7))
  {
    var d := DaysTo(today, entries[i]);
    SameWeekday(today, entries[i].weekday, d);
    SameWeekday(today, entries[i].weekday, 7);
    if d < c.lookahead && (d > 0 || entries[i].start > now) {
      assert Occurs(c, entries, today, now, d, i);
    } else if d < c.lookahead && c.lookahead > 7 {
      assert Occurs(c, entries, today, now, 7, i);
    }
    forall o: nat | Occurs(c, entries, today, now, o, i) ensures d <= o && (d == 0 && o > 0 ==> o >= 7) {
      SameWeekday(today, entries[i].weekday, o);
    }
  }

  /** The weekday w is met `o` days from today exactly if o is as many days ahead, up to whole weeks. */
  lemma {:induction false} SameWeekday(today: Weekday, w: Weekday, o: nat)
    ensures w == (today + o) % 7 <==> o % 7 == (w - today) % 7
  {
  }

  // ---------------------------------------------------------------- the whole resolution

  predicate TodayHasClasses(entries: seq<Slot>, today: Weekday) {
    exists i :: 0 <= i < |entries| && entries[i].weekday == today && !entries[i].isBreak
  }

  /** Every slot of today that is not marked as a break is still ahead. */
  predicate AllAhead(entries: seq<Slot>, today: Weekday, now: TimeOfDay) {
    forall i: nat | i < |entries| && entries[i].weekday == today && !entries[i].isBreak :: now < entries[i].start
  }

  /** The first slot of the day that is not marked as a break, if there is one. */
  method FirstMarked(todays: seq<Slot>, ghost entries: seq<Slot>, ghost today: Weekday, ghost at: seq<nat>)
    returns (first: Option<Slot>)
    requires IsDay(entries, today, todays, at)
    ensures first.Some? <==> TodayHasClasses(entries, today)
    ensures first.Some? ==> forall now: TimeOfDay :: now < first.value.start <==> AllAhead(entries, today, now)
  {
    for k := 0 to |todays|
      invariant forall m | 0 <= m < k :: todays[m].isBreak
    {
      if !todays[k].isBreak {
        first := Some(todays[k]);
        assert entries[at[k]] == todays[k];
        forall i: nat | i < |entries| && entries[i].weekday == today && !entries[i].isBreak
          ensures todays[k].start <= entries[i].start
        {
          assert i in at;
          var l :| 0 <= l < |at| && at[l] == i;
          assert todays[l] == entries[i];
          assert l != k ==> Earlier(entries, at[k], at[l]);
        }
        return;
      }
    }
    first := None;
    forall i: nat | i < |entries| && entries[i].weekday == today ensures entries[i].isBreak {
      assert i in at;
      var l :| 0 <= l < |at| && at[l] == i;
      assert todays[l] == entries[i];
    }
  }

  method ResolveNowAndNext(c: Config, entries: seq<Slot>, today: Weekday, now: TimeOfDay) returns (r: Answer)
    ensures IsCurrent(c, entries, today, now, r.current, r.isLunch)
    ensures IsNext(c, entries, today, now, r.next, r.offset, r.minutes)
    ensures r.isBeforeFirst <==>
            TodayHasClasses(entries, today) && r.next.Some? && r.offset == 0 && AllAhead(entries, today, now)
    ensures r.isDayDone <==> TodayHasClasses(entries, today) && r.offset > 0
    ensures r.isWeekend <==> today in {5, 6}
  {
    var isWeekend := today == 5 || today == 6;
    if entries == [] {
      assert IsRunning(c, entries, today, now, None) && IsUpcoming(c, entries, today, now, None);
      return Answer(None, None, false, false, false, isWeekend, None, 0);
    }
    var byDay;
    ghost var at;
    byDay, at := GroupByDay(entries);
    at := SortDays(byDay, entries, at);
    assert IsDay(entries, today, byDay[..][today], at[today]);
    var current, isLunch := FindCurrent(c, now, byDay[today], entries, today, at[today]);
    var next, offset, minutes := FindNext(c, today, now, byDay, entries, at);
    var first := FirstMarked(byDay[today], entries, today, at[today]);
    var isBeforeFirst, isDayDone := false, false;
    if first.Some? && next.Some? && offset == 0 {
      isBeforeFirst := now < first.value.start;
    } else if first.Some? && offset > 0 {
      isDayDone := true;
    }
    r := Answer(current, next, isLunch, isBeforeFirst, isDayDone, isWeekend, minutes, offset);
  }
}
