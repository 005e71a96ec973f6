/** What holds over every run of the gateway and its tasks. */
module GatewayRuns {
  import opened Gateway

  /** A run: each state is the previous one after an enabled label. */
  ghost predicate Run(c: Config, states: seq<Sys>, labels: seq<Label>) {
    && |states| == |labels| + 1
    && states[0] == Start(c)
    && forall i | 0 <= i < |labels| :: Stepped(c, states[i], labels[i], states[i + 1])
  }

  ghost predicate Stepped(c: Config, s: Sys, l: Label, s': Sys) {
    Enabled(s, l) && s' == Apply(c, s, l)
  }

  // ---------------------------------------------------------------- slot accounting

  predicate HoldsSlot(task: Task) { task.phase.Holding? || task.phase.Finishing? }

  function Holders(tasks: map<nat, Task>): set<nat> {
    set t | t in tasks && HoldsSlot(tasks[t])
  }

  lemma {:induction false} HoldersAfterUpdate(tasks: map<nat, Task>, t: nat, task: Task)
    ensures Holders(tasks[t := task]) == if HoldsSlot(task) then Holders(tasks) + {t} else Holders(tasks) - {t}
  {
  }

  lemma {:induction false} HoldersAfterRemoval(tasks: map<nat, Task>, t: nat)
    ensures Holders(tasks - {t}) == Holders(tasks) - {t}
  {
  }

  lemma {:induction false} HoldersAfterNotify(tasks: map<nat, Task>)
    ensures Holders(NotifyAll(tasks)) == Holders(tasks)
  {
  }

  /** The books: the counter is the number of holders, up to the three kinds of miscount. */
  ghost predicate Booked(c: Config, s: Sys) {
    && s.gate.active == |Holders(s.tasks)| + s.stranded - s.leaks + s.skips
    && s.skips <= s.leaks
    && s.gate.active <= c.configured
    && MinInt(2, c.configured) <= s.gate.cap <= c.configured
    && c.minInterval <= s.gate.interval
  }

  lemma {:induction false} GateStaysInBounds(c: Config, g: Gate, now: real)
    requires c.Valid() && MinInt(2, c.configured) <= g.cap <= c.configured && c.minInterval <= g.interval
    ensures MinInt(2, c.configured) <= Succeeded(c, g).cap <= c.configured
    ensures MinInt(2, c.configured) <= Faulted(c, g, now).cap <= c.configured
    ensures c.minInterval <= Succeeded(c, g).interval && c.minInterval <= Faulted(c, g, now).interval
    ensures Succeeded(c, g).active == g.active == Faulted(c, g, now).active
  {
  }

  lemma {:induction false} EnterIsBooked(c: Config, s: Sys, t: nat, task: Task)
    requires c.Valid() && Booked(c, s)
    requires t in s.tasks ==> !HoldsSlot(s.tasks[t])
    requires !HoldsSlot(task)
    ensures Booked(c, Enter(c, s, t, task))
  {
    var s' := Enter(c, s, t, task);
    HoldersAfterRemoval(s.tasks, t);
    if t in s'.tasks {
      HoldersAfterUpdate(s.tasks, t, s'.tasks[t]);
    }
  }

  lemma {:induction false} GiveBackIsBooked(c: Config, s: Sys, t: nat)
    requires c.Valid() && Booked(c, s) && Enabled(s, GiveBack(t))
    ensures Booked(c, Apply(c, s, GiveBack(t)))
  {
    var task := s.tasks[t].(phase := Pacing);
    HoldersAfterUpdate(s.tasks, t, task);
    HoldersAfterNotify(s.tasks[t := task]);
    assert t in Holders(s.tasks);
  }

  lemma {:induction false} FinishIsBooked(c: Config, s: Sys, t: nat, gate: Gate)
    requires c.Valid() && Booked(c, s) && t in s.tasks && s.tasks[t].phase.Holding?
    requires MinInt(2, c.configured) <= gate.cap <= c.configured && c.minInterval <= gate.interval
    requires gate.active == s.gate.active
    ensures Booked(c, Finish(s, t, gate))
  {
    HoldersAfterUpdate(s.tasks, t, s.tasks[t].(phase := Finishing));
    assert t in Holders(s.tasks);
    assert Holders(s.tasks) + {t} == Holders(s.tasks);
  }

  lemma {:induction false} LeavingIsBooked(c: Config, s: Sys, l: Label)
    requires c.Valid() && Booked(c, s) && Enabled(s, l) && (l.Exit? || l.CancelExit? || l.CancelAsleep?)
    ensures Booked(c, Apply(c, s, l))
  {
    HoldersAfterRemoval(s.tasks, l.t);
    HoldersAfterNotify(s.tasks - {l.t});
  }

  lemma {:induction false} RegainingIsBooked(c: Config, s: Sys, l: Label)
    requires c.Valid() && Booked(c, s) && Enabled(s, l) && (l.Regain? || l.CancelRegain?)
    ensures Booked(c, Apply(c, s, l))
  {
    HoldersAfterUpdate(s.tasks, l.t, Apply(c, s, l).tasks[l.t]);
  }

  lemma {:induction false} StepIsBooked(c: Config, s: Sys, l: Label)
    requires c.Valid() && Booked(c, s) && Enabled(s, l)
    ensures Booked(c, Apply(c, s, l))
  {
    GateStaysInBounds(c, s.gate, s.now);
    match l
    case Tick(_) =>
    case Arrive(t, interactive) => EnterIsBooked(c, s, t, Task(Asleep(false), interactive, false, s.episode));
    case Wake(t) => EnterIsBooked(c, s, t, s.tasks[t]);
    case GiveBack(t) => GiveBackIsBooked(c, s, t);
    case Regain(_) => RegainingIsBooked(c, s, l);
    case CancelRegain(_) => RegainingIsBooked(c, s, l);
    case Succeed(t) => FinishIsBooked(c, s, t, Succeeded(c, s.gate));
    case UserFault(t) => FinishIsBooked(c, s, t, PortalResponded(s.gate));
    case PortalFault(t) => FinishIsBooked(c, s, t, Faulted(c, s.gate, s.now));
    case OtherExit(t) => FinishIsBooked(c, s, t, s.gate);
    case CancelAsleep(_) => LeavingIsBooked(c, s, l);
    case Exit(_) => LeavingIsBooked(c, s, l);
    case CancelExit(_) => LeavingIsBooked(c, s, l);
  }

  /** On every run, with any cancellations, the books balance and every bound holds. */
  lemma {:induction false} BooksBalance(c: Config, states: seq<Sys>, labels: seq<Label>, i: nat)
    requires c.Valid() && Run(c, states, labels) && i < |states|
    ensures Booked(c, states[i])
    decreases i
  {
    if i == 0 {
      assert Holders(map[]) == {};
    } else {
      BooksBalance(c, states, labels, i - 1);
      assert Stepped(c, states[i - 1], labels[i - 1], states[i]);
      StepIsBooked(c, states[i - 1], labels[i - 1]);
    }
  }

  /** A cancellation inside `_reacquire_slot`, or inside the `finally` section. */
  predicate DoubleCancel(l: Label) { l.CancelRegain? || l.CancelExit? }

  lemma {:induction false} CalmRunCountsNothing(c: Config, states: seq<Sys>, labels: seq<Label>, i: nat)
    requires c.Valid() && Run(c, states, labels) && i < |states|
    requires forall j | 0 <= j < i :: !DoubleCancel(labels[j])
    ensures states[i].stranded == states[i].leaks == states[i].skips == 0
    ensures forall t | t in states[i].tasks :: !states[i].tasks[t].phase.Orphaned?
    decreases i
  {
    if i > 0 {
      CalmRunCountsNothing(c, states, labels, i - 1);
      BooksBalance(c, states, labels, i - 1);
      assert Stepped(c, states[i - 1], labels[i - 1], states[i]);
      StepIsBooked(c, states[i - 1], labels[i - 1]);
    }
  }

  /** Slot conservation: without a double cancellation the counter is exactly the number of tasks holding
      a slot, within the configured cap, and the guard in `_release_slot` never fails. */
  lemma {:induction false} SlotsConserved(c: Config, states: seq<Sys>, labels: seq<Label>, i: nat)
    requires c.Valid() && Run(c, states, labels) && i < |states|
    requires forall j | 0 <= j < i :: !DoubleCancel(labels[j])
    ensures states[i].gate.active == |Holders(states[i].tasks)|
    ensures 0 <= states[i].gate.active <= c.configured
    ensures MinInt(2, c.configured) <= states[i].gate.cap <= c.configured
    ensures i < |labels| && labels[i].GiveBack? ==> states[i].gate.active > 0
  {
    BooksBalance(c, states, labels, i);
    CalmRunCountsNothing(c, states, labels, i);
    if i < |labels| && labels[i].GiveBack? {
      assert Stepped(c, states[i], labels[i], states[i + 1]);
      assert labels[i].t in Holders(states[i].tasks);
    }
  }

  /** The three kinds of miscounting steps: a `finally` section cancelled before its decrement, the `finally` section
      of a task whose slot was already given back, and a give-back that the guard skips. */
  datatype Miscount = Strands | ReturnsTwice | Skips

  predicate Miscounts(s: Sys, l: Label, kind: Miscount) {
    match kind
    case Strands => l.CancelExit? && l.t in s.tasks && s.tasks[l.t].phase.Finishing?
    case ReturnsTwice => l.Exit? && l.t in s.tasks && s.tasks[l.t].phase.Orphaned?
    case Skips => l.GiveBack? && s.gate.active <= 0
  }

  /** How many of the first i steps of a run are of the kind. */
  ghost function Steps(states: seq<Sys>, labels: seq<Label>, i: nat, kind: Miscount): nat
    requires i <= |labels| && i <= |states|
  {
    if i == 0 then 0
    else Steps(states, labels, i - 1, kind) + if Miscounts(states[i - 1], labels[i - 1], kind) then 1 else 0
  }

  lemma {:induction false} MiscountStep(c: Config, s: Sys, l: Label)
    requires Enabled(s, l)
    ensures var s' := Apply(c, s, l);
            && s'.stranded == s.stranded + (if Miscounts(s, l, Strands) then 1 else 0)
            && s'.leaks == s.leaks + (if Miscounts(s, l, ReturnsTwice) then 1 else 0)
            && s'.skips == s.skips + (if Miscounts(s, l, Skips) then 1 else 0)
  {
  }

  lemma {:induction false} StepsAreCounted(c: Config, states: seq<Sys>, labels: seq<Label>, i: nat)
    requires Run(c, states, labels) && i < |states|
    ensures states[i].stranded == Steps(states, labels, i, Strands)
    ensures states[i].leaks == Steps(states, labels, i, ReturnsTwice)
    ensures states[i].skips == Steps(states, labels, i, Skips)
    decreases i
  {
    if i > 0 {
      StepsAreCounted(c, states, labels, i - 1);
      assert Stepped(c, states[i - 1], labels[i - 1], states[i]);
      MiscountStep(c, states[i - 1], labels[i - 1]);
    }
  }

  /** With any cancellations at all: the counter is off by the strandings and skipped give-backs so far, less the double
      returns; so it is the number of holders exactly when those steps balance. */
  lemma {:induction false} SlotsConservedIff(c: Config, states: seq<Sys>, labels: seq<Label>, i: nat)
    requires c.Valid() && Run(c, states, labels) && i < |states|
    ensures states[i].gate.active ==
            |Holders(states[i].tasks)| + Steps(states, labels, i, Strands) + Steps(states, labels, i, Skips)
            - Steps(states, labels, i, ReturnsTwice)
    ensures states[i].gate.active == |Holders(states[i].tasks)| <==>
            Steps(states, labels, i, Strands) + Steps(states, labels, i, Skips) ==
                Steps(states, labels, i, ReturnsTwice)
  {
    BooksBalance(c, states, labels, i);
    StepsAreCounted(c, states, labels, i);
  }

  /** A run of four labels in which one cancelled re-acquisition leaves the counter at minus one. */
  lemma {:induction false} OrphanDrivesCounterNegative(c: Config) returns (states: seq<Sys>, labels: seq<Label>)
    requires c.Valid()
    ensures Run(c, states, labels) && |labels| == 4
    ensures states[4].tasks == map[] && states[4].gate.active == -1
  {
    labels := [Arrive(0, true), GiveBack(0), CancelRegain(0), Exit(0)];
    var s1 := Apply(c, Start(c), labels[0]);
    var s2 := Apply(c, s1, labels[1]);
    var s3 := Apply(c, s2, labels[2]);
    var s4 := Apply(c, s3, labels[3]);
    states := [Start(c), s1, s2, s3, s4];
    assert s4.tasks == map[];
  }

  // ---------------------------------------------------------------- no lost wake-up

  /** Task t sleeps un-notified although its limit has room. */
  predicate Overlooked(c: Config, s: Sys, t: nat) {
    t in s.tasks &&
    match s.tasks[t].phase
    case Asleep(notified) => !notified && s.gate.active < Limit(c, s.gate, s.tasks[t].interactive)
    case Regaining(notified) => !notified && s.gate.active < s.gate.cap
    case _ => false
  }

  /** An overlooked sleeper is excused only by a task about to run the notifying `finally`. */
  ghost predicate NoLostWakeUp(c: Config, s: Sys) {
    (exists t :: Overlooked(c, s, t)) ==> exists u :: u in s.tasks && s.tasks[u].phase.Finishing?
  }

  lemma {:induction false} NotifyingOverlooksNone(c: Config, s: Sys, l: Label)
    requires Enabled(s, l) && (l.Exit? || l.GiveBack?)
    ensures forall t :: !Overlooked(c, Apply(c, s, l), t)
  {
  }

  /** The step cancels the only `finally` section that was going to notify an overlooked sleeper. */
  ghost predicate LosesWakeUp(c: Config, s: Sys, l: Label) {
    l.CancelExit? && (exists t :: Overlooked(c, s, t)) &&
    forall u | u in s.tasks && s.tasks[u].phase.Finishing? :: u == l.t
  }

  /** Exactly those steps lose a wake-up. */
  lemma {:induction false} WakeUpStep(c: Config, s: Sys, l: Label)
    requires NoLostWakeUp(c, s) && Enabled(s, l)
    ensures NoLostWakeUp(c, Apply(c, s, l)) <==> !LosesWakeUp(c, s, l)
  {
    if l.CancelExit? {
      CancelledWakeUp(c, s, l);
    } else if l.Exit? || l.GiveBack? {
      NotifyingOverlooksNone(c, s, l);
    } else if l.Succeed? || l.UserFault? || l.PortalFault? || l.OtherExit? {
      assert Apply(c, s, l).tasks[l.t].phase.Finishing?;
    } else {
      QuietStepLosesNoWakeUp(c, s, l);
    }
  }

  lemma {:induction false} CancelledWakeUp(c: Config, s: Sys, l: Label)
    requires NoLostWakeUp(c, s) && Enabled(s, l) && l.CancelExit?
    ensures NoLostWakeUp(c, Apply(c, s, l)) <==> !LosesWakeUp(c, s, l)
  {
    var s' := Apply(c, s, l);
    assert forall t :: Overlooked(c, s, t) <==> Overlooked(c, s', t);
    if u :| u in s.tasks && s.tasks[u].phase.Finishing? && u != l.t {
      assert u in s'.tasks && s'.tasks[u].phase.Finishing?;
    }
  }

  lemma {:induction false} QuietStepLosesNoWakeUp(c: Config, s: Sys, l: Label)
    requires NoLostWakeUp(c, s) && Enabled(s, l)
    requires Quiet(l)
    ensures NoLostWakeUp(c, Apply(c, s, l))
  {
    if t :| Overlooked(c, Apply(c, s, l), t) {
      WasOverlooked(c, s, l, t);
      var u :| u in s.tasks && s.tasks[u].phase.Finishing?;
      StillFinishing(c, s, l, u);
    }
  }

  predicate Quiet(l: Label) { l.Tick? || l.Arrive? || l.Wake? || l.CancelAsleep? || l.Regain? || l.CancelRegain? }

  lemma {:induction false} WasOverlooked(c: Config, s: Sys, l: Label, t: nat)
    requires Enabled(s, l) && Quiet(l) && Overlooked(c, Apply(c, s, l), t)
    ensures Overlooked(c, s, t)
  {
    match l
    case Tick(_) => {}
    case Arrive(_, _) => {}
    case Wake(_) => {}
    case CancelAsleep(_) => {}
    case Regain(_) => {}
    case CancelRegain(_) => {}
  }

  lemma {:induction false} StillFinishing(c: Config, s: Sys, l: Label, u: nat)
    requires Enabled(s, l) && Quiet(l) && u in s.tasks && s.tasks[u].phase.Finishing?
    ensures u in Apply(c, s, l).tasks && Apply(c, s, l).tasks[u].phase.Finishing?
  {
  }

  /** No wake-up is lost on any run in which no cancellation hits the one `finally` section that an overlooked sleeper
      depends on. */
  lemma {:induction false} NoWakeUpLost(c: Config, states: seq<Sys>, labels: seq<Label>, i: nat)
    requires Run(c, states, labels) && i < |states|
    requires forall j | 0 <= j < i :: !LosesWakeUp(c, states[j], labels[j])
    ensures NoLostWakeUp(c, states[i])
    decreases i
  {
    if i > 0 {
      NoWakeUpLost(c, states, labels, i - 1);
      assert Stepped(c, states[i - 1], labels[i - 1], states[i]);
      WakeUpStep(c, states[i - 1], labels[i - 1]);
    }
  }

  /** The condition is needed. Three faults lower the cap to two; nine successes follow; a cancelled `finally` section
      strands one slot, a caller takes the other, and a third sleeps; the tenth success raises the cap, and the
      cancellation of its `finally` section leaves the sleeper with room, un-notified, and alone. */
  lemma {:induction false} CancelledFinallyLosesWakeUp() returns (c: Config, states: seq<Sys>, labels: seq<Label>)
    ensures c.Valid() && Run(c, states, labels) && |labels| > 0
    ensures LosesWakeUp(c, states[|labels| - 1], labels[|labels| - 1])
    ensures var s := states[|labels|]; s.tasks.Keys == {2} && Overlooked(c, s, 2)
  {
    c := lonelyConfig;
    labels := seq(43, i requires 0 <= i < 43 => LonelyLabel(i));
    states := seq(44, i requires 0 <= i < 44 => Lonely(i));
    forall i | 0 <= i < 43 ensures Stepped(c, states[i], labels[i], states[i + 1]) {
      if i < 9 { LonelyFaults(i); } else if i < 36 { LonelySucceeds(i); } else { LonelyEnds(i); }
    }
    assert Lonely(42).tasks[1].phase.Finishing? && Overlooked(c, Lonely(42), 2);
    assert Lonely(43).tasks.Keys == {2};
  }

  const lonelyConfig := Config(3, 4, 60.0, 0, 1.5)

  /** Rounds of three steps, then seven single ones. */
  function LonelyLabel(i: nat): Label
    requires i < 43
  {
    if i < 36 then
      if i % 3 == 0 then Arrive(0, true)
      else if i % 3 == 2 then Exit(0)
      else if i < 9 then PortalFault(0) else Succeed(0)
    else
      [Arrive(0, true), OtherExit(0), CancelExit(0), Arrive(1, true), Arrive(2, true), Succeed(1), CancelExit(1)]
        [i - 36]
  }

  function Lonely(i: nat): Sys
    requires i < 44
  {
    var inside, leaving := Task(Holding, true, false, 0), Task(Finishing, true, false, 0);
    var asleep := Task(Asleep(false), true, false, 0);
    var worn := Gate(2, 1, Closed, 0.0, false, 0, 9, 0, 2.0);
    if i < 36 then
      var k, r := i / 3, i % 3;
      var faults := if i > 9 + 1 then 0 else if r == 2 then k + 1 else k;
      var wins := if i <= 9 then 0 else if r == 2 then k - 2 else k - 3;
      var lowered := i >= 8;
      Sys(Gate(if lowered then 2 else 3, if r == 0 then 0 else 1, Closed, 0.0, false, faults, wins, 0,
               if lowered then 2.0 else 1.5),
          0.0, 0, if r == 0 then map[] else map[0 := if r == 1 then inside else leaving], 0, 0, 0)
    else
      match i
      case 36 => Sys(worn.(active := 0), 0.0, 0, map[], 0, 0, 0)
      case 37 => Sys(worn, 0.0, 0, map[0 := inside], 0, 0, 0)
      case 38 => Sys(worn, 0.0, 0, map[0 := leaving], 0, 0, 0)
      case 39 => Sys(worn, 0.0, 0, map[], 1, 0, 0)
      case 40 => Sys(worn.(active := 2), 0.0, 0, map[1 := inside], 1, 0, 0)
      case 41 => Sys(worn.(active := 2), 0.0, 0, map[1 := inside, 2 := asleep], 1, 0, 0)
      case 42 => Sys(Gate(3, 2, Closed, 0.0, false, 0, 0, 0, 1.75), 0.0, 0, map[1 := leaving, 2 := asleep], 1, 0, 0)
      case 43 => Sys(Gate(3, 2, Closed, 0.0, false, 0, 0, 0, 1.75), 0.0, 0, map[2 := asleep], 2, 0, 0)
  }

  lemma {:induction false} LonelyFaults(i: nat)
    requires i < 9
    ensures Stepped(lonelyConfig, Lonely(i), LonelyLabel(i), Lonely(i + 1))
  {
  }

  lemma {:induction false} LonelySucceeds(i: nat)
    requires 9 <= i < 36
    ensures Stepped(lonelyConfig, Lonely(i), LonelyLabel(i), Lonely(i + 1))
  {
  }

  lemma {:induction false} LonelyEnds(i: nat)
    requires 36 <= i < 43
    ensures Stepped(lonelyConfig, Lonely(i), LonelyLabel(i), Lonely(i + 1))
  {
  }

  // ---------------------------------------------------------------- the half-open probe

  /** Admitted and not yet through the `finally` section. */
  predicate InFlight(task: Task) { !task.phase.Asleep? }

  ghost predicate ProbeInFlight(s: Sys) {
    exists t :: t in s.tasks && s.tasks[t].isProbe && InFlight(s.tasks[t])
  }

  /** The flag is honest when a raised flag means that a probe is in flight. */
  ghost predicate HonestFlag(s: Sys) { s.gate.probe ==> ProbeInFlight(s) }

  /** The step raises the flag for a caller that then has to wait for capacity. */
  predicate ArmsAndWaits(c: Config, s: Sys, l: Label)
    requires Enabled(s, l)
  {
    (l.Arrive? || l.Wake?) &&
    var interactive := if l.Arrive? then l.interactive else s.tasks[l.t].interactive;
    var r := Admit(c, s.gate, s.now, interactive);
    r.armed && r.verdict == MustWait
  }

  /** The step cancels the `finally` section of the only probe in flight, which leaves its flag raised. */
  ghost predicate LosesProbe(s: Sys, l: Label) {
    l.CancelExit? && s.gate.probe &&
    forall t | t in s.tasks && s.tasks[t].isProbe && InFlight(s.tasks[t]) :: t == l.t
  }

  /** Exactly two kinds of step make an honest flag dishonest: arming a caller that then waits while no other
      probe is in flight, and cancelling the last probe in its `finally` section. */
  lemma {:induction false} HonestFlagStep(c: Config, s: Sys, l: Label)
    requires HonestFlag(s) && Enabled(s, l)
    ensures HonestFlag(Apply(c, s, l)) <==> !(ArmsAndWaits(c, s, l) && !ProbeInFlight(s)) && !LosesProbe(s, l)
  {
    var s' := Apply(c, s, l);
    if ArmsAndWaits(c, s, l) {
      HonestFlagArmed(c, s, l);
    } else if LosesProbe(s, l) {
      assert !ProbeInFlight(s');
    } else if s'.gate.probe {
      HonestFlagKept(c, s, l);
    }
  }

  lemma {:induction false} HonestFlagArmed(c: Config, s: Sys, l: Label)
    requires Enabled(s, l) && ArmsAndWaits(c, s, l)
    ensures Apply(c, s, l).gate.probe
    ensures ProbeInFlight(Apply(c, s, l)) <==> ProbeInFlight(s)
  {
    var s' := Apply(c, s, l);
    if t :| t in s.tasks && s.tasks[t].isProbe && InFlight(s.tasks[t]) {
      assert t in s'.tasks && s'.tasks[t].isProbe && InFlight(s'.tasks[t]);
    }
    if t :| t in s'.tasks && s'.tasks[t].isProbe && InFlight(s'.tasks[t]) {
      assert t in s.tasks && s.tasks[t].isProbe && InFlight(s.tasks[t]);
    }
  }

  lemma {:induction false} HonestFlagKept(c: Config, s: Sys, l: Label)
    requires HonestFlag(s) && Enabled(s, l) && !LosesProbe(s, l) && !ArmsAndWaits(c, s, l)
    requires Apply(c, s, l).gate.probe
    ensures ProbeInFlight(Apply(c, s, l))
  {
    var s' := Apply(c, s, l);
    if s.gate.probe {
      var t :| t in s.tasks && s.tasks[t].isProbe && InFlight(s.tasks[t]) && (l.CancelExit? ==> t != l.t);
      assert t in s'.tasks && s'.tasks[t].isProbe && InFlight(s'.tasks[t]);
    } else {
      assert l.t in s'.tasks && s'.tasks[l.t].isProbe && InFlight(s'.tasks[l.t]);
    }
  }

  /** If no probe ever blocks for capacity (or is lost in its `finally`), a raised flag always means a probe
      in flight. */
  lemma {:induction false} FlagIsHonest(c: Config, states: seq<Sys>, labels: seq<Label>, i: nat)
    requires Run(c, states, labels) && i < |states|
    requires forall j | 0 <= j < i :: Enabled(states[j], labels[j]) && !ArmsAndWaits(c, states[j], labels[j])
    requires forall j | 0 <= j < i :: !LosesProbe(states[j], labels[j])
    ensures HonestFlag(states[i])
    decreases i
  {
    if i > 0 {
      FlagIsHonest(c, states, labels, i - 1);
      assert Stepped(c, states[i - 1], labels[i - 1], states[i]);
      HonestFlagStep(c, states[i - 1], labels[i - 1]);
    }
  }

  /** HALF_OPEN with the flag raised and nobody in flight to lower it. */
  ghost predicate Stuck(s: Sys) {
    s.gate.circuit == HalfOpen && s.gate.probe && forall t | t in s.tasks :: !InFlight(s.tasks[t])
  }

  /** A stuck gateway stays stuck and admits nobody, whatever happens next. */
  lemma {:induction false} StuckForever(c: Config, states: seq<Sys>, labels: seq<Label>, i: nat, k: nat)
    requires Run(c, states, labels) && i <= k < |states|
    requires Stuck(states[i])
    ensures Stuck(states[k])
    decreases k
  {
    if i < k {
      StuckForever(c, states, labels, i, k - 1);
      assert Stepped(c, states[k - 1], labels[k - 1], states[k]);
    }
  }

  /** The run in which a probe rejects itself: a background caller arms the probe while the one slot open to
      it is taken, sleeps, wakes, and is turned away by the flag it raised. The flag is never lowered. */
  lemma {:induction false} ProbeRejectsItself() returns (c: Config, states: seq<Sys>, labels: seq<Label>)
    ensures c.Valid() && Run(c, states, labels)
    ensures Stuck(states[|labels|])
    ensures exists j :: 0 <= j < |labels| && Enabled(states[j], labels[j]) && ArmsAndWaits(c, states[j], labels[j])
  {
    c := Config(2, 1, 60.0, 2, 1.5);
    labels := [Arrive(0, true), Arrive(1, true), PortalFault(1), Exit(1), Tick(60.0),
               Arrive(2, false), OtherExit(0), Exit(0), Wake(2)];
    states := seq(10, i requires 0 <= i < 10 => SelfRejection(i));
    forall i | 0 <= i < |labels| ensures Stepped(c, states[i], labels[i], states[i + 1]) {
      if i < 5 { SelfRejectionArms(i); } else { SelfRejectionSticks(i); }
    }
    SelfRejectionSticks(5);
    assert Enabled(states[5], labels[5]) && ArmsAndWaits(c, states[5], labels[5]);
  }

  const sampleConfig := Config(2, 1, 60.0, 2, 1.5)

  const sampleLabels := [Arrive(0, true), Arrive(1, true), PortalFault(1), Exit(1), Tick(60.0),
                         Arrive(2, false), OtherExit(0), Exit(0), Wake(2)]

  function SelfRejection(i: nat): Sys
    requires i < 10
  {
    var a, b := Task(Holding, true, false, 0), Task(Finishing, true, false, 0);
    var shut := Gate(2, 2, Open, 0.0, false, 1, 0, 1, 1.5);
    var armed := Gate(2, 1, HalfOpen, 0.0, true, 1, 0, 1, 1.5);
    var probe := Task(Asleep(false), false, true, 0);
    match i
    case 0 => Start(sampleConfig)
    case 1 => Sys(Gate(2, 1, Closed, 0.0, false, 0, 0, 0, 1.5), 0.0, 0, map[0 := a], 0, 0, 0)
    case 2 => Sys(Gate(2, 2, Closed, 0.0, false, 0, 0, 0, 1.5), 0.0, 0, map[0 := a, 1 := a], 0, 0, 0)
    case 3 => Sys(shut, 0.0, 0, map[0 := a, 1 := b], 0, 0, 0)
    case 4 => Sys(shut.(active := 1), 0.0, 0, map[0 := a], 0, 0, 0)
    case 5 => Sys(shut.(active := 1), 60.0, 0, map[0 := a], 0, 0, 0)
    case 6 => Sys(armed, 60.0, 1, map[0 := a, 2 := probe], 0, 0, 0)
    case 7 => Sys(armed, 60.0, 1, map[0 := b, 2 := probe], 0, 0, 0)
    case 8 => Sys(armed.(active := 0), 60.0, 1, map[2 := probe.(phase := Asleep(true))], 0, 0, 0)
    case 9 => Sys(armed.(active := 0), 60.0, 1, map[], 0, 0, 0)
  }

  lemma {:induction false} SelfRejectionArms(i: nat)
    requires i < 5
    ensures Stepped(sampleConfig, SelfRejection(i), sampleLabels[i], SelfRejection(i + 1))
  {
  }

  lemma {:induction false} SelfRejectionSticks(i: nat)
    requires 5 <= i < 9
    ensures Stepped(sampleConfig, SelfRejection(i), sampleLabels[i], SelfRejection(i + 1))
    ensures i == 5 ==> ArmsAndWaits(sampleConfig, SelfRejection(i), sampleLabels[i])
  {
  }

  predicate AdmittedInEpisode(s: Sys, t: nat) {
    t in s.tasks && InFlight(s.tasks[t]) && s.tasks[t].episode == s.episode
  }

  /** While HALF_OPEN, at most one request of the current episode is in flight, and the raised flag keeps others out. */
  ghost predicate Guarded(s: Sys) {
    && (forall t | t in s.tasks :: s.tasks[t].episode <= s.episode)
    && (s.gate.circuit == HalfOpen ==>
          && (forall t | AdmittedInEpisode(s, t) :: s.gate.probe)
          && (forall t, u | AdmittedInEpisode(s, t) && AdmittedInEpisode(s, u) :: t == u))
  }

  /** While HALF_OPEN, a probe ends under another request of the current episode, and lowers the flag that guards it. */
  ghost predicate LowersGuard(s: Sys, l: Label) {
    l.Exit? && s.gate.circuit == HalfOpen && l.t in s.tasks && s.tasks[l.t].isProbe &&
    exists u :: u != l.t && AdmittedInEpisode(s, u)
  }

  /** Exactly those steps leave a request of the current episode unguarded; and the probe that ends is not of the
      episode whose flag it lowers. */
  lemma {:induction false} GuardedStep(c: Config, s: Sys, l: Label)
    requires Guarded(s) && Enabled(s, l)
    ensures Guarded(Apply(c, s, l)) <==> !LowersGuard(s, l)
    ensures LowersGuard(s, l) ==> !AdmittedInEpisode(s, l.t)
  {
    if LowersGuard(s, l) {
      var u :| u != l.t && AdmittedInEpisode(s, u);
      assert AdmittedInEpisode(Apply(c, s, l), u);
    } else if l.Arrive? || l.Wake? {
      EnterKeepsGuard(c, s, l);
    } else {
      OthersKeepGuard(c, s, l);
    }
  }

  lemma {:induction false} EnterKeepsGuard(c: Config, s: Sys, l: Label)
    requires Guarded(s) && Enabled(s, l) && (l.Arrive? || l.Wake?)
    ensures Guarded(Apply(c, s, l))
  {
    var s' := Apply(c, s, l);
    assert forall t | AdmittedInEpisode(s', t) && t != l.t :: s'.episode == s.episode && AdmittedInEpisode(s, t);
  }

  lemma {:induction false} OthersKeepGuard(c: Config, s: Sys, l: Label)
    requires Guarded(s) && Enabled(s, l) && !l.Arrive? && !l.Wake? && !LowersGuard(s, l)
    ensures Guarded(Apply(c, s, l))
  {
    var s' := Apply(c, s, l);
    assert s'.gate.circuit == HalfOpen ==> s.gate.circuit == HalfOpen;
    assert forall t | AdmittedInEpisode(s', t) :: AdmittedInEpisode(s, t);
  }

  /** At most one request admitted in the current HALF_OPEN episode is in flight, on any run in which no older probe
      ends under a request of the current episode; cancellations of any kind do not matter. */
  lemma {:induction false} OneRequestPerEpisode(c: Config, states: seq<Sys>, labels: seq<Label>, i: nat)
    requires Run(c, states, labels) && i < |states|
    requires forall j | 0 <= j < i :: !LowersGuard(states[j], labels[j])
    ensures Guarded(states[i])
    ensures states[i].gate.circuit == HalfOpen ==>
              forall t, u | AdmittedInEpisode(states[i], t) && AdmittedInEpisode(states[i], u) :: t == u
    decreases i
  {
    if i > 0 {
      OneRequestPerEpisode(c, states, labels, i - 1);
      assert Stepped(c, states[i - 1], labels[i - 1], states[i]);
      GuardedStep(c, states[i - 1], labels[i - 1]);
    }
  }

  /** The condition is needed: a surviving probe lowers the flag of its successor, and a second request
      enters the same episode. */
  lemma {:induction false} SurvivorAdmitsTwo() returns (c: Config, states: seq<Sys>, labels: seq<Label>)
    ensures c.Valid() && Run(c, states, labels)
    ensures var s := states[|labels|];
            s.gate.circuit == HalfOpen && AdmittedInEpisode(s, 4) && AdmittedInEpisode(s, 5)
    ensures |labels| == 13 && LowersGuard(states[11], labels[11])
  {
    c, labels := survivorConfig, survivorLabels;
    states := seq(14, i requires 0 <= i < 14 => Survivor(i));
    forall i | 0 <= i < |labels| ensures Stepped(c, states[i], labels[i], states[i + 1]) {
      if i < 5 { SurvivorOpens(i); } else if i < 9 { SurvivorReopens(i); } else { SurvivorLeaves(i); }
    }
    assert AdmittedInEpisode(Survivor(11), 4);
  }

  const survivorConfig := Config(8, 1, 60.0, 2, 1.5)

  const survivorLabels := [Arrive(0, true), Arrive(1, true), Arrive(2, true), PortalFault(0), Tick(60.0),
                           Arrive(3, true), Succeed(1), PortalFault(2), Tick(120.0), Arrive(4, true),
                           OtherExit(3), Exit(3), Arrive(5, true)]

  function Survivor(i: nat): Sys
    requires i < 14
  {
    var a, b := Task(Holding, true, false, 0), Task(Finishing, true, false, 0);
    var older, newer := Task(Holding, true, true, 1), Task(Holding, true, true, 2);
    var closed := Gate(8, 1, Closed, 0.0, false, 0, 0, 0, 1.5);
    var shut := Gate(8, 3, Open, 0.0, false, 1, 0, 1, 1.5);
    var again := Gate(8, 4, Open, 60.0, false, 1, 0, 2, 1.5);
    var crowd := map[0 := b, 1 := b, 2 := b, 3 := older];
    match i
    case 0 => Start(survivorConfig)
    case 1 => Sys(closed, 0.0, 0, map[0 := a], 0, 0, 0)
    case 2 => Sys(closed.(active := 2), 0.0, 0, map[0 := a, 1 := a], 0, 0, 0)
    case 3 => Sys(closed.(active := 3), 0.0, 0, map[0 := a, 1 := a, 2 := a], 0, 0, 0)
    case 4 => Sys(shut, 0.0, 0, map[0 := b, 1 := a, 2 := a], 0, 0, 0)
    case 5 => Sys(shut, 60.0, 0, map[0 := b, 1 := a, 2 := a], 0, 0, 0)
    case 6 => Sys(shut.(circuit := HalfOpen, probe := true, active := 4), 60.0, 1,
                  map[0 := b, 1 := a, 2 := a, 3 := older], 0, 0, 0)
    case 7 => Sys(shut.(circuit := Closed, active := 4, errors := 0, successes := 1), 60.0, 1,
                  map[0 := b, 1 := b, 2 := a, 3 := older], 0, 0, 0)
    case 8 => Sys(again, 60.0, 1, crowd, 0, 0, 0)
    case 9 => Sys(again, 120.0, 1, crowd, 0, 0, 0)
    case 10 => Sys(again.(circuit := HalfOpen, probe := true, active := 5), 120.0, 2, crowd[4 := newer], 0, 0, 0)
    case 11 => Sys(again.(circuit := HalfOpen, probe := true, active := 5), 120.0, 2,
                   crowd[4 := newer][3 := older.(phase := Finishing)], 0, 0, 0)
    case 12 => Sys(again.(circuit := HalfOpen), 120.0, 2, map[0 := b, 1 := b, 2 := b, 4 := newer], 0, 0, 0)
    case 13 => Sys(again.(circuit := HalfOpen, probe := true, active := 5), 120.0, 2,
                   map[0 := b, 1 := b, 2 := b, 4 := newer, 5 := newer], 0, 0, 0)
  }

  lemma {:induction false} SurvivorOpens(i: nat)
    requires i < 5
    ensures Stepped(survivorConfig, Survivor(i), survivorLabels[i], Survivor(i + 1))
  {
  }

  lemma {:induction false} SurvivorReopens(i: nat)
    requires 5 <= i < 9
    ensures Stepped(survivorConfig, Survivor(i), survivorLabels[i], Survivor(i + 1))
  {
  }

  lemma {:induction false} SurvivorLeaves(i: nat)
    requires 9 <= i < 13
    ensures Stepped(survivorConfig, Survivor(i), survivorLabels[i], Survivor(i + 1))
  {
  }

  // ---------------------------------------------------------------- tripping

  /** Portal faults recorded since the last success, read off the labels alone. */
  function FaultsSinceSuccess(labels: seq<Label>): nat {
    if labels == [] then 0
    else
      var last := labels[|labels| - 1];
      if last.Succeed? then 0
      else FaultsSinceSuccess(labels[..|labels| - 1]) + if last.PortalFault? then 1 else 0
  }

  lemma {:induction false} ErrorsStep(c: Config, s: Sys, l: Label)
    requires Enabled(s, l)
    ensures Apply(c, s, l).gate.errors
            <= (if l.Succeed? then 0 else s.gate.errors + if l.PortalFault? then 1 else 0)
  {
  }

  lemma {:induction false} ErrorsAreFaults(c: Config, states: seq<Sys>, labels: seq<Label>, i: nat)
    requires Run(c, states, labels) && i < |states|
    ensures states[i].gate.errors <= FaultsSinceSuccess(labels[..i])
    decreases i
  {
    if i > 0 {
      ErrorsAreFaults(c, states, labels, i - 1);
      assert Stepped(c, states[i - 1], labels[i - 1], states[i]);
      ErrorsStep(c, states[i - 1], labels[i - 1]);
      assert labels[..i][..i - 1] == labels[..i - 1];
    }
  }

  /** CLOSED trips to OPEN only on a portal fault, and only when at least the threshold of portal faults
      was recorded since the last success; per-user faults never count. */
  lemma {:induction false} TripNeedsThreshold(c: Config, states: seq<Sys>, labels: seq<Label>, i: nat)
    requires Run(c, states, labels) && i < |labels|
    requires states[i].gate.circuit == Closed && states[i + 1].gate.circuit == Open
    ensures labels[i].PortalFault?
    ensures FaultsSinceSuccess(labels[..i + 1]) >= c.threshold
  {
    assert Stepped(c, states[i], labels[i], states[i + 1]);
    ErrorsAreFaults(c, states, labels, i);
    assert labels[..i + 1][..i] == labels[..i];
  }
}
