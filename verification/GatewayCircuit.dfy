/** The circuit breaker over every run, stated on the states, the clock and the labels: what OPEN turns away, when each
    state is left, what the counters count, and who is admitted. */
module GatewayCircuit {
  import opened Gateway
  import opened GatewayRuns

  /** The task asks for admission, on arrival or after a wake-up. */
  predicate Calls(l: Label) { l.Arrive? || l.Wake? }

  predicate Trips(s: Sys, s': Sys) { s.gate.circuit != Open && s'.gate.circuit == Open }

  /** A portal fault that is not that of a half-open episode moves the counters. */
  predicate Counts(s: Sys, l: Label) { l.PortalFault? && s.gate.circuit != HalfOpen }

  // ---------------------------------------------------------------- the counters

  /** The counted faults since the last success. */
  function FaultsCounted(states: seq<Sys>, labels: seq<Label>, k: nat): nat
    requires k <= |labels| && k <= |states|
  {
    if k == 0 then 0
    else if labels[k - 1].Succeed? then 0
    else FaultsCounted(states, labels, k - 1) + if Counts(states[k - 1], labels[k - 1]) then 1 else 0
  }

  /** The successes since the last counted fault. */
  function SuccessesInARow(states: seq<Sys>, labels: seq<Label>, k: nat): nat
    requires k <= |labels| && k <= |states|
  {
    if k == 0 then 0
    else if Counts(states[k - 1], labels[k - 1]) then 0
    else SuccessesInARow(states, labels, k - 1) + if labels[k - 1].Succeed? then 1 else 0
  }

  /** When the circuit last went to OPEN, zero if it never did. */
  ghost function LastTripAt(states: seq<Sys>, k: nat): real
    requires k < |states|
  {
    if k == 0 then 0.0
    else if Trips(states[k - 1], states[k]) then states[k - 1].now
    else LastTripAt(states, k - 1)
  }

  ghost function TripsSoFar(states: seq<Sys>, k: nat): nat
    requires k < |states|
  {
    if k == 0 then 0 else TripsSoFar(states, k - 1) + if Trips(states[k - 1], states[k]) then 1 else 0
  }

  ghost predicate CountersMove(s: Sys, l: Label, s': Sys) {
    && s'.gate.errors == (if l.Succeed? then 0 else if Counts(s, l) then s.gate.errors + 1 else s.gate.errors)
    && s'.gate.successes ==
       (if Counts(s, l) then 0
        else if l.Succeed? then (if s.gate.successes + 1 >= 10 then 0 else s.gate.successes + 1)
        else s.gate.successes)
    && s'.gate.openedAt == (if Trips(s, s') then s.now else s.gate.openedAt)
    && s'.gate.trips == s.gate.trips + if Trips(s, s') then 1 else 0
  }

  lemma {:induction false} CountersStep(c: Config, s: Sys, l: Label)
    requires Enabled(s, l)
    ensures CountersMove(s, l, Apply(c, s, l))
  {
  }

  lemma {:induction false} CountersMoveOn(c: Config, states: seq<Sys>, labels: seq<Label>)
    requires Run(c, states, labels)
    ensures forall j | 0 <= j < |labels| :: CountersMove(states[j], labels[j], states[j + 1])
  {
    forall j | 0 <= j < |labels| ensures CountersMove(states[j], labels[j], states[j + 1]) {
      assert Stepped(c, states[j], labels[j], states[j + 1]);
      CountersStep(c, states[j], labels[j]);
    }
  }

  lemma {:induction false} CountersAddUp(states: seq<Sys>, labels: seq<Label>, k: nat)
    requires k < |states| == |labels| + 1
    requires states[0].gate.errors == states[0].gate.successes == states[0].gate.trips == 0
    requires states[0].gate.openedAt == 0.0
    requires forall j | 0 <= j < |labels| :: CountersMove(states[j], labels[j], states[j + 1])
    ensures states[k].gate.errors == FaultsCounted(states, labels, k)
    ensures states[k].gate.successes == SuccessesInARow(states, labels, k) % 10
    ensures states[k].gate.openedAt == LastTripAt(states, k) && states[k].gate.trips == TripsSoFar(states, k)
    decreases k
  {
    if k > 0 {
      CountersAddUp(states, labels, k - 1);
      assert CountersMove(states[k - 1], labels[k - 1], states[k]);
    }
  }

  /** On every run the counters are the faults and successes counted, the successes in tens, and the time and number
      of the trips. */
  lemma {:induction false} CountersAreExact(c: Config, states: seq<Sys>, labels: seq<Label>, k: nat)
    requires Run(c, states, labels) && k < |states|
    ensures states[k].gate.errors == FaultsCounted(states, labels, k)
    ensures states[k].gate.successes == SuccessesInARow(states, labels, k) % 10
    ensures states[k].gate.openedAt == LastTripAt(states, k) && states[k].gate.trips == TripsSoFar(states, k)
  {
    CountersMoveOn(c, states, labels);
    CountersAddUp(states, labels, k);
  }

  // ---------------------------------------------------------------- the circuit

  ghost predicate CircuitTurns(c: Config, s: Sys, l: Label, s': Sys) {
    s'.gate.circuit ==
    match s.gate.circuit
    case Open => if Calls(l) && s.now - s.gate.openedAt >= c.recovery then HalfOpen else Open
    case HalfOpen => if l.PortalFault? then Open else if l.Succeed? || l.UserFault? then Closed else HalfOpen
    case Closed => if l.PortalFault? && s.gate.errors + 1 >= c.threshold then Open else Closed
  }

  lemma {:induction false} CircuitStep(c: Config, s: Sys, l: Label)
    requires Enabled(s, l)
    ensures CircuitTurns(c, s, l, Apply(c, s, l))
  {
  }

  /** On every run: CLOSED trips exactly on the portal fault that makes the faults counted since the last success
      reach the threshold; HALF_OPEN trips exactly on a portal fault, and closes exactly on a success or a per-user
      fault; OPEN is left exactly by a caller that comes the recovery time after the last trip, for HALF_OPEN. */
  lemma {:induction false} CircuitMoves(c: Config, states: seq<Sys>, labels: seq<Label>, k: nat)
    requires Run(c, states, labels) && k < |labels|
    ensures states[k].gate.circuit == Closed ==>
              && (states[k + 1].gate.circuit == Open <==>
                    labels[k].PortalFault? && FaultsCounted(states, labels, k + 1) >= c.threshold)
              && states[k + 1].gate.circuit != HalfOpen
    ensures states[k].gate.circuit == HalfOpen ==>
              && (states[k + 1].gate.circuit == Open <==> labels[k].PortalFault?)
              && (states[k + 1].gate.circuit == Closed <==> labels[k].Succeed? || labels[k].UserFault?)
    ensures states[k].gate.circuit == Open ==>
              && (states[k + 1].gate.circuit == HalfOpen <==>
                    Calls(labels[k]) && states[k].now - LastTripAt(states, k) >= c.recovery)
              && states[k + 1].gate.circuit != Closed
  {
    CountersAreExact(c, states, labels, k);
    assert Stepped(c, states[k], labels[k], states[k + 1]);
    CircuitStep(c, states[k], labels[k]);
  }

  /** A caller is turned away, and the gate does not change. */
  predicate TurnedAway(s: Sys, l: Label, s': Sys) {
    Calls(l) && s'.gate == s.gate && l.t !in s'.tasks
  }

  /** What an outage that began at `since` makes of one step. */
  ghost predicate OutageGoesOn(c: Config, s: Sys, l: Label, s': Sys, since: real) {
    s.gate.circuit == Open && s.gate.openedAt == since && (Calls(l) ==> s.now - since < c.recovery) ==>
      && s'.gate.circuit == Open && s'.gate.openedAt == since
      && (Calls(l) ==> TurnedAway(s, l, s'))
  }

  lemma {:induction false} OutageStep(c: Config, s: Sys, l: Label, since: real)
    requires Enabled(s, l)
    ensures OutageGoesOn(c, s, l, Apply(c, s, l), since)
  {
    CircuitStep(c, s, l);
    CountersStep(c, s, l);
  }

  lemma {:induction false} OutageLasts(c: Config, states: seq<Sys>, labels: seq<Label>, i: nat, k: nat, since: real)
    requires i <= k < |states| == |labels| + 1
    requires states[i].gate.circuit == Open && states[i].gate.openedAt == since
    requires forall j | i <= j < k :: OutageGoesOn(c, states[j], labels[j], states[j + 1], since)
    requires forall j | i <= j < k && Calls(labels[j]) :: states[j].now - since < c.recovery
    ensures states[k].gate.circuit == Open && states[k].gate.openedAt == since
    ensures forall j | i <= j < k && Calls(labels[j]) :: TurnedAway(states[j], labels[j], states[j + 1])
    decreases k
  {
    if i < k {
      OutageLasts(c, states, labels, i, k - 1, since);
      assert OutageGoesOn(c, states[k - 1], labels[k - 1], states[k], since);
    }
  }

  /** An outage: from a trip on, for as long as nobody calls later than the recovery time after it, the circuit stays
      OPEN since that trip, and every caller is turned away without a trace on the gate. */
  lemma {:induction false} OutageHolds(c: Config, states: seq<Sys>, labels: seq<Label>, i: nat, k: nat)
    requires Run(c, states, labels) && i < k < |states| && Trips(states[i], states[i + 1])
    requires forall j | i < j < k && Calls(labels[j]) :: states[j].now - states[i].now < c.recovery
    ensures states[k].gate.circuit == Open && states[k].gate.openedAt == states[i].now
    ensures forall j | i < j < k && Calls(labels[j]) :: TurnedAway(states[j], labels[j], states[j + 1])
  {
    assert Stepped(c, states[i], labels[i], states[i + 1]);
    CountersStep(c, states[i], labels[i]);
    forall j | i < j < k ensures OutageGoesOn(c, states[j], labels[j], states[j + 1], states[i].now) {
      assert Stepped(c, states[j], labels[j], states[j + 1]);
      OutageStep(c, states[j], labels[j], states[i].now);
    }
    OutageLasts(c, states, labels, i + 1, k, states[i].now);
  }

  /** And the first caller after the recovery time finds the circuit HALF_OPEN: unless an older probe is still in
      flight it becomes the probe, and then it holds a slot or waits for one. */
  lemma {:induction false} OutageEnds(c: Config, states: seq<Sys>, labels: seq<Label>, i: nat, k: nat)
    requires Run(c, states, labels) && i < k < |labels| && Trips(states[i], states[i + 1])
    requires forall j | i < j < k && Calls(labels[j]) :: states[j].now - states[i].now < c.recovery
    requires Calls(labels[k]) && states[k].now - states[i].now >= c.recovery
    ensures states[k + 1].gate.circuit == HalfOpen && states[k + 1].gate.probe
    ensures labels[k].t in states[k + 1].tasks <==> !states[k].gate.probe
    ensures !states[k].gate.probe ==> states[k + 1].tasks[labels[k].t].isProbe
  {
    OutageHolds(c, states, labels, i, k);
    assert Stepped(c, states[k], labels[k], states[k + 1]);
    CircuitStep(c, states[k], labels[k]);
    AdmissionIs(c, states[k], labels[k]);
  }

  // ---------------------------------------------------------------- admission

  predicate IsInteractive(s: Sys, l: Label)
    requires Enabled(s, l) && Calls(l)
  {
    if l.Arrive? then l.interactive else s.tasks[l.t].interactive
  }

  /** The circuit lets the caller through: closed, or recovering with no probe in flight. */
  predicate LetsThrough(c: Config, s: Sys) {
    || s.gate.circuit == Closed
    || (!s.gate.probe && (s.gate.circuit == HalfOpen || s.now - s.gate.openedAt >= c.recovery))
  }

  /** A slot is free; a background caller must leave the reserved ones, unless nobody is in flight. */
  predicate HasRoom(c: Config, s: Sys, interactive: bool) {
    if interactive then s.gate.active < s.gate.cap
    else s.gate.active < 1 || s.gate.active + c.reserved < s.gate.cap
  }

  /** A caller gets a slot, waits or is turned away exactly as circuit and room say. It is marked as the probe, and the
      flag raised, exactly if a circuit that is not closed lets it through, whether or not there is room. */
  lemma {:induction false} AdmissionIs(c: Config, s: Sys, l: Label)
    requires Enabled(s, l) && Calls(l)
    ensures var s', through, room := Apply(c, s, l), LetsThrough(c, s), HasRoom(c, s, IsInteractive(s, l));
            && (l.t in s'.tasks <==> through)
            && (through ==>
                  && s'.tasks[l.t].phase == (if room then Holding else Asleep(false))
                  && s'.tasks[l.t].interactive == IsInteractive(s, l)
                  && (s'.tasks[l.t].isProbe <==> s.gate.circuit != Closed || (l.Wake? && s.tasks[l.t].isProbe)))
            && s'.gate.active == s.gate.active + (if through && room then 1 else 0)
            && (s'.gate.probe <==> s.gate.probe || (through && s.gate.circuit != Closed))
            && s'.tasks - {l.t} == s.tasks - {l.t}
  {
  }

  /** The other steps at a slot. Pacing gives the slot back and wakes everybody; a paced task takes one again exactly
      if the adaptive cap has room; the `finally` section gives it back, lowers the flag of a probe, and wakes
      everybody; and a task that ends keeps it until then. */
  lemma {:induction false} SlotStep(c: Config, s: Sys, l: Label)
    requires Enabled(s, l) && !Calls(l) && !l.Tick?
    ensures var s', g, phase := Apply(c, s, l), s.gate, s.tasks[l.t].phase;
            && (l.GiveBack? ==>
                  && s'.tasks[l.t].phase.Pacing?
                  && s'.gate.active == if g.active > 0 then g.active - 1 else g.active)
            && (l.Regain? ==>
                  && s'.tasks[l.t].phase == (if g.active < g.cap then Holding else Regaining(false))
                  && s'.gate.active == if g.active < g.cap then g.active + 1 else g.active)
            && (l.Exit? ==>
                  && s'.tasks.Keys == s.tasks.Keys - {l.t} && s'.gate.active == g.active - 1
                  && (s'.gate.probe <==> g.probe && !s.tasks[l.t].isProbe))
            && (l.CancelExit? || l.CancelAsleep? ==> s'.tasks == s.tasks - {l.t} && s'.gate == g)
            && (l.CancelRegain? ==> s'.tasks[l.t].phase.Orphaned? && s'.gate == g)
            && (l.Succeed? || l.UserFault? || l.PortalFault? || l.OtherExit? ==>
                  s'.tasks[l.t].phase.Finishing? && s'.gate.active == g.active)
  {
  }

  /** Giving a slot back wakes every other task asleep on the condition, and nothing else does. */
  lemma {:induction false} WakesAll(c: Config, s: Sys, l: Label, u: nat)
    requires Enabled(s, l) && !l.Tick? && u != l.t && u in s.tasks
    ensures var s', was := Apply(c, s, l), s.tasks[u];
            && u in s'.tasks
            && s'.tasks[u] ==
               if !l.Exit? && !l.GiveBack? then was
               else if was.phase.Asleep? then was.(phase := Asleep(true))
               else if was.phase.Regaining? then was.(phase := Regaining(true))
               else was
  {
  }

  // ---------------------------------------------------------------- adaptation

  /** The step is the third fault counted in a row. */
  predicate ThirdFault(states: seq<Sys>, labels: seq<Label>, k: nat)
    requires k < |labels| && k < |states|
  {
    Counts(states[k], labels[k]) && FaultsCounted(states, labels, k + 1) == 3
  }

  /** The step is a tenth success in a row. */
  predicate TenthSuccess(states: seq<Sys>, labels: seq<Label>, k: nat)
    requires k < |labels| && k < |states|
  {
    labels[k].Succeed? && SuccessesInARow(states, labels, k + 1) % 10 == 0
  }

  lemma {:induction false} EachTenth(n: nat)
    ensures (n + 1) % 10 == 0 <==> n % 10 == 9
  {
  }

  lemma {:induction false} ThirdAndTenth(states: seq<Sys>, labels: seq<Label>, k: nat)
    requires k < |labels| && k < |states|
    requires states[k].gate.errors == FaultsCounted(states, labels, k)
    requires states[k].gate.successes == SuccessesInARow(states, labels, k) % 10
    ensures ThirdFault(states, labels, k) <==> Counts(states[k], labels[k]) && states[k].gate.errors == 2
    ensures TenthSuccess(states, labels, k) <==> labels[k].Succeed? && states[k].gate.successes == 9
  {
    EachTenth(SuccessesInARow(states, labels, k));
  }

  /** Half a second up, to five at most. */
  predicate IsSlower(was: real, will: real) {
    will == if was >= 5.0 then was else if was >= 4.5 then 5.0 else was + 0.5
  }

  /** A quarter of a second down, to `least` at least. */
  predicate IsFaster(least: real, was: real, will: real) {
    will == if was >= least + 0.25 then was - 0.25 else least
  }

  lemma {:induction false} AdaptationStep(c: Config, s: Sys, l: Label)
    requires Enabled(s, l) && c.minInterval <= s.gate.interval && s.gate.successes < 10
    ensures var third, tenth := Counts(s, l) && s.gate.errors == 2, l.Succeed? && s.gate.successes == 9;
            && Apply(c, s, l).gate.cap ==
               (if third && s.gate.cap > 2 then s.gate.cap - 1
                else if tenth && s.gate.cap < c.configured then s.gate.cap + 1
                else s.gate.cap)
            && (third ==> IsSlower(s.gate.interval, Apply(c, s, l).gate.interval))
            && (tenth ==> IsFaster(c.minInterval, s.gate.interval, Apply(c, s, l).gate.interval))
            && (!third && !tenth ==> Apply(c, s, l).gate.interval == s.gate.interval)
  {
  }

  /** On every run the cap drops by one exactly at the third fault counted in a row, if above two, and rises by one
      exactly at each tenth success in a row, if below the configured one; and the login interval moves with it. */
  lemma {:induction false} AdaptsExactly(c: Config, states: seq<Sys>, labels: seq<Label>, k: nat)
    requires c.Valid() && Run(c, states, labels) && k < |labels|
    ensures var was, will := states[k].gate, states[k + 1].gate;
            && will.cap ==
               (if ThirdFault(states, labels, k) && was.cap > 2 then was.cap - 1
                else if TenthSuccess(states, labels, k) && was.cap < c.configured then was.cap + 1
                else was.cap)
            && (ThirdFault(states, labels, k) ==> IsSlower(was.interval, will.interval))
            && (TenthSuccess(states, labels, k) ==> IsFaster(c.minInterval, was.interval, will.interval))
            && (!ThirdFault(states, labels, k) && !TenthSuccess(states, labels, k) ==> will.interval == was.interval)
  {
    CountersAreExact(c, states, labels, k);
    ThirdAndTenth(states, labels, k);
    InBounds(c, states, labels, k);
    assert Stepped(c, states[k], labels[k], states[k + 1]);
    AdaptationStep(c, states[k], labels[k]);
  }

  lemma {:induction false} InBounds(c: Config, states: seq<Sys>, labels: seq<Label>, k: nat)
    requires c.Valid() && Run(c, states, labels) && k < |states|
    ensures c.minInterval <= states[k].gate.interval && states[k].gate.successes < 10
  {
    BooksBalance(c, states, labels, k);
    CountersAreExact(c, states, labels, k);
  }
}
