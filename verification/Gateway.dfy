/** The portal gateway: circuit breaker with a single half-open probe, adaptive admission on a
    condition variable, and the slot handed back around login pacing.

    `Gate` is the mutable part of the gateway object; each function over it is one section run under
    the gateway's condition lock, and `NitrisGateway` is the object itself, proved to perform exactly
    those sections on its fields. `Sys` adds the tasks, which can switch only where the lock is released.
    Module GatewayRuns proves what holds over every interleaving. */
module Gateway {

  datatype Circuit = Closed | Open | HalfOpen

  /** Construction-time settings; times are in seconds. */
  datatype Config = Config(configured: int, threshold: int, recovery: real, reserved: int, minInterval: real) {
    predicate Valid() {
      configured >= 1 && threshold >= 1 && reserved >= 0 && minInterval > 0.0
    }
  }

  /** `active` is an int: a double cancellation can drive it below zero. */
  datatype Gate = Gate(
    cap: int, active: int, circuit: Circuit, openedAt: real, probe: bool,
    errors: nat, successes: nat, trips: nat, interval: real)

  datatype Verdict = Admitted | MustWait | Rejected

  function MinInt(a: int, b: int): int { if a < b then a else b }

  function MaxInt(a: int, b: int): int { if a < b then b else a }

  function MinReal(a: real, b: real): real { if a < b then a else b }

  function MaxReal(a: real, b: real): real { if a < b then b else a }

  function Fresh(c: Config): Gate {
    Gate(c.configured, 0, Closed, 0.0, false, 0, 0, 0, c.minInterval)
  }

  /** An OPEN circuit whose recovery window has elapsed becomes HALF_OPEN. */
  function Recover(c: Config, g: Gate, now: real): Gate {
    if g.circuit == Open && now - g.openedAt >= c.recovery then g.(circuit := HalfOpen) else g
  }

  /** The admission limit of a caller: background work leaves the reserved slots free. */
  function Limit(c: Config, g: Gate, interactive: bool): int {
    if interactive then g.cap else MaxInt(1, g.cap - c.reserved)
  }

  datatype Admission = Admission(gate: Gate, verdict: Verdict, armed: bool)

  /** One pass of the admission loop. The probe flag is raised before capacity is looked at. */
  function Admit(c: Config, g: Gate, now: real, interactive: bool): Admission {
    var g1 := Recover(c, g, now);
    if g1.circuit == Open || (g1.circuit == HalfOpen && g1.probe) then
      Admission(g1, Rejected, false)
    else
      var armed := g1.circuit == HalfOpen;
      var g2 := if armed then g1.(probe := true) else g1;
      if g2.active >= Limit(c, g2, interactive) then Admission(g2, MustWait, armed)
      else Admission(g2.(active := g2.active + 1), Admitted, armed)
  }

  /** A per-user fault carries a portal response: it closes a HALF_OPEN circuit and nothing else. */
  function PortalResponded(g: Gate): Gate {
    if g.circuit == HalfOpen then g.(circuit := Closed) else g
  }

  function StepUp(c: Config, g: Gate): Gate {
    if g.successes < 10 then g
    else g.(successes := 0,
            cap := if g.cap < c.configured then g.cap + 1 else g.cap,
            interval := if g.interval > c.minInterval then MaxReal(c.minInterval, g.interval - 0.25) else g.interval)
  }

  function Succeeded(c: Config, g: Gate): Gate {
    var g1 := g.(errors := 0, successes := g.successes + 1);
    StepUp(c, if g1.circuit == HalfOpen then g1.(circuit := Closed, probe := false) else g1)
  }

  function StepDown(g: Gate): Gate {
    if g.errors != 3 then g
    else g.(cap := if g.cap > 2 then g.cap - 1 else g.cap,
            interval := if g.interval < 5.0 then MinReal(5.0, g.interval + 0.5) else g.interval)
  }

  function Trip(g: Gate, now: real): Gate {
    g.(circuit := Open, openedAt := now, trips := g.trips + 1)
  }

  /** A portal fault: a HALF_OPEN circuit re-trips at once, before any counter moves. */
  function Faulted(c: Config, g: Gate, now: real): Gate {
    if g.circuit == HalfOpen then Trip(g, now)
    else
      var g1 := StepDown(g.(errors := g.errors + 1, successes := 0));
      if g1.errors >= c.threshold && g1.circuit != Open then Trip(g1, now) else g1
  }

  /** The `finally` section of `acquire`. */
  function Left(g: Gate, isProbe: bool): Gate {
    g.(active := g.active - 1, probe := g.probe && !isProbe)
  }

  /** `_release_slot`, with its guard. */
  function HandedBack(g: Gate): Gate {
    if g.active > 0 then g.(active := g.active - 1) else g
  }

  /** One pass of the `_reacquire_slot` loop. */
  function Regained(g: Gate): (Gate, bool) {
    if g.active >= g.cap then (g, false) else (g.(active := g.active + 1), true)
  }

  class NitrisGateway {
    const config: Config
    var currentMaxConcurrent: int
    var activeRequests: int
    var circuitState: Circuit
    var circuitOpenedAt: real
    var probeInFlight: bool
    var consecutiveErrors: nat
    var consecutiveSuccesses: nat
    var circuitTrips: nat
    var currentLoginInterval: real

    function View(): Gate
      reads this
    {
      Gate(currentMaxConcurrent, activeRequests, circuitState, circuitOpenedAt, probeInFlight,
           consecutiveErrors, consecutiveSuccesses, circuitTrips, currentLoginInterval)
    }

    constructor (config: Config)
      ensures this.config == config
      ensures View() == Fresh(config)
    {
      this.config := config;
      currentMaxConcurrent := config.configured;
      activeRequests := 0;
      circuitState := Closed;
      circuitOpenedAt := 0.0;
      probeInFlight := false;
      consecutiveErrors, consecutiveSuccesses, circuitTrips := 0, 0, 0;
      currentLoginInterval := config.minInterval;
    }

    /** One locked pass of `acquire`: up to admission, rejection, or the wait. */
    method TryAdmit(interactive: bool, now: real) returns (verdict: Verdict, armed: bool)
      modifies this
      ensures Admission(View(), verdict, armed) == Admit(config, old(View()), now, interactive)
    {
      armed := false;
      if circuitState == Open {
        if now - circuitOpenedAt >= config.recovery {
          circuitState := HalfOpen;
        } else {
          return Rejected, false;
        }
      }
      if circuitState == HalfOpen {
        if probeInFlight {
          return Rejected, false;
        }
        probeInFlight := true;
        armed := true;
      }
      var limit := currentMaxConcurrent;
      if !interactive {
        limit := MaxInt(1, limit - config.reserved);
      }
      if activeRequests >= limit {
        return MustWait, armed;
      }
      activeRequests := activeRequests + 1;
      verdict := Admitted;
    }

    method NotePortalResponded()
      modifies this
      ensures View() == PortalResponded(old(View()))
    {
      if circuitState == HalfOpen {
        circuitState := Closed;
      }
    }

    method RecordSuccess()
      modifies this
      ensures View() == Succeeded(config, old(View()))
    {
      consecutiveErrors := 0;
      consecutiveSuccesses := consecutiveSuccesses + 1;
      if circuitState == HalfOpen {
        circuitState := Closed;
        probeInFlight := false;
      }
      if consecutiveSuccesses >= 10 {
        consecutiveSuccesses := 0;
        if currentMaxConcurrent < config.configured {
          currentMaxConcurrent := currentMaxConcurrent + 1;
        }
        if currentLoginInterval > config.minInterval {
          currentLoginInterval := MaxReal(config.minInterval, currentLoginInterval - 0.25);
        }
      }
    }

    method RecordError(now: real)
      modifies this
      ensures View() == Faulted(config, old(View()), now)
    {
      if circuitState == HalfOpen {
        circuitState := Open;
        circuitOpenedAt := now;
        circuitTrips := circuitTrips + 1;
        return;
      }
      consecutiveErrors := consecutiveErrors + 1;
      consecutiveSuccesses := 0;
      if consecutiveErrors == 3 {
        if currentMaxConcurrent > 2 {
          currentMaxConcurrent := currentMaxConcurrent - 1;
        }
        if currentLoginInterval < 5.0 {
          currentLoginInterval := MinReal(5.0, currentLoginInterval + 0.5);
        }
      }
      if consecutiveErrors >= config.threshold {
        if circuitState != Open {
          circuitState := Open;
          circuitOpenedAt := now;
          circuitTrips := circuitTrips + 1;
        }
      }
    }

    method Leave(isProbe: bool)
      modifies this
      ensures View() == Left(old(View()), isProbe)
    {
      activeRequests := activeRequests - 1;
      if isProbe {
        probeInFlight := false;
      }
    }

    method ReleaseSlot()
      modifies this
      ensures View() == HandedBack(old(View()))
    {
      if activeRequests > 0 {
        activeRequests := activeRequests - 1;
      }
    }

    method TryReacquire() returns (taken: bool)
      modifies this
      ensures (View(), taken) == Regained(old(View()))
    {
      if activeRequests >= currentMaxConcurrent {
        return false;
      }
      activeRequests := activeRequests + 1;
      taken := true;
    }
  }

  /** Where a task that has called `acquire` stands.
      Asleep: in the admission wait. Holding: slot held, body running. Pacing: slot handed back for the
      login pace. Regaining: asleep in `_reacquire_slot`. Finishing: outcome recorded (or skipped), the
      `finally` section still to run. Orphaned: cancelled in `_reacquire_slot`, so without a slot, with the
      `finally` section still to run. */
  datatype Phase = Asleep(notified: bool) | Holding | Pacing | Regaining(notified: bool) | Finishing | Orphaned

  /** `isProbe` is the local flag of `acquire`; `episode` is the HALF_OPEN episode of admission. */
  datatype Task = Task(phase: Phase, interactive: bool, isProbe: bool, episode: nat)

  /** `episode` counts OPEN -> HALF_OPEN transitions. The last three components only count:
      slots stranded by a cancelled `finally`, slots given back twice by an orphan, and skipped
      decrements of the release guard. */
  datatype Sys = Sys(gate: Gate, now: real, episode: nat, tasks: map<nat, Task>,
                     stranded: nat, leaks: nat, skips: nat)

  datatype Label =
    | Tick(to: real)
    | Arrive(t: nat, interactive: bool)
    | Wake(t: nat)
    | CancelAsleep(t: nat)
    | GiveBack(t: nat)
    | Regain(t: nat)
    | CancelRegain(t: nat)
    | Succeed(t: nat)
    | UserFault(t: nat)
    | PortalFault(t: nat)
    | OtherExit(t: nat)
    | Exit(t: nat)
    | CancelExit(t: nat)

  predicate Enabled(s: Sys, l: Label) {
    match l
    case Tick(to) => s.now <= to
    case Arrive(t, _) => t !in s.tasks
    case Wake(t) => t in s.tasks && s.tasks[t].phase == Asleep(true)
    case CancelAsleep(t) => t in s.tasks && s.tasks[t].phase.Asleep?
    case GiveBack(t) => t in s.tasks && s.tasks[t].phase.Holding?
    case Regain(t) => t in s.tasks && (s.tasks[t].phase.Pacing? || s.tasks[t].phase == Regaining(true))
    case CancelRegain(t) => t in s.tasks && (s.tasks[t].phase.Pacing? || s.tasks[t].phase.Regaining?)
    case Succeed(t) => t in s.tasks && s.tasks[t].phase.Holding?
    case UserFault(t) => t in s.tasks && s.tasks[t].phase.Holding?
    case PortalFault(t) => t in s.tasks && s.tasks[t].phase.Holding?
    case OtherExit(t) => t in s.tasks && s.tasks[t].phase.Holding?
    case Exit(t) => t in s.tasks && (s.tasks[t].phase.Finishing? || s.tasks[t].phase.Orphaned?)
    case CancelExit(t) => t in s.tasks && (s.tasks[t].phase.Finishing? || s.tasks[t].phase.Orphaned?)
  }

  /** `notify_all`: every task asleep on the condition becomes ready. */
  function NotifyAll(tasks: map<nat, Task>): map<nat, Task> {
    map t | t in tasks :: Notified(tasks[t])
  }

  function Notified(task: Task): Task {
    match task.phase
    case Asleep(_) => task.(phase := Asleep(true))
    case Regaining(_) => task.(phase := Regaining(true))
    case _ => task
  }

  function Enter(c: Config, s: Sys, t: nat, task: Task): Sys {
    var r := Admit(c, s.gate, s.now, task.interactive);
    var episode := if Recover(c, s.gate, s.now).circuit != s.gate.circuit then s.episode + 1 else s.episode;
    var next := s.(gate := r.gate, episode := episode);
    match r.verdict
    case Rejected => next.(tasks := s.tasks - {t})
    case MustWait => next.(tasks := s.tasks[t := task.(phase := Asleep(false), isProbe := task.isProbe || r.armed)])
    case Admitted =>
      next.(tasks := s.tasks[t := Task(Holding, task.interactive, task.isProbe || r.armed, episode)])
  }

  function Finish(s: Sys, t: nat, gate: Gate): Sys
    requires t in s.tasks
  {
    s.(gate := gate, tasks := s.tasks[t := s.tasks[t].(phase := Finishing)])
  }

  function Apply(c: Config, s: Sys, l: Label): Sys
    requires Enabled(s, l)
  {
    match l
    case Tick(to) => s.(now := to)
    case Arrive(t, interactive) => Enter(c, s, t, Task(Asleep(false), interactive, false, s.episode))
    case Wake(t) => Enter(c, s, t, s.tasks[t])
    case CancelAsleep(t) => s.(tasks := s.tasks - {t})
    case GiveBack(t) =>
      s.(gate := HandedBack(s.gate),
         tasks := NotifyAll(s.tasks[t := s.tasks[t].(phase := Pacing)]),
         skips := if s.gate.active > 0 then s.skips else s.skips + 1)
    case Regain(t) =>
      var (gate, taken) := Regained(s.gate);
      s.(gate := gate, tasks := s.tasks[t := s.tasks[t].(phase := if taken then Holding else Regaining(false))])
    case CancelRegain(t) => s.(tasks := s.tasks[t := s.tasks[t].(phase := Orphaned)])
    case Succeed(t) => Finish(s, t, Succeeded(c, s.gate))
    case UserFault(t) => Finish(s, t, PortalResponded(s.gate))
    case PortalFault(t) => Finish(s, t, Faulted(c, s.gate, s.now))
    case OtherExit(t) => Finish(s, t, s.gate)
    case Exit(t) =>
      s.(gate := Left(s.gate, s.tasks[t].isProbe),
         tasks := NotifyAll(s.tasks - {t}),
         leaks := if s.tasks[t].phase.Orphaned? then s.leaks + 1 else s.leaks)
    case CancelExit(t) =>
      s.(tasks := s.tasks - {t},
         stranded := if s.tasks[t].phase.Finishing? then s.stranded + 1 else s.stranded)
  }

  function Start(c: Config): Sys {
    Sys(Fresh(c), 0.0, 0, map[], 0, 0, 0)
  }
}
