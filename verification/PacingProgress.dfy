/** The lower side of login pacing: tokens accrue and are spent as soon as somebody waits, so nobody waits for
    nothing. */
module PacingProgress {
  import opened LoginPacing

  /** Callers that a stretch of the dispatcher finds waiting. */
  function Callers(s: Pacer, op: Op): nat { |s.queue| + if op.Join? then 1 else 0 }

  predicate Dispatches(op: Op) { op.Join? || op.Poll? }

  /** The tokens in hand at time `at`: the time since the last refill over the interval, which is a millisecond at
      least, on top of those left, up to the burst. */
  function InHand(c: Config, s: Pacer, at: real): real {
    var interval := if s.interval < 0.001 then 0.001 else s.interval;
    var tokens := s.tokens + (at - s.lastRefill) / interval;
    if tokens <= c.burst as real then tokens else c.burst as real
  }

  /** What a stretch of the dispatcher leaves: every token in hand is kept or spent on a grant made then, and it stops
      only when nobody waits or less than a whole token is left. */
  ghost predicate Serves(c: Config, s: Pacer, at: real, op: Op, s': Pacer) {
    && s.grants <= s'.grants
    && |s'.queue| + |s'.grants| == Callers(s, op) + |s.grants|
    && s'.tokens + (|s'.grants| - |s.grants|) as real == InHand(c, s, at)
    && s'.tokens >= 0.0 && (s'.queue == [] || s'.tokens < 1.0)
    && s'.lastRefill == at
    && (forall k | |s.grants| <= k < |s'.grants| :: s'.grants[k].at == at)
  }

  lemma {:induction false} DrainSpends(s: Pacer)
    requires s.tokens >= 0.0
    ensures var s' := Drain(s);
            && s.grants <= s'.grants && |s'.queue| + |s'.grants| == |s.queue| + |s.grants|
            && s'.tokens + (|s'.grants| - |s.grants|) as real == s.tokens
            && s'.tokens >= 0.0 && (s'.queue == [] || s'.tokens < 1.0)
            && s'.lastRefill == s.lastRefill
            && (forall k | |s.grants| <= k < |s'.grants| :: s'.grants[k].at == s.now)
    decreases |s.queue|
  {
    if CanGrant(s) {
      var s1 := GrantOne(s);
      DrainSpends(s1);
      assert s1.grants[|s.grants|].at == s.now && s1.now == s.now;
    }
  }

  lemma {:induction false} RefillFills(c: Config, s: Pacer, at: real)
    requires c.Valid() && Sound(c, s) && s.now <= at
    ensures var r := Refill(c, s.(now := at));
            r.tokens == InHand(c, s, at) && r.lastRefill == at && r.now == at &&
            r.queue == s.queue && r.grants == s.grants && 0.0 <= r.tokens
  {
    var earned := (at - s.lastRefill) / (if s.interval < 0.001 then 0.001 else s.interval);
    Earning(at - s.lastRefill, if s.interval < 0.001 then 0.001 else s.interval);
  }

  lemma {:induction false} Earning(elapsed: real, interval: real)
    requires elapsed >= 0.0 && interval > 0.0
    ensures elapsed / interval >= 0.0
    ensures elapsed == 0.0 ==> elapsed / interval == 0.0
  {
  }

  lemma {:induction false} StretchServes(c: Config, s: Pacer, at: real, op: Op)
    requires c.Valid() && Sound(c, s) && s.now <= at && Dispatches(op)
    ensures Serves(c, s, at, op, Perform(c, s, at, op))
  {
    var r := Refill(c, s.(now := at));
    RefillFills(c, s, at);
    DrainSpends(if op.Join? then Enqueue(r, op.interactive) else r);
  }

  /** On every run, each arrival and each timed wake serves what the tokens in hand allow. */
  lemma {:induction false} EveryStretchServes(c: Config, states: seq<Pacer>, times: seq<real>, ops: seq<Op>, i: nat)
    requires c.Valid() && Run(c, states, times, ops) && i < |ops| && Dispatches(ops[i])
    ensures Serves(c, states[i], times[i], ops[i], states[i + 1])
  {
    RunIsPaid(c, states, times, ops, i, 0.0, 0.0);
    assert Stepped(c, states[i], times[i], ops[i], states[i + 1]);
    StretchServes(c, states[i], times[i], ops[i]);
  }

  /** On every run nobody waits while a whole token is in the bucket. */
  lemma {:induction false} NobodyWaitsBesideAToken(
      c: Config, states: seq<Pacer>, times: seq<real>, ops: seq<Op>, i: nat)
    requires c.Valid() && Run(c, states, times, ops) && i < |states|
    ensures states[i].queue == [] || states[i].tokens < 1.0
    decreases i
  {
    if i > 0 {
      NobodyWaitsBesideAToken(c, states, times, ops, i - 1);
      assert Stepped(c, states[i - 1], times[i - 1], ops[i - 1], states[i]);
      if Dispatches(ops[i - 1]) {
        EveryStretchServes(c, states, times, ops, i - 1);
      } else {
        IdleKeepsTokens(c, states[i - 1], times[i - 1], ops[i - 1]);
      }
    }
  }

  /** A withdrawal and an adaptation touch neither tokens nor grants, and nobody joins. */
  lemma {:induction false} IdleKeepsTokens(c: Config, s: Pacer, at: real, op: Op)
    requires !Dispatches(op)
    ensures var s' := Perform(c, s, at, op);
            && s'.tokens == s.tokens && s'.lastRefill == s.lastRefill && s'.grants == s.grants
            && |s'.queue| <= |s.queue| && s'.joined == s.joined
            && s'.interval == if op.Adapt? then op.interval else s.interval
  {
    if op.Withdraw? { WithoutIsShorter(s.queue, op.ticket); }
  }

  lemma {:induction false} WithoutIsShorter(queue: seq<Waiter>, ticket: nat)
    ensures |Without(queue, ticket)| <= |queue|
  {
    if queue != [] && queue[0].ticket != ticket { WithoutIsShorter(queue[1..], ticket); }
  }

  /** By time `at`, what is missing to n whole tokens has had its time. */
  predicate IsDue(s: Pacer, at: real, n: nat) {
    at - s.lastRefill >= (n as real - s.tokens) * (if s.interval < 0.001 then 0.001 else s.interval)
  }

  /** Whoever comes or is woken when n tokens are due makes the dispatcher serve as many as n of those waiting. */
  lemma {:induction false} DueWakeServes(c: Config, states: seq<Pacer>, times: seq<real>, ops: seq<Op>, i: nat, n: nat)
    requires c.Valid() && Run(c, states, times, ops) && i < |ops| && Dispatches(ops[i])
    requires n <= Callers(states[i], ops[i]) && n <= c.burst && IsDue(states[i], times[i], n)
    ensures |states[i + 1].grants| >= |states[i].grants| + n
  {
    EveryStretchServes(c, states, times, ops, i);
    TokensAreSpent(c, states[i], times[i], ops[i], states[i + 1], n);
  }

  lemma {:induction false} TokensAreSpent(c: Config, s: Pacer, at: real, op: Op, s': Pacer, n: nat)
    requires Serves(c, s, at, op, s') && n <= Callers(s, op) && n <= c.burst && IsDue(s, at, n)
    ensures |s'.grants| >= |s.grants| + n
  {
    DueIsInHand(c, s, at, n);
    AtLeast(n, Callers(s, op), |s'.grants| - |s.grants|, InHand(c, s, at), s'.tokens);
  }

  lemma {:induction false} AtLeast(n: nat, callers: nat, granted: nat, tokens: real, left: real)
    requires n <= callers && n as real <= tokens && left + granted as real == tokens
    requires granted == callers || left < 1.0
    ensures n <= granted
  {
  }

  lemma {:induction false} DueIsInHand(c: Config, s: Pacer, at: real, n: nat)
    requires n <= c.burst && IsDue(s, at, n)
    ensures InHand(c, s, at) >= n as real
  {
    Due(at - s.lastRefill, if s.interval < 0.001 then 0.001 else s.interval, n as real - s.tokens);
  }

  lemma {:induction false} Due(elapsed: real, interval: real, missing: real)
    requires interval > 0.0 && elapsed >= missing * interval
    ensures elapsed / interval >= missing
  {
    var earned := elapsed / interval;
    assert earned * interval == elapsed;
    if earned < missing { assert earned * interval < missing * interval; }
  }

  /** On every run that starts with arrivals, as many as the burst are served at once. */
  lemma {:induction false} FirstCallersPass(c: Config, states: seq<Pacer>, times: seq<real>, ops: seq<Op>, n: nat)
    requires c.Valid() && Run(c, states, times, ops) && n <= |ops| && n <= c.burst
    requires forall i | 0 <= i < n :: ops[i].Join?
    ensures states[n].queue == [] && |states[n].grants| == n && states[n].tokens >= (c.burst - n) as real
    decreases n
  {
    if n > 0 {
      FirstCallersPass(c, states, times, ops, n - 1);
      ClockIsMonotone(c, states, times, ops, n - 1);
      EveryStretchServes(c, states, times, ops, n - 1);
      CallerPasses(c, states[n - 1], times[n - 1], ops[n - 1], states[n], (c.burst - n + 1) as real);
    }
  }

  lemma {:induction false} ClockIsMonotone(c: Config, states: seq<Pacer>, times: seq<real>, ops: seq<Op>, i: nat)
    requires c.Valid() && Run(c, states, times, ops) && i < |ops|
    ensures states[i].lastRefill <= times[i]
  {
    RunIsPaid(c, states, times, ops, i, 0.0, 0.0);
    assert Stepped(c, states[i], times[i], ops[i], states[i + 1]);
  }

  lemma {:induction false} CallerPasses(c: Config, s: Pacer, at: real, op: Op, s': Pacer, tokens: real)
    requires Serves(c, s, at, op, s') && op.Join? && s.queue == [] && s.lastRefill <= at
    requires 1.0 <= tokens <= s.tokens && tokens <= c.burst as real
    ensures s'.queue == [] && |s'.grants| == |s.grants| + 1 && s'.tokens >= tokens - 1.0
  {
    Earning(at - s.lastRefill, if s.interval < 0.001 then 0.001 else s.interval);
    assert InHand(c, s, at) >= tokens;
  }

  // ---------------------------------------------------------------- withdrawals

  /** A withdrawn ticket neither waits nor was granted. */
  ghost predicate LeftForGood(s: Pacer) {
    forall t: nat | t in s.left :: t < |s.joined| && !Waiting(s.queue, t) && !Granted(s.grants, t)
  }

  lemma {:induction false} GrantSkipsTheLeft(s: Pacer)
    requires LeftForGood(s) && CanGrant(s)
    ensures LeftForGood(GrantOne(s))
  {
    var s', p := GrantOne(s), Pick(s.queue);
    CutElements(s.queue, p);
    assert s'.queue == Cut(s.queue, p);
    forall t: nat | t in s'.left ensures !Waiting(s'.queue, t) && !Granted(s'.grants, t) {
      assert !Waiting(s.queue, t) && !Granted(s.grants, t) && s.queue[p].ticket != t;
    }
  }

  lemma {:induction false} DrainSkipsTheLeft(s: Pacer)
    requires LeftForGood(s)
    ensures LeftForGood(Drain(s))
    decreases |s.queue|
  {
    if CanGrant(s) {
      GrantSkipsTheLeft(s);
      DrainSkipsTheLeft(GrantOne(s));
    }
  }

  lemma {:induction false} WithdrawIsForGood(s: Pacer, ticket: nat)
    requires LeftForGood(s) && InOrder(s) && NoneTwice(s) && Waiting(s.queue, ticket)
    ensures LeftForGood(s.(queue := Without(s.queue, ticket), left := s.left + {ticket}))
  {
    var p :| 0 <= p < |s.queue| && s.queue[p].ticket == ticket;
    WithoutCutsFirst(s.queue, p);
    CutElements(s.queue, p);
    var s' := Withdrawn(s, p);
    forall t: nat | t in s'.left ensures !Waiting(s'.queue, t) {
      if t != ticket { assert !Waiting(s.queue, t); }
    }
  }

  /** On every run a ticket withdrawn before its grant is never granted: its token stays for the others. */
  lemma {:induction false} WithdrawnIsNeverGranted(
      c: Config, states: seq<Pacer>, times: seq<real>, ops: seq<Op>, i: nat)
    requires Run(c, states, times, ops) && i < |states|
    ensures LeftForGood(states[i])
    decreases i
  {
    if i > 0 {
      WithdrawnIsNeverGranted(c, states, times, ops, i - 1);
      GrantsAreFifo(c, states, times, ops, i - 1);
      assert Stepped(c, states[i - 1], times[i - 1], ops[i - 1], states[i]);
      PerformIsForGood(c, states[i - 1], times[i - 1], ops[i - 1]);
    }
  }

  lemma {:induction false} PerformIsForGood(c: Config, s: Pacer, at: real, op: Op)
    requires Fair(s) && LeftForGood(s)
    ensures LeftForGood(Perform(c, s, at, op))
  {
    var s1 := s.(now := at);
    match op
    case Join(interactive) =>
      var r := Refill(c, s1);
      JoinIsNew(r, interactive);
      DrainSkipsTheLeft(Enqueue(r, interactive));
    case Poll => DrainSkipsTheLeft(Refill(c, s1));
    case Withdraw(ticket) =>
      if Waiting(s.queue, ticket) {
        SameQueueIsFair(s, s1);
        WithdrawIsForGood(s1, ticket);
      }
    case Adapt(_) =>
  }

  lemma {:induction false} JoinIsNew(s: Pacer, interactive: bool)
    requires LeftForGood(s)
    ensures LeftForGood(Enqueue(s, interactive))
  {
    var s' := Enqueue(s, interactive);
    forall t: nat | t in s'.left ensures !Waiting(s'.queue, t) {
      assert !Waiting(s.queue, t) && t != |s.joined|;
    }
  }
}
