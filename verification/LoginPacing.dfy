/** Login pacing: a burst token bucket whose refill interval adapts at run time, and the two-class queue
    through which its tokens are granted. */
module LoginPacing {

  /** `burst` is the bucket size, `minInterval` the configured seconds per login. */
  datatype Config = Config(burst: int, minInterval: real) {
    predicate Valid() { burst >= 1 && minInterval > 0.0 }

    /** The refill divisor is floored at one millisecond. */
    function Floor(): real { if minInterval < 0.001 then 0.001 else minInterval }
  }

  datatype Waiter = Waiter(ticket: nat, interactive: bool)

  /** A waiter whose event was set, and when. */
  datatype Grant = Grant(waiter: Waiter, at: real)

  /** The bucket and its queue. `joined` (the class of each ticket, in order of arrival), `grants` and
      `left` (tickets withdrawn before a grant) are the history. */
  datatype Pacer = Pacer(
    tokens: real, lastRefill: real, interval: real, queue: seq<Waiter>, now: real,
    joined: seq<bool>, grants: seq<Grant>, left: set<nat>)

  function Max(a: real, b: real): real { if a < b then b else a }

  function Min(a: real, b: real): real { if a < b then a else b }

  function Fresh(c: Config, now: real): Pacer {
    Pacer(c.burst as real, now, c.minInterval, [], now, [], [], {})
  }

  function Refill(c: Config, s: Pacer): Pacer {
    var elapsed := s.now - s.lastRefill;
    if elapsed > 0.0 then
      s.(tokens := Min(c.burst as real, s.tokens + elapsed / Max(s.interval, 0.001)), lastRefill := s.now)
    else s
  }

  /** The index to serve: the earliest interactive waiter, else the earliest waiter. */
  function Pick(queue: seq<Waiter>): (i: nat)
    requires queue != []
    ensures i < |queue|
    ensures forall j | 0 <= j < i :: !queue[j].interactive
    ensures !queue[i].interactive ==> i == 0 && forall j | 0 <= j < |queue| :: !queue[j].interactive
  {
    if queue[0].interactive || |queue| == 1 then 0
    else
      var i := Pick(queue[1..]);
      if queue[1..][i].interactive then i + 1 else 0
  }

  predicate CanGrant(s: Pacer) { s.tokens >= 1.0 && s.queue != [] }

  function GrantOne(s: Pacer): Pacer
    requires CanGrant(s)
  {
    var i := Pick(s.queue);
    s.(tokens := s.tokens - 1.0, queue := s.queue[..i] + s.queue[i + 1..],
       grants := s.grants + [Grant(s.queue[i], s.now)])
  }

  function Drain(s: Pacer): Pacer
    decreases |s.queue|
  {
    if CanGrant(s) then Drain(GrantOne(s)) else s
  }

  datatype Op = Join(interactive: bool) | Poll | Withdraw(ticket: nat) | Adapt(interval: real)

  function Without(queue: seq<Waiter>, ticket: nat): seq<Waiter> {
    if queue == [] then []
    else if queue[0].ticket == ticket then queue[1..]
    else [queue[0]] + Without(queue[1..], ticket)
  }

  predicate Waiting(queue: seq<Waiter>, ticket: nat) {
    exists i :: 0 <= i < |queue| && queue[i].ticket == ticket
  }

  function Enqueue(s: Pacer, interactive: bool): Pacer {
    s.(queue := s.queue + [Waiter(|s.joined|, interactive)], joined := s.joined + [interactive])
  }

  /** One uninterrupted stretch of `_pacing_turn` (or of the adaptive limits) at time `at`. */
  function Perform(c: Config, s: Pacer, at: real, op: Op): Pacer {
    var s1 := s.(now := at);
    match op
    case Join(interactive) => Drain(Enqueue(Refill(c, s1), interactive))
    case Poll => Drain(Refill(c, s1))
    case Withdraw(ticket) =>
      if Waiting(s.queue, ticket) then s1.(queue := Without(s.queue, ticket), left := s.left + {ticket}) else s1
    case Adapt(interval) => s1.(interval := interval)
  }

  class LoginPacer {
    const config: Config
    var loginTokens: real
    var loginLastRefill: real
    var currentLoginInterval: real
    var paceQueue: seq<Waiter>
    var now: real
    var joined: seq<bool>
    var grants: seq<Grant>
    var left: set<nat>

    function View(): Pacer
      reads this
    {
      Pacer(loginTokens, loginLastRefill, currentLoginInterval, paceQueue, now, joined, grants, left)
    }

    constructor (config: Config, now: real)
      ensures this.config == config && View() == Fresh(config, now)
    {
      this.config := config;
      loginTokens, loginLastRefill, currentLoginInterval := config.burst as real, now, config.minInterval;
      this.now, paceQueue, joined, grants, left := now, [], [], [], {};
    }

    method RefillTokens()
      modifies this`loginTokens, this`loginLastRefill
      ensures View() == Refill(config, old(View()))
    {
      var elapsed := now - loginLastRefill;
      if elapsed > 0.0 {
        loginTokens := Min(config.burst as real, loginTokens + elapsed / Max(currentLoginInterval, 0.001));
        loginLastRefill := now;
      }
    }

    method DispatchTokens()
      modifies this`loginTokens, this`paceQueue, this`grants
      ensures View() == Drain(old(View()))
    {
      while loginTokens >= 1.0 && paceQueue != []
        invariant Drain(View()) == Drain(old(View()))
        decreases |paceQueue|
      {
        var idx := FirstInteractive();
        grants := grants + [Grant(paceQueue[idx], now)];
        paceQueue := paceQueue[..idx] + paceQueue[idx + 1..];
        loginTokens := loginTokens - 1.0;
      }
    }

    method FirstInteractive() returns (idx: nat)
      requires paceQueue != []
      ensures idx == Pick(paceQueue)
    {
      for i := 0 to |paceQueue|
        invariant forall j | 0 <= j < i :: !paceQueue[j].interactive
      {
        if paceQueue[i].interactive {
          return i;
        }
      }
      return 0;
    }

    /** Joining the queue: the first stretch of `_pacing_turn`. */
    method JoinQueue(interactive: bool, at: real) returns (ticket: nat)
      modifies this
      ensures View() == Perform(config, old(View()), at, Join(interactive)) && ticket == old(|joined|)
    {
      now := at;
      ticket := |joined|;
      RefillTokens();
      paceQueue := paceQueue + [Waiter(ticket, interactive)];
      joined := joined + [interactive];
      DispatchTokens();
    }

    /** The cleanup of a waiter cancelled before its grant. */
    method LeaveQueue(ticket: nat, at: real)
      modifies this
      ensures View() == Perform(config, old(View()), at, Withdraw(ticket))
    {
      now := at;
      for i := 0 to |paceQueue|
        invariant forall j | 0 <= j < i :: paceQueue[j].ticket != ticket
        invariant View() == old(View()).(now := at)
      {
        if paceQueue[i].ticket == ticket {
          WithoutCutsFirst(paceQueue, i);
          paceQueue := paceQueue[..i] + paceQueue[i + 1..];
          left := left + {ticket};
          return;
        }
      }
    }

    /** A timed wake of a queued waiter. */
    method WakeUp(at: real)
      modifies this
      ensures View() == Perform(config, old(View()), at, Poll)
    {
      now := at;
      RefillTokens();
      DispatchTokens();
    }
  }

  lemma {:induction false} WithoutCutsFirst(queue: seq<Waiter>, i: nat)
    requires i < |queue| && forall j | 0 <= j < i :: queue[j].ticket != queue[i].ticket
    ensures Without(queue, queue[i].ticket) == queue[..i] + queue[i + 1..]
  {
    if i > 0 {
      WithoutCutsFirst(queue[1..], i - 1);
    }
  }

  // ---------------------------------------------------------------- runs

  /** A run performs timed operations under a clock that never goes back; the interval may change at any time
      but never below the configured one. */
  ghost predicate Run(c: Config, states: seq<Pacer>, times: seq<real>, ops: seq<Op>) {
    && |states| == |ops| + 1 && |times| == |ops|
    && states[0] == Fresh(c, states[0].now)
    && forall i | 0 <= i < |ops| :: Stepped(c, states[i], times[i], ops[i], states[i + 1])
  }

  ghost predicate Stepped(c: Config, s: Pacer, at: real, op: Op, s': Pacer) {
    s.now <= at && (op.Adapt? ==> c.minInterval <= op.interval) && s' == Perform(c, s, at, op)
  }

  // ---------------------------------------------------------------- rate bound

  /** The number of grants in the closed window [x, y]. */
  function GrantsIn(grants: seq<Grant>, x: real, y: real): nat {
    if grants == [] then 0
    else GrantsIn(grants[..|grants| - 1], x, y) + if x <= grants[|grants| - 1].at <= y then 1 else 0
  }

  ghost predicate Sound(c: Config, s: Pacer) {
    0.0 <= s.tokens <= c.burst as real && s.lastRefill <= s.now && c.minInterval <= s.interval
  }

  /** Tokens in hand plus tokens granted in the window never exceed the burst by more than the time allows. */
  ghost predicate Paid(c: Config, s: Pacer, x: real, y: real) {
    Balanced(c, s.tokens, GrantsIn(s.grants, x, y) as real, s.lastRefill, s.now, x, y)
  }

  ghost predicate Balanced(c: Config, tokens: real, granted: real, lastRefill: real, now: real, x: real, y: real) {
    && (now <= y ==> granted == 0.0 || c.Floor() * (tokens + granted - c.burst as real) <= lastRefill - x)
    && (granted == 0.0 || c.Floor() * (granted - c.burst as real) <= y - x)
  }

  lemma {:induction false} RefillEarnsAtMost(c: Config, s: Pacer)
    requires c.Valid() && Sound(c, s)
    ensures Sound(c, Refill(c, s)) && Refill(c, s).lastRefill == s.now
    ensures c.Floor() * (Refill(c, s).tokens - s.tokens) <= s.now - s.lastRefill
  {
    Earned(c.Floor(), Max(s.interval, 0.001), s.now - s.lastRefill, Refill(c, s).tokens - s.tokens);
  }

  lemma {:induction false} Earned(f: real, d: real, elapsed: real, gain: real)
    requires 0.0 < f <= d && 0.0 <= elapsed && gain <= elapsed / d
    ensures f * gain <= elapsed
  {
  }

  lemma {:induction false} RefillIsPaid(c: Config, s: Pacer, x: real, y: real)
    requires c.Valid() && Sound(c, s) && Paid(c, s, x, y)
    ensures Paid(c, Refill(c, s), x, y)
  {
    RefillEarnsAtMost(c, s);
    EarningBalances(c, s.tokens, Refill(c, s).tokens, GrantsIn(s.grants, x, y) as real, s.lastRefill, s.now, x, y);
  }

  lemma {:induction false} EarningBalances(c: Config, t: real, t': real, w: real, last: real, now: real, x: real,
                                           y: real)
    requires Balanced(c, t, w, last, now, x, y) && c.Floor() * (t' - t) <= now - last
    ensures Balanced(c, t', w, now, now, x, y)
  {
  }

  lemma {:induction false} GrantIsPaid(c: Config, s: Pacer, x: real, y: real)
    requires c.Valid() && Sound(c, s) && Paid(c, s, x, y) && s.lastRefill == s.now && CanGrant(s)
    ensures Sound(c, GrantOne(s)) && Paid(c, GrantOne(s), x, y)
  {
    var s' := GrantOne(s);
    assert s'.grants[..|s.grants|] == s.grants;
    var w, w', f, b := GrantsIn(s.grants, x, y) as real, GrantsIn(s'.grants, x, y) as real, c.Floor(), c.burst as real;
    if x <= s.now <= y {
      assert w' == w + 1.0 && s'.tokens + w' - b == s.tokens + w - b;
      if w == 0.0 {
        assert f * (s'.tokens + w' - b) <= 0.0;
      }
      assert f * (w' - b) <= f * (s'.tokens + w' - b);
    }
  }

  lemma {:induction false} DrainIsPaid(c: Config, s: Pacer, x: real, y: real)
    requires c.Valid() && Sound(c, s) && Paid(c, s, x, y) && s.lastRefill == s.now
    ensures Sound(c, Drain(s)) && Paid(c, Drain(s), x, y) && Drain(s).now == s.now
    decreases |s.queue|
  {
    if CanGrant(s) {
      GrantIsPaid(c, s, x, y);
      DrainIsPaid(c, GrantOne(s), x, y);
    }
  }

  lemma {:induction false} StretchIsPaid(c: Config, s: Pacer, s2: Pacer, x: real, y: real)
    requires c.Valid() && Sound(c, s) && Paid(c, s, x, y)
    requires s2 == Refill(c, s).(queue := s2.queue, joined := s2.joined)
    ensures Sound(c, Drain(s2)) && Paid(c, Drain(s2), x, y)
  {
    RefillEarnsAtMost(c, s);
    RefillIsPaid(c, s, x, y);
    DrainIsPaid(c, s2, x, y);
  }

  lemma {:induction false} PerformIsPaid(c: Config, s: Pacer, at: real, op: Op, x: real, y: real)
    requires c.Valid() && Sound(c, s) && Paid(c, s, x, y)
    requires s.now <= at && (op.Adapt? ==> c.minInterval <= op.interval)
    ensures Sound(c, Perform(c, s, at, op)) && Paid(c, Perform(c, s, at, op), x, y)
  {
    var s1 := s.(now := at);
    match op
    case Join(interactive) => StretchIsPaid(c, s1, Enqueue(Refill(c, s1), interactive), x, y);
    case Poll => StretchIsPaid(c, s1, Refill(c, s1), x, y);
    case Withdraw(_) =>
    case Adapt(_) =>
  }

  lemma {:induction false} RunIsPaid(c: Config, states: seq<Pacer>, times: seq<real>, ops: seq<Op>, i: nat, x: real,
                                     y: real)
    requires c.Valid() && Run(c, states, times, ops) && i < |states|
    ensures Sound(c, states[i]) && Paid(c, states[i], x, y)
    decreases i
  {
    if i > 0 {
      RunIsPaid(c, states, times, ops, i - 1, x, y);
      assert Stepped(c, states[i - 1], times[i - 1], ops[i - 1], states[i]);
      PerformIsPaid(c, states[i - 1], times[i - 1], ops[i - 1], x, y);
    }
  }

  /** In any run, the grants of any window number at most the burst plus the window's length divided by the
      configured interval, however the interval was adapted meanwhile. */
  lemma {:induction false} RateBound(c: Config, states: seq<Pacer>, times: seq<real>, ops: seq<Op>, i: nat, x: real,
                                     y: real)
    requires c.Valid() && Run(c, states, times, ops) && i < |states| && x <= y
    ensures GrantsIn(states[i].grants, x, y) as real <= c.burst as real + (y - x) / c.minInterval
  {
    RunIsPaid(c, states, times, ops, i, x, y);
    Afforded(c.Floor(), c.minInterval, GrantsIn(states[i].grants, x, y) as real - c.burst as real, y - x);
  }

  lemma {:induction false} Afforded(f: real, m: real, excess: real, span: real)
    requires 0.0 < m <= f && 0.0 <= span && (excess <= 0.0 || f * excess <= span)
    ensures excess <= span / m
  {
  }

  // ---------------------------------------------------------------- order of grants

  ghost predicate InOrder(s: Pacer) {
    && (forall i | 0 <= i < |s.queue| ::
          s.queue[i].ticket < |s.joined| && s.queue[i].interactive == s.joined[s.queue[i].ticket])
    && (forall i, j | 0 <= i < j < |s.queue| :: s.queue[i].ticket < s.queue[j].ticket)
  }

  predicate Granted(grants: seq<Grant>, ticket: nat) {
    exists j :: 0 <= j < |grants| && grants[j].waiter.ticket == ticket
  }

  /** Every ticket is queued, granted or withdrawn. */
  ghost predicate NoneLost(s: Pacer) {
    forall t: nat | t < |s.joined| :: Waiting(s.queue, t) || Granted(s.grants, t) || t in s.left
  }

  /** No ticket is granted twice, or while it still waits. */
  ghost predicate NoneTwice(s: Pacer) {
    && (forall i, j | 0 <= i < |s.queue| && 0 <= j < |s.grants| :: s.queue[i].ticket != s.grants[j].waiter.ticket)
    && (forall i, j | 0 <= i < j < |s.grants| :: s.grants[i].waiter.ticket != s.grants[j].waiter.ticket)
    && (forall i | 0 <= i < |s.grants| ::
          s.grants[i].waiter.ticket < |s.joined| &&
          s.grants[i].waiter.interactive == s.joined[s.grants[i].waiter.ticket])
  }

  ghost predicate Accounted(s: Pacer) { NoneLost(s) && NoneTwice(s) }

  /** Grant i served its class in order of arrival. */
  ghost predicate ServedInTurn(s: Pacer, i: nat)
    requires i < |s.grants| && s.grants[i].waiter.ticket <= |s.joined|
  {
    forall t: nat | t < s.grants[i].waiter.ticket && s.joined[t] == s.grants[i].waiter.interactive ::
      t in s.left || Granted(s.grants[..i], t)
  }

  ghost predicate Fair(s: Pacer) {
    InOrder(s) && Accounted(s) && forall i | 0 <= i < |s.grants| :: ServedInTurn(s, i)
  }

  lemma {:induction false} GrantIsFair(s: Pacer)
    requires Fair(s) && CanGrant(s)
    ensures Fair(GrantOne(s))
  {
    var s', p := GrantOne(s), Pick(s.queue);
    var w, n := s.queue[p], |s.grants|;
    GrantIsAccounted(s);
    forall i | 0 <= i < |s'.grants| ensures ServedInTurn(s', i) {
      if i < n {
        assert s'.grants[..i] == s.grants[..i];
        assert ServedInTurn(s, i);
      } else {
        assert s'.grants[..n] == s.grants;
        forall t: nat | t < w.ticket && s.joined[t] == w.interactive ensures t in s.left || Granted(s.grants, t) {
          EarlierOfClassIsGone(s, t);
        }
      }
    }
  }

  lemma {:induction false} EarlierOfClassIsGone(s: Pacer, t: nat)
    requires InOrder(s) && Accounted(s) && CanGrant(s)
    requires t < s.queue[Pick(s.queue)].ticket && s.joined[t] == s.queue[Pick(s.queue)].interactive
    ensures t in s.left || Granted(s.grants, t)
  {
  }

  function Cut(queue: seq<Waiter>, p: nat): seq<Waiter>
    requires p < |queue|
  {
    queue[..p] + queue[p + 1..]
  }

  lemma {:induction false} CutStillWaits(queue: seq<Waiter>, p: nat, t: nat)
    requires p < |queue| && Waiting(queue, t) && t != queue[p].ticket
    ensures Waiting(Cut(queue, p), t)
  {
    var k :| 0 <= k < |queue| && queue[k].ticket == t;
    assert Cut(queue, p)[if k < p then k else k - 1].ticket == t;
  }

  lemma {:induction false} CutElements(queue: seq<Waiter>, p: nat)
    requires p < |queue|
    ensures forall k | 0 <= k < |Cut(queue, p)| :: Cut(queue, p)[k] == queue[if k < p then k else k + 1]
  {
  }

  lemma {:induction false} GrantIsAccounted(s: Pacer)
    requires InOrder(s) && Accounted(s) && CanGrant(s)
    ensures InOrder(GrantOne(s)) && Accounted(GrantOne(s))
  {
    assert GrantOne(s).queue == Cut(s.queue, Pick(s.queue));
    CutElements(s.queue, Pick(s.queue));
    GrantLosesNone(s);
    GrantsNoneTwice(s);
  }

  lemma {:induction false} GrantsNoneTwice(s: Pacer)
    requires InOrder(s) && NoneTwice(s) && CanGrant(s)
    ensures NoneTwice(GrantOne(s))
  {
  }

  lemma {:induction false} GrantLosesNone(s: Pacer)
    requires NoneLost(s) && CanGrant(s)
    ensures NoneLost(GrantOne(s))
  {
    var s', p, n := GrantOne(s), Pick(s.queue), |s.grants|;
    assert s'.queue == Cut(s.queue, p) && s'.grants[n].waiter == s.queue[p];
    forall t: nat | t < |s'.joined| ensures Waiting(s'.queue, t) || Granted(s'.grants, t) || t in s'.left {
      if Waiting(s.queue, t) {
        if t != s.queue[p].ticket { CutStillWaits(s.queue, p, t); }
      } else if j :| 0 <= j < n && s.grants[j].waiter.ticket == t {
        assert s'.grants[j].waiter.ticket == t;
      }
    }
  }

  lemma {:induction false} DrainIsFair(s: Pacer)
    requires Fair(s)
    ensures Fair(Drain(s))
    decreases |s.queue|
  {
    if CanGrant(s) {
      GrantIsFair(s);
      DrainIsFair(GrantOne(s));
    }
  }

  lemma {:induction false} EnqueueIsFair(s: Pacer, interactive: bool)
    requires Fair(s)
    ensures Fair(Enqueue(s, interactive))
  {
    var s', n := Enqueue(s, interactive), |s.queue|;
    forall t: nat | t < |s'.joined| ensures Waiting(s'.queue, t) || Granted(s'.grants, t) || t in s'.left {
      if k :| 0 <= k < n && s.queue[k].ticket == t {
        assert s'.queue[k].ticket == t;
      } else if t == |s.joined| {
        assert s'.queue[n].ticket == t;
      }
    }
    forall i | 0 <= i < |s'.grants| ensures ServedInTurn(s', i) {
      assert ServedInTurn(s, i);
    }
  }

  function Withdrawn(s: Pacer, p: nat): Pacer
    requires p < |s.queue|
  {
    s.(queue := Cut(s.queue, p), left := s.left + {s.queue[p].ticket})
  }

  lemma {:induction false} WithdrawLosesNone(s: Pacer, p: nat)
    requires NoneLost(s) && p < |s.queue|
    ensures NoneLost(Withdrawn(s, p))
  {
    var s' := Withdrawn(s, p);
    forall t: nat | t < |s'.joined| ensures Waiting(s'.queue, t) || Granted(s'.grants, t) || t in s'.left {
      if Waiting(s.queue, t) && t != s.queue[p].ticket { CutStillWaits(s.queue, p, t); }
    }
  }

  lemma {:induction false} WithdrawKeepsOrder(s: Pacer, p: nat)
    requires InOrder(s) && NoneTwice(s) && p < |s.queue|
    ensures InOrder(Withdrawn(s, p)) && NoneTwice(Withdrawn(s, p))
  {
    CutElements(s.queue, p);
  }

  lemma {:induction false} WithdrawIsFair(s: Pacer, ticket: nat)
    requires Fair(s) && Waiting(s.queue, ticket)
    ensures Fair(s.(queue := Without(s.queue, ticket), left := s.left + {ticket}))
  {
    var p :| 0 <= p < |s.queue| && s.queue[p].ticket == ticket;
    WithoutCutsFirst(s.queue, p);
    WithdrawLosesNone(s, p);
    WithdrawKeepsOrder(s, p);
    forall i | 0 <= i < |s.grants| ensures ServedInTurn(Withdrawn(s, p), i) {
      assert ServedInTurn(s, i);
    }
  }

  lemma {:induction false} PerformIsFair(c: Config, s: Pacer, at: real, op: Op)
    requires Fair(s)
    ensures Fair(Perform(c, s, at, op))
  {
    var s1 := s.(now := at);
    assert Fair(s1) by { SameQueueIsFair(s, s1); }
    SameQueueIsFair(s, Refill(c, s1));
    match op
    case Join(interactive) =>
      EnqueueIsFair(Refill(c, s1), interactive);
      DrainIsFair(Enqueue(Refill(c, s1), interactive));
    case Poll => DrainIsFair(Refill(c, s1));
    case Withdraw(ticket) => if Waiting(s.queue, ticket) { WithdrawIsFair(s1, ticket); }
    case Adapt(interval) => SameQueueIsFair(s, s1.(interval := interval));
  }

  lemma {:induction false} SameQueueIsFair(s: Pacer, s': Pacer)
    requires Fair(s) && s'.queue == s.queue && s'.joined == s.joined && s'.grants == s.grants && s'.left == s.left
    ensures Fair(s')
  {
    forall i | 0 <= i < |s'.grants| ensures ServedInTurn(s', i) {
      assert ServedInTurn(s, i);
    }
  }

  /** In any run, each grant serves its class in order of arrival: every earlier ticket of the class was
      granted before it or withdrawn; and no ticket is granted twice. */
  lemma {:induction false} GrantsAreFifo(c: Config, states: seq<Pacer>, times: seq<real>, ops: seq<Op>, i: nat)
    requires Run(c, states, times, ops) && i < |states|
    ensures Fair(states[i])
    decreases i
  {
    if i > 0 {
      GrantsAreFifo(c, states, times, ops, i - 1);
      assert Stepped(c, states[i - 1], times[i - 1], ops[i - 1], states[i]);
      PerformIsFair(c, states[i - 1], times[i - 1], ops[i - 1]);
    }
  }

  /** Every interactive ticket is among those granted before or was withdrawn. */
  ghost predicate InteractiveServed(s: Pacer, before: seq<Grant>) {
    forall t: nat | t < |s.joined| && s.joined[t] :: t in s.left || Granted(before, t)
  }

  /** In any run, whenever a background ticket is granted, no interactive one is in the queue it was picked from:
      each that had arrived was granted before it or withdrawn. */
  lemma {:induction false} InteractiveFirst(c: Config, states: seq<Pacer>, times: seq<real>, ops: seq<Op>, i: nat,
                                            k: nat)
    requires Run(c, states, times, ops) && i < |ops|
    requires |states[i].grants| <= k < |states[i + 1].grants| && !states[i + 1].grants[k].waiter.interactive
    ensures InteractiveServed(states[i + 1], states[i + 1].grants[..k])
  {
    GrantsAreFifo(c, states, times, ops, i);
    assert Stepped(c, states[i], times[i], ops[i], states[i + 1]);
    PerformServesInteractive(c, states[i], times[i], ops[i], k);
  }

  lemma {:induction false} PerformServesInteractive(c: Config, s: Pacer, at: real, op: Op, k: nat)
    requires Fair(s) && |s.grants| <= k < |Perform(c, s, at, op).grants|
    requires !Perform(c, s, at, op).grants[k].waiter.interactive
    ensures InteractiveServed(Perform(c, s, at, op), Perform(c, s, at, op).grants[..k])
  {
    var s1 := Refill(c, s.(now := at));
    SameQueueIsFair(s, s1);
    if op.Join? {
      EnqueueIsFair(s1, op.interactive);
      DrainServesInteractive(Enqueue(s1, op.interactive), k);
    } else {
      DrainServesInteractive(s1, k);
    }
  }

  lemma {:induction false} DrainServesInteractive(s: Pacer, k: nat)
    requires Fair(s) && |s.grants| <= k < |Drain(s).grants| && !Drain(s).grants[k].waiter.interactive
    ensures InteractiveServed(Drain(s), Drain(s).grants[..k])
    decreases |s.queue|
  {
    DrainExtends(GrantOne(s));
    if k == |s.grants| {
      assert Drain(s).grants[..k] == s.grants;
      forall t: nat | t < |s.joined| && s.joined[t] ensures t in s.left || Granted(s.grants, t) {
        assert !Waiting(s.queue, t);
      }
    } else {
      GrantIsFair(s);
      DrainServesInteractive(GrantOne(s), k);
    }
  }

  lemma {:induction false} DrainExtends(s: Pacer)
    ensures s.grants <= Drain(s).grants && Drain(s).joined == s.joined && Drain(s).left == s.left
    decreases |s.queue|
  {
    if CanGrant(s) {
      DrainExtends(GrantOne(s));
    }
  }
}
