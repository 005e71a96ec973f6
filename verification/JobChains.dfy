/** How long a chain of retries takes: a rank that every step of the chain lowers, whatever is cancelled. */
module JobChains {
  import opened JobQueue
  import opened JobQueueRuns
  import opened Wrappers

  ghost predicate IsQueued(s: Sys, o: nat) { exists job :: job in s.core.queued && job.origin == o }

  ghost predicate IsRunning(s: Sys, o: nat) { exists w :: w in s.running && s.running[w].origin == o }

  ghost predicate InBackoff(s: Sys, o: nat) {
    exists t :: t in s.retries && s.retries[t].origin == o && s.retries[t].waiting.None?
  }

  /** The retry tasks of the chain that await a future. */
  function Awaiting(s: Sys, o: nat): set<nat> {
    set t | t in s.retries && s.retries[t].origin == o && s.retries[t].waiting.Some?
  }

  /** What the phase of the head counts: a retry about to be enqueued counts two more than a queued job, one of them
      for the answer it will wait for. */
  ghost function Phase(s: Sys, o: nat): nat {
    if IsQueued(s, o) then 2 else if IsRunning(s, o) then 1 else if InBackoff(s, o) then 4 else 0
  }

  /** What is left for the head of the chain: its phase, and five for each run it may still take after this one. */
  ghost function Head(c: Config, s: Sys, o: nat): nat
    requires o < |s.runs|
  {
    Phase(s, o) + if Phase(s, o) > 0 && s.runs[o] <= c.maxRetries then 5 * (c.maxRetries - s.runs[o]) else 0
  }

  /** What is left for the whole chain. */
  ghost function Rank(c: Config, s: Sys, o: nat): nat
    requires o < |s.runs|
  {
    Head(c, s, o) + |Awaiting(s, o)|
  }

  /** The step is one of the chain: it moves the head, or passes an outcome on. */
  predicate Moves(s: Sys, l: Label, o: nat)
    requires Enabled(s, l)
  {
    match l
    case Begin(_, job) => job.origin == o
    case Finish(w, _, _, _) => s.running[w].origin == o
    case WakeRetry(task) => s.retries[task].origin == o
    case EndRetry(task) => s.retries[task].origin == o
    case _ => false
  }

  // ---------------------------------------------------------------- the phase of the head

  /** The head of the chain is h, and nobody else heads it. */
  ghost predicate HeadIs(s: Sys, o: nat, h: Holder) {
    && Front(s, h) && LoadOf(s, h).origin == o
    && forall g | Front(s, g) && LoadOf(s, g).origin == o :: g == h
  }

  ghost predicate Headless(s: Sys, o: nat) {
    forall g | Front(s, g) :: LoadOf(s, g).origin != o
  }

  lemma {:induction false} PhaseOf(s: Sys, o: nat, h: Holder)
    requires HeadIs(s, o, h)
    ensures Phase(s, o) == match h case Waiting(_) => 2 case OnWorker(_) => 1 case Task(_) => 4
  {
    if job :| job in s.core.queued && job.origin == o { assert Front(s, Waiting(job)); }
    if w :| w in s.running && s.running[w].origin == o { assert Front(s, OnWorker(w)); }
    if t :| t in s.retries && s.retries[t].origin == o && s.retries[t].waiting.None? { assert Front(s, Task(t)); }
    match h
    case Waiting(job) => assert job in s.core.queued && job.origin == o;
    case OnWorker(w) => assert w in s.running && s.running[w].origin == o;
    case Task(t) => assert t in s.retries && s.retries[t].origin == o && s.retries[t].waiting.None?;
  }

  lemma {:induction false} NoPhase(s: Sys, o: nat)
    requires Headless(s, o)
    ensures Phase(s, o) == 0
  {
    if job :| job in s.core.queued && job.origin == o { assert Front(s, Waiting(job)); }
    if w :| w in s.running && s.running[w].origin == o { assert Front(s, OnWorker(w)); }
    if t :| t in s.retries && s.retries[t].origin == o && s.retries[t].waiting.None? { assert Front(s, Task(t)); }
  }

  lemma {:induction false} SoleHead(c: Config, s: Sys, h: Holder)
    requires Shape(c, s) && Front(s, h)
    ensures HeadIs(s, LoadOf(s, h).origin, h) && LoadOf(s, h).origin < |s.runs|
    ensures s.runs[LoadOf(s, h).origin] == LoadOf(s, h).attempt <= c.maxRetries
  {
    assert InShape(c, s, LoadOf(s, h));
  }

  /** Only the head's own steps change who heads a chain. */
  lemma {:induction false} HeadStays(c: Config, s: Sys, l: Label, o: nat, h: Holder)
    requires Enabled(s, l) && o < |s.core.futs| && !Moves(s, l, o) && HeadIs(s, o, h)
    ensures HeadIs(Apply(c, s, l), o, h)
  {
    var s' := Apply(c, s, l);
    StaysPut(c, s, l, h);
    forall g | Front(s', g) && LoadOf(s', g).origin == o ensures g == h {
      WasFront(c, s, l, o, g);
    }
  }

  lemma {:induction false} HeadlessStays(c: Config, s: Sys, l: Label, o: nat)
    requires Enabled(s, l) && o < |s.core.futs| && !Moves(s, l, o) && Headless(s, o)
    ensures Headless(Apply(c, s, l), o)
  {
    forall g | Front(Apply(c, s, l), g) ensures LoadOf(Apply(c, s, l), g).origin != o {
      if LoadOf(Apply(c, s, l), g).origin == o { WasFront(c, s, l, o, g); }
    }
  }

  lemma {:induction false} WasFront(c: Config, s: Sys, l: Label, o: nat, g: Holder)
    requires Enabled(s, l) && o < |s.core.futs| && !Moves(s, l, o)
    requires Front(Apply(c, s, l), g) && LoadOf(Apply(c, s, l), g).origin == o
    ensures Front(s, g) && LoadOf(s, g).origin == o
  {
    if IsNew(s, g) { Born(c, s, l, g); } else { Moved(c, s, l, g); }
  }

  // ---------------------------------------------------------------- every step of the chain lowers its rank

  lemma {:induction false} BeginLowers(c: Config, s: Sys, w: nat, job: Job)
    requires Shape(c, s) && Enabled(s, Begin(w, job))
    ensures var s', o := Apply(c, s, Begin(w, job)), job.origin;
            o < |s.runs| == |s'.runs| && Rank(c, s', o) < Rank(c, s, o)
  {
    var s', o := Apply(c, s, Begin(w, job)), job.origin;
    SoleHead(c, s, Waiting(job));
    ShapeStep(c, s, Begin(w, job));
    assert Front(s', OnWorker(w)) && LoadOf(s', OnWorker(w)).origin == o;
    SoleHead(c, s', OnWorker(w));
    PhaseOf(s, o, Waiting(job));
    PhaseOf(s', o, OnWorker(w));
    assert Awaiting(s', o) == Awaiting(s, o);
  }

  lemma {:induction false} FinishLowers(c: Config, s: Sys, w: nat, x: Outcome, permanent: bool, task: nat)
    requires Shape(c, s) && Enabled(s, Finish(w, x, permanent, task))
    ensures var s', o := Apply(c, s, Finish(w, x, permanent, task)), s.running[w].origin;
            o < |s.runs| == |s'.runs| && Rank(c, s', o) < Rank(c, s, o)
  {
    var o := s.running[w].origin;
    assert Front(s, OnWorker(w)) && LoadOf(s, OnWorker(w)).origin == o;
    SoleHead(c, s, OnWorker(w));
    PhaseOf(s, o, OnWorker(w));
    AwaitingStays(c, s, w, x, permanent, task, o);
    if RetryOf(c, s.running[w], x, permanent).Some? {
      FinishBacksOff(c, s, w, x, permanent, task);
    } else {
      FinishEndsHead(c, s, w, x, permanent, task);
    }
  }

  lemma {:induction false} FinishBacksOff(c: Config, s: Sys, w: nat, x: Outcome, permanent: bool, task: nat)
    requires Shape(c, s) && Enabled(s, Finish(w, x, permanent, task))
    requires RetryOf(c, s.running[w], x, permanent).Some?
    ensures var s', o := Apply(c, s, Finish(w, x, permanent, task)), s.running[w].origin;
            Phase(s', o) == 4 && s'.runs[o] == s.runs[o] + 1 <= c.maxRetries
  {
    var s', o := Apply(c, s, Finish(w, x, permanent, task)), s.running[w].origin;
    ShapeStep(c, s, Finish(w, x, permanent, task));
    assert Front(s', Task(task)) && LoadOf(s', Task(task)).origin == o;
    SoleHead(c, s', Task(task));
    PhaseOf(s', o, Task(task));
  }

  lemma {:induction false} FinishEndsHead(c: Config, s: Sys, w: nat, x: Outcome, permanent: bool, task: nat)
    requires Shape(c, s) && Enabled(s, Finish(w, x, permanent, task))
    requires RetryOf(c, s.running[w], x, permanent).None?
    ensures Phase(Apply(c, s, Finish(w, x, permanent, task)), s.running[w].origin) == 0
  {
    var s', o := Apply(c, s, Finish(w, x, permanent, task)), s.running[w].origin;
    assert Front(s, OnWorker(w)) && LoadOf(s, OnWorker(w)).origin == o;
    SoleHead(c, s, OnWorker(w));
    forall g | Front(s', g) ensures LoadOf(s', g).origin != o {
      Moved(c, s, Finish(w, x, permanent, task), g);
    }
    NoPhase(s', o);
  }

  lemma {:induction false} AwaitingStays(c: Config, s: Sys, w: nat, x: Outcome, permanent: bool, task: nat, o: nat)
    requires Enabled(s, Finish(w, x, permanent, task))
    ensures Awaiting(Apply(c, s, Finish(w, x, permanent, task)), o) == Awaiting(s, o)
  {
  }

  lemma {:induction false} WakeLowers(c: Config, s: Sys, task: nat)
    requires Shape(c, s) && Enabled(s, WakeRetry(task))
    ensures var s', o := Apply(c, s, WakeRetry(task)), s.retries[task].origin;
            o < |s.runs| <= |s'.runs| && Rank(c, s', o) < Rank(c, s, o)
  {
    var t := s.retries[task];
    assert Front(s, Task(task)) && LoadOf(s, Task(task)).origin == t.origin;
    SoleHead(c, s, Task(task));
    PhaseOf(s, t.origin, Task(task));
    WakeAwaits(c, s, task);
    if !Full(c, s.core, t.high) && !Duplicate(s.core, t.key) {
      WakeRequeues(c, s, task);
    } else {
      WakeEndsHead(c, s, task);
    }
  }

  lemma {:induction false} WakeRequeues(c: Config, s: Sys, task: nat)
    requires Shape(c, s) && Enabled(s, WakeRetry(task)) && s.retries[task].origin < |s.runs|
    requires !Full(c, s.core, s.retries[task].high) && !Duplicate(s.core, s.retries[task].key)
    ensures var s', o := Apply(c, s, WakeRetry(task)), s.retries[task].origin;
            o < |s'.runs| && Phase(s', o) == 2 && s'.runs[o] == s.runs[o]
  {
    var s', job := Apply(c, s, WakeRetry(task)), JobOf(s, WakeRetry(task));
    ShapeStep(c, s, WakeRetry(task));
    assert Front(s', Waiting(job)) && LoadOf(s', Waiting(job)).origin == job.origin;
    SoleHead(c, s', Waiting(job));
    PhaseOf(s', job.origin, Waiting(job));
  }

  lemma {:induction false} WakeEndsHead(c: Config, s: Sys, task: nat)
    requires Shape(c, s) && Enabled(s, WakeRetry(task))
    requires Full(c, s.core, s.retries[task].high) || Duplicate(s.core, s.retries[task].key)
    ensures Phase(Apply(c, s, WakeRetry(task)), s.retries[task].origin) == 0
  {
    var s', o := Apply(c, s, WakeRetry(task)), s.retries[task].origin;
    assert Front(s, Task(task)) && LoadOf(s, Task(task)).origin == o;
    SoleHead(c, s, Task(task));
    forall g | Front(s', g) ensures LoadOf(s', g).origin != o {
      Moved(c, s, WakeRetry(task), g);
    }
    NoPhase(s', o);
  }

  lemma {:induction false} WakeAwaits(c: Config, s: Sys, task: nat)
    requires Enabled(s, WakeRetry(task))
    ensures var s', o := Apply(c, s, WakeRetry(task)), s.retries[task].origin;
            |s.runs| <= |s'.runs| && |Awaiting(s', o)| <= |Awaiting(s, o)| + 1
  {
    var s', t := Apply(c, s, WakeRetry(task)), s.retries[task];
    if Full(c, s.core, t.high) {
      assert Awaiting(s', t.origin) == Awaiting(s, t.origin);
    } else {
      assert Awaiting(s', t.origin) == Awaiting(s, t.origin) + {task};
    }
  }

  lemma {:induction false} EndLowers(c: Config, s: Sys, task: nat)
    requires Shape(c, s) && Enabled(s, EndRetry(task))
    ensures var s', o := Apply(c, s, EndRetry(task)), s.retries[task].origin;
            o < |s.runs| == |s'.runs| && Rank(c, s', o) < Rank(c, s, o)
  {
    assert InShape(c, s, LoadOf(s, Task(task)));
    PhaseAtEnd(c, s, task);
    OneAwaitsLess(c, s, task);
  }

  lemma {:induction false} OneAwaitsLess(c: Config, s: Sys, task: nat)
    requires Enabled(s, EndRetry(task))
    ensures var s', o := Apply(c, s, EndRetry(task)), s.retries[task].origin;
            s'.runs == s.runs && |Awaiting(s', o)| < |Awaiting(s, o)|
  {
    assert Apply(c, s, EndRetry(task)).retries == s.retries - {task};
    AwaitingWithout(s, Apply(c, s, EndRetry(task)), task);
  }

  lemma {:induction false} AwaitingWithout(s: Sys, s': Sys, task: nat)
    requires task in s.retries && s.retries[task].waiting.Some? && s'.retries == s.retries - {task}
    ensures |Awaiting(s', s.retries[task].origin)| < |Awaiting(s, s.retries[task].origin)|
  {
    var o := s.retries[task].origin;
    assert Awaiting(s, o) == Awaiting(s', o) + {task};
  }

  lemma {:induction false} PhaseAtEnd(c: Config, s: Sys, task: nat)
    requires Enabled(s, EndRetry(task))
    ensures Phase(Apply(c, s, EndRetry(task)), s.retries[task].origin) == Phase(s, s.retries[task].origin)
  {
    var s', o := Apply(c, s, EndRetry(task)), s.retries[task].origin;
    assert s'.core.queued == s.core.queued && s'.running == s.running;
    BackoffStays(c, s, task, o);
  }

  lemma {:induction false} BackoffStays(c: Config, s: Sys, task: nat, o: nat)
    requires Enabled(s, EndRetry(task))
    ensures InBackoff(Apply(c, s, EndRetry(task)), o) <==> InBackoff(s, o)
  {
    var s' := Apply(c, s, EndRetry(task));
    if t :| t in s.retries && s.retries[t].origin == o && s.retries[t].waiting.None? {
      assert t in s'.retries && s'.retries[t] == s.retries[t];
    }
    if t :| t in s'.retries && s'.retries[t].origin == o && s'.retries[t].waiting.None? {
      assert t in s.retries && s'.retries[t] == s.retries[t];
    }
  }

  lemma {:induction false} PhaseKept(c: Config, s: Sys, l: Label, o: nat)
    requires Shape(c, s) && Enabled(s, l) && o < |s.runs| && !Moves(s, l, o)
    ensures Phase(Apply(c, s, l), o) == Phase(s, o)
  {
    if h :| Front(s, h) && LoadOf(s, h).origin == o {
      SoleHead(c, s, h);
      HeadStays(c, s, l, o, h);
      PhaseOf(s, o, h);
      PhaseOf(Apply(c, s, l), o, h);
    } else {
      HeadlessStays(c, s, l, o);
      NoPhase(s, o);
      NoPhase(Apply(c, s, l), o);
    }
  }

  lemma {:induction false} AwaitingKept(c: Config, s: Sys, l: Label, o: nat)
    requires Enabled(s, l) && !Moves(s, l, o)
    ensures Awaiting(Apply(c, s, l), o) == Awaiting(s, o)
  {
  }

  /** A step of another chain, a new request or a cancellation leaves the rank alone. */
  lemma {:induction false} OthersKeep(c: Config, s: Sys, l: Label, o: nat)
    requires Shape(c, s) && Enabled(s, l) && o < |s.runs| && !Moves(s, l, o)
    ensures o < |Apply(c, s, l).runs| && Rank(c, Apply(c, s, l), o) == Rank(c, s, o)
  {
    assert |s.final| == |s.runs|;
    CountsStay(c, s, l, o);
    AwaitingKept(c, s, l, o);
    PhaseKept(c, s, l, o);
  }

  /** Every step of a chain lowers its rank, and no other step, cancellation or not, changes it. */
  lemma {:induction false} RankStep(c: Config, s: Sys, l: Label, o: nat)
    requires Shape(c, s) && Enabled(s, l) && o < |s.runs|
    ensures var s' := Apply(c, s, l);
            o < |s'.runs| &&
            if Moves(s, l, o) then Rank(c, s', o) < Rank(c, s, o) else Rank(c, s', o) == Rank(c, s, o)
  {
    if !Moves(s, l, o) {
      OthersKeep(c, s, l, o);
    } else {
      match l
      case Begin(w, job) => BeginLowers(c, s, w, job);
      case Finish(w, x, permanent, task) => FinishLowers(c, s, w, x, permanent, task);
      case WakeRetry(task) => WakeLowers(c, s, task);
      case EndRetry(task) => EndLowers(c, s, task);
    }
  }

  /** The steps of the chain among the steps i to k of a run. */
  ghost function StepsOf(states: seq<Sys>, labels: seq<Label>, i: nat, k: nat, o: nat): nat
    requires i <= k <= |labels| && |states| == |labels| + 1
  {
    if i == k then 0
    else StepsOf(states, labels, i, k - 1, o)
         + if Enabled(states[k - 1], labels[k - 1]) && Moves(states[k - 1], labels[k - 1], o) then 1 else 0
  }

  lemma {:induction false} RankOfStep(c: Config, states: seq<Sys>, labels: seq<Label>, k: nat, o: nat)
    requires Run(c, states, labels) && k < |labels| && o < |states[k].runs|
    ensures o < |states[k + 1].runs|
    ensures StepsOf(states, labels, k, k + 1, o) + Rank(c, states[k + 1], o) <= Rank(c, states[k], o)
  {
    ChainsInShape(c, states, labels, k);
    assert Stepped(c, states[k], labels[k], states[k + 1]);
    RankStep(c, states[k], labels[k], o);
  }

  lemma {:induction false} StepsAddUp(states: seq<Sys>, labels: seq<Label>, i: nat, k: nat, o: nat)
    requires i <= k < |labels| && |states| == |labels| + 1
    ensures StepsOf(states, labels, i, k + 1, o) ==
            StepsOf(states, labels, i, k, o) + StepsOf(states, labels, k, k + 1, o)
  {
  }

  /** On every run, with any cancellations, a chain takes at most as many steps from a state as its rank there. */
  lemma {:induction false} ChainEnds(c: Config, states: seq<Sys>, labels: seq<Label>, i: nat, k: nat, o: nat)
    requires Run(c, states, labels) && i <= k < |states| && o < |states[i].runs|
    ensures o < |states[k].runs|
    ensures StepsOf(states, labels, i, k, o) + Rank(c, states[k], o) <= Rank(c, states[i], o)
    decreases k
  {
    if i < k {
      ChainEnds(c, states, labels, i, k - 1, o);
      RankOfStep(c, states, labels, k - 1, o);
      StepsAddUp(states, labels, i, k - 1, o);
    }
  }

  /** At rank zero, and only there, nobody of the chain is left. */
  lemma {:induction false} RankZeroIsOver(c: Config, s: Sys, o: nat)
    requires Shape(c, s) && o < |s.runs|
    ensures Rank(c, s, o) == 0 <==> forall h | Holds(s, h) :: LoadOf(s, h).origin != o
  {
    if h :| Holds(s, h) && LoadOf(s, h).origin == o {
      SomebodyCounts(c, s, h);
    } else {
      NobodyCounts(c, s, o);
    }
  }

  lemma {:induction false} SomebodyCounts(c: Config, s: Sys, h: Holder)
    requires Shape(c, s) && Holds(s, h) && LoadOf(s, h).origin < |s.runs|
    ensures Rank(c, s, LoadOf(s, h).origin) > 0
  {
    if Front(s, h) {
      SoleHead(c, s, h);
      PhaseOf(s, LoadOf(s, h).origin, h);
    } else {
      assert h.task in Awaiting(s, LoadOf(s, h).origin);
    }
  }

  lemma {:induction false} NobodyCounts(c: Config, s: Sys, o: nat)
    requires o < |s.runs| && forall h | Holds(s, h) :: LoadOf(s, h).origin != o
    ensures Rank(c, s, o) == 0
  {
    forall t | t in s.retries ensures s.retries[t].origin != o {
      assert Holds(s, Task(t)) && LoadOf(s, Task(t)).origin == s.retries[t].origin;
    }
    assert Awaiting(s, o) == {};
    NoPhase(s, o);
  }

  /** At rank zero every future of the chain that was never forgotten is settled. */
  lemma {:induction false} RankZeroIsSettled(c: Config, states: seq<Sys>, labels: seq<Label>, i: nat, f: nat)
    requires Run(c, states, labels) && i < |states| && NeverForgotten(states, labels, i, f)
    requires f < |states[i].core.futs| && states[i].core.futs[f].origin < |states[i].runs|
    requires Rank(c, states[i], states[i].core.futs[f].origin) == 0
    ensures states[i].core.futs[f].outcome.Some?
  {
    var s := states[i];
    ChainsInShape(c, states, labels, i);
    PendingIsHeld(c, states, labels, i, f);
    forall h | Holds(s, h) ensures LoadOf(s, h).fut == f ==> LoadOf(s, h).origin == s.core.futs[f].origin {
      assert InShape(c, s, LoadOf(s, h));
    }
    assert forall h | IsHolderOf(s, h, f) :: Holds(s, h);
    RankZeroIsOver(c, s, s.core.futs[f].origin);
  }

  /** An accepted request starts a chain that is over after five steps for each retry and two more, at most. */
  lemma {:induction false} FreshChain(c: Config, s: Sys, key: Option<nat>, high: bool)
    requires Shape(c, s) && !Full(c, s.core, high) && !Duplicate(s.core, key)
    ensures var s', o := Apply(c, s, Request(key, high)), |s.core.futs|;
            && o < |s'.runs| && s'.core.futs[o] == Fut(None, o, key)
            && Rank(c, s', o) == 5 * c.maxRetries + 2
  {
    var l := Request(key, high);
    var s', o := Apply(c, s, l), |s.core.futs|;
    ShapeStep(c, s, l);
    assert Front(s', Waiting(JobOf(s, l))) && LoadOf(s', Waiting(JobOf(s, l))).origin == o;
    SoleHead(c, s', Waiting(JobOf(s, l)));
    PhaseOf(s', o, Waiting(JobOf(s, l)));
    forall t | t in s'.retries ensures s'.retries[t].origin != o {
      assert Holds(s, Task(t)) && LoadOf(s, Task(t)).origin == s.retries[t].origin;
      JobIsNew(c, s, Task(t));
    }
    assert Awaiting(s', o) == {};
  }
}
