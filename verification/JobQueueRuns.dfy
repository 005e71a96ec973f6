/** What holds over every run of the job queue, whatever its callers cancel. */
module JobQueueRuns {
  import opened JobQueue
  import opened Wrappers

  /** Whoever is responsible for settling a future: a queued job, a running job, or a retry task. */
  datatype Holder = Waiting(job: Job) | OnWorker(w: nat) | Task(task: nat)

  datatype Load = Load(key: Option<nat>, attempt: nat, fut: nat, origin: nat, waiting: Option<nat>)

  predicate Holds(s: Sys, h: Holder) {
    match h
    case Waiting(job) => job in s.core.queued
    case OnWorker(w) => w in s.running
    case Task(task) => task in s.retries
  }

  function LoadOf(s: Sys, h: Holder): Load
    requires Holds(s, h)
  {
    match h
    case Waiting(job) => Load(job.key, job.attempt, job.fut, job.origin, None)
    case OnWorker(w) => var job := s.running[w]; Load(job.key, job.attempt, job.fut, job.origin, None)
    case Task(task) => var t := s.retries[task]; Load(t.key, t.attempt, t.original, t.origin, t.waiting)
  }

  /** The holder is the head of its chain: it will run the handler, or enqueue who will. */
  predicate Front(s: Sys, h: Holder) { Holds(s, h) && LoadOf(s, h).waiting.None? }

  ghost predicate OneHolderPerFuture(s: Sys) {
    forall g, h | Holds(s, g) && Holds(s, h) && LoadOf(s, g).fut == LoadOf(s, h).fut :: g == h
  }

  ghost predicate OneFrontPerChain(s: Sys) {
    forall g, h | Front(s, g) && Front(s, h) && LoadOf(s, g).origin == LoadOf(s, h).origin :: g == h
  }

  /** A load is in shape: it has the key and the chain of its future; what is in flight under its key is not older;
      the head of a chain has used as many runs as its attempt number, and its chain has no outcome; a retry awaits a
      future of its key, its own or a later one, and without a key a later one of its chain. */
  predicate InShape(c: Config, s: Sys, load: Load) {
    && load.origin <= load.fut < |s.core.futs| == |s.runs| == |s.final|
    && s.core.futs[load.fut].origin == load.origin && s.core.futs[load.fut].key == load.key
    && (load.key.Some? && load.key.value in s.core.inFlight ==> load.fut <= s.core.inFlight[load.key.value])
    && match load.waiting
       case None => s.runs[load.origin] == load.attempt <= c.maxRetries && s.final[load.origin].None?
       case Some(f) =>
         && load.fut <= f < |s.core.futs| && s.core.futs[f].key == load.key
         && (load.key.None? ==> load.fut < f && s.core.futs[f].origin == load.origin)
  }

  ghost predicate AllInShape(c: Config, s: Sys) {
    forall h | Holds(s, h) :: InShape(c, s, LoadOf(s, h))
  }

  /** A chain has one key and runs its handler within the budget; a key has a future of its own in flight. */
  ghost predicate Booked(c: Config, s: Sys) {
    && |s.runs| == |s.final| == |s.core.futs|
    && (forall f {:trigger s.core.futs[f].origin} | 0 <= f < |s.core.futs| ::
          s.core.futs[f].origin <= f && s.core.futs[s.core.futs[f].origin].key == s.core.futs[f].key)
    && (forall k | k in s.core.inFlight ::
          s.core.inFlight[k] < |s.core.futs| && s.core.futs[s.core.inFlight[k]].key == Some(k))
    && (forall o | 0 <= o < |s.runs| :: s.runs[o] <= c.maxRetries + 1 && s.final[o] != Some(Cancelled))
  }

  ghost predicate Shape(c: Config, s: Sys) {
    OneHolderPerFuture(s) && OneFrontPerChain(s) && AllInShape(c, s) && Booked(c, s)
  }

  // ---------------------------------------------------------------- who holds what after a step

  /** Who holds the future of h after the step. */
  function Next(s: Sys, l: Label, h: Holder): Holder {
    if l.Begin? && h == Waiting(l.job) then OnWorker(l.w)
    else if l.Finish? && h == OnWorker(l.w) then Task(l.task)
    else h
  }

  /** Whose future h holds after the step. */
  function Before(s: Sys, l: Label, h: Holder): Holder {
    if l.Begin? && h == OnWorker(l.w) then Waiting(l.job)
    else if l.Finish? && h == Task(l.task) then OnWorker(l.w)
    else h
  }

  /** Whose step it is, if it is a holder's. */
  function Actor(l: Label): Option<Holder> {
    match l
    case Begin(_, job) => Some(Waiting(job))
    case Finish(w, _, _, _) => Some(OnWorker(w))
    case WakeRetry(task) => Some(Task(task))
    case EndRetry(task) => Some(Task(task))
    case _ => None
  }

  predicate IsNew(s: Sys, h: Holder) { h.Waiting? && h.job !in s.core.queued }

  /** The job that a request or a retry adds. */
  function JobOf(s: Sys, l: Label): Job
    requires Enabled(s, l) && (l.Request? || l.WakeRetry?)
  {
    var f := |s.core.futs|;
    if l.Request? then Job(l.key, l.high, 0, f, f)
    else var t := s.retries[l.task]; Job(t.key, t.high, t.attempt, f, t.origin)
  }

  /** A fresh job has the next future, in flight under its key. */
  lemma {:induction false} Born(c: Config, s: Sys, l: Label, h: Holder)
    requires Enabled(s, l) && Holds(Apply(c, s, l), h) && IsNew(s, h)
    ensures (l.Request? || l.WakeRetry?) && h == Waiting(JobOf(s, l))
    ensures var s', job := Apply(c, s, l), JobOf(s, l);
            && s'.core.futs == s.core.futs + [Fut(None, job.origin, job.key)]
            && (job.key.Some? ==> job.key.value in s'.core.inFlight && s'.core.inFlight[job.key.value] == job.fut)
            && s'.runs == s.runs + [0] && s'.final == s.final + [None] && !Duplicate(s.core, job.key)
  {
  }

  /** Every other holder has the future, the chain and the key it had or took over. */
  lemma {:induction false} Moved(c: Config, s: Sys, l: Label, h: Holder)
    requires Enabled(s, l) && Holds(Apply(c, s, l), h) && !IsNew(s, h)
    ensures var s', g := Apply(c, s, l), Before(s, l, h);
            && Holds(s, g) && h == Next(s, l, g)
            && LoadOf(s', h).fut == LoadOf(s, g).fut && LoadOf(s', h).origin == LoadOf(s, g).origin
            && LoadOf(s', h).key == LoadOf(s, g).key
            && (Actor(l) != Some(g) ==> h == g && LoadOf(s', h) == LoadOf(s, g))
            && (Front(s', h) ==> Front(s, g) && (l.WakeRetry? ==> g != Task(l.task)))
  {
  }

  /** Whoever does not take the step keeps its load. */
  lemma {:induction false} StaysPut(c: Config, s: Sys, l: Label, h: Holder)
    requires Enabled(s, l) && Holds(s, h) && Actor(l) != Some(h)
    ensures Holds(Apply(c, s, l), h) && LoadOf(Apply(c, s, l), h) == LoadOf(s, h)
  {
  }

  // ---------------------------------------------------------------- the shape survives every step

  lemma {:induction false} JobIsNew(c: Config, s: Sys, h: Holder)
    requires AllInShape(c, s) && Holds(s, h)
    ensures LoadOf(s, h).fut < |s.core.futs| && LoadOf(s, h).origin < |s.core.futs|
  {
    assert InShape(c, s, LoadOf(s, h));
  }

  /** Futures keep chain and key, and what comes in flight is new. */
  ghost predicate Grows(s: Sys, s': Sys) {
    && |s.core.futs| <= |s'.core.futs| == |s'.runs| == |s'.final|
    && (forall f | 0 <= f < |s.core.futs| ::
          s'.core.futs[f].origin == s.core.futs[f].origin && s'.core.futs[f].key == s.core.futs[f].key)
    && (forall k | k in s'.core.inFlight ::
          (k in s.core.inFlight && s'.core.inFlight[k] == s.core.inFlight[k]) ||
          (s'.core.inFlight[k] == |s.core.futs| < |s'.core.futs| && s'.core.futs[|s.core.futs|].key == Some(k)))
  }

  lemma {:induction false} StepGrows(c: Config, s: Sys, l: Label)
    requires Enabled(s, l) && |s.runs| == |s.final| == |s.core.futs|
    ensures Grows(s, Apply(c, s, l))
  {
    FuturesGrow(c, s, l);
    forall k | k in Apply(c, s, l).core.inFlight
      ensures var s' := Apply(c, s, l);
              (k in s.core.inFlight && s'.core.inFlight[k] == s.core.inFlight[k]) ||
              (s'.core.inFlight[k] == |s.core.futs| < |s'.core.futs| && s'.core.futs[|s.core.futs|].key == Some(k))
    {
      InFlightGrows(c, s, l, k);
    }
  }

  lemma {:induction false} FuturesGrow(c: Config, s: Sys, l: Label)
    requires Enabled(s, l) && |s.runs| == |s.final| == |s.core.futs|
    ensures var s' := Apply(c, s, l);
            && |s.core.futs| <= |s'.core.futs| == |s'.runs| == |s'.final|
            && forall f | 0 <= f < |s.core.futs| ::
                 s'.core.futs[f].origin == s.core.futs[f].origin && s'.core.futs[f].key == s.core.futs[f].key
  {
  }

  lemma {:induction false} InFlightGrows(c: Config, s: Sys, l: Label, k: nat)
    requires Enabled(s, l) && k in Apply(c, s, l).core.inFlight
    ensures var s' := Apply(c, s, l);
            (k in s.core.inFlight && s'.core.inFlight[k] == s.core.inFlight[k]) ||
            (s'.core.inFlight[k] == |s.core.futs| < |s'.core.futs| && s'.core.futs[|s.core.futs|].key == Some(k))
  {
  }

  /** The step may give chain o a run or its outcome. */
  predicate Touches(s: Sys, l: Label, o: nat)
    requires Enabled(s, l)
  {
    (l.Finish? && s.running[l.w].origin == o) || (l.WakeRetry? && s.retries[l.task].origin == o)
  }

  lemma {:induction false} LoadStays(c: Config, s: Sys, l: Label, load: Load)
    requires Enabled(s, l) && InShape(c, s, load) && (Touches(s, l, load.origin) ==> load.waiting.Some?)
    ensures InShape(c, Apply(c, s, l), load)
  {
    StepGrows(c, s, l);
    if load.waiting.None? { CountsStay(c, s, l, load.origin); }
  }

  lemma {:induction false} CountsStay(c: Config, s: Sys, l: Label, o: nat)
    requires Enabled(s, l) && o < |s.runs| == |s.final| && !Touches(s, l, o)
    ensures var s' := Apply(c, s, l);
            o < |s'.runs| && o < |s'.final| && s'.runs[o] == s.runs[o] && s'.final[o] == s.final[o]
  {
  }

  lemma {:induction false} BornInShape(c: Config, s: Sys, l: Label, h: Holder)
    requires Enabled(s, l) && Holds(Apply(c, s, l), h) && IsNew(s, h) && |s.runs| == |s.final| == |s.core.futs|
    requires l.WakeRetry? ==> InShape(c, s, LoadOf(s, Task(l.task)))
    ensures InShape(c, Apply(c, s, l), LoadOf(Apply(c, s, l), h))
  {
    Born(c, s, l, h);
  }

  lemma {:induction false} ActorInShape(c: Config, s: Sys, l: Label, h: Holder)
    requires Enabled(s, l) && Actor(l).Some? && Holds(s, Actor(l).value) && h == Next(s, l, Actor(l).value)
    requires InShape(c, s, LoadOf(s, Actor(l).value)) && Booked(c, s) && Holds(Apply(c, s, l), h) && !IsNew(s, h)
    ensures InShape(c, Apply(c, s, l), LoadOf(Apply(c, s, l), h))
  {
    match l
    case Begin(_, _) => LoadStays(c, s, l, LoadOf(s, Actor(l).value));
    case Finish(w, x, permanent, task) => RetryInShape(c, s, w, x, permanent, task);
    case WakeRetry(_) => WakerInShape(c, s, l);
  }

  lemma {:induction false} RetryInShape(c: Config, s: Sys, w: nat, x: Outcome, permanent: bool, task: nat)
    requires Enabled(s, Finish(w, x, permanent, task)) && RetryOf(c, s.running[w], x, permanent).Some?
    requires InShape(c, s, LoadOf(s, OnWorker(w)))
    ensures var s' := Apply(c, s, Finish(w, x, permanent, task));
            Holds(s', Task(task)) && InShape(c, s', LoadOf(s', Task(task)))
  {
  }

  lemma {:induction false} WakerInShape(c: Config, s: Sys, l: Label)
    requires Enabled(s, l) && l.WakeRetry? && Holds(Apply(c, s, l), Task(l.task))
    requires InShape(c, s, LoadOf(s, Task(l.task))) && Booked(c, s)
    ensures InShape(c, Apply(c, s, l), LoadOf(Apply(c, s, l), Task(l.task)))
  {
    var s', t := Apply(c, s, l), s.retries[l.task];
    assert !Full(c, s.core, t.high);
    if Duplicate(s.core, t.key) {
      assert s' == s.(retries := s.retries[l.task := t.(waiting := Some(s.core.inFlight[t.key.value]))]);
    } else {
      AwaitsItsJob(c, s, l.task);
    }
  }

  lemma {:induction false} AwaitsItsJob(c: Config, s: Sys, task: nat)
    requires Enabled(s, WakeRetry(task)) && |s.runs| == |s.final| == |s.core.futs|
    requires !Full(c, s.core, s.retries[task].high) && !Duplicate(s.core, s.retries[task].key)
    requires InShape(c, s, LoadOf(s, Task(task)))
    ensures var s' := Apply(c, s, WakeRetry(task));
            Holds(s', Task(task)) && InShape(c, s', LoadOf(s', Task(task)))
  {
  }

  lemma {:induction false} OtherInShape(c: Config, s: Sys, l: Label, h: Holder)
    requires Enabled(s, l) && OneFrontPerChain(s) && Holds(s, h) && Actor(l) != Some(h)
    requires InShape(c, s, LoadOf(s, h))
    ensures InShape(c, Apply(c, s, l), LoadOf(s, h))
  {
    if Front(s, h) && Touches(s, l, LoadOf(s, h).origin) {
      assert Front(s, Actor(l).value);
    }
    LoadStays(c, s, l, LoadOf(s, h));
  }

  lemma {:induction false} AllStayInShape(c: Config, s: Sys, l: Label)
    requires Enabled(s, l) && OneFrontPerChain(s) && AllInShape(c, s) && Booked(c, s)
    ensures AllInShape(c, Apply(c, s, l))
  {
    var s' := Apply(c, s, l);
    forall h | Holds(s', h) ensures InShape(c, s', LoadOf(s', h)) {
      if IsNew(s, h) {
        BornInShape(c, s, l, h);
      } else {
        Moved(c, s, l, h);
        if Actor(l) == Some(Before(s, l, h)) {
          ActorInShape(c, s, l, h);
        } else {
          OtherInShape(c, s, l, h);
        }
      }
    }
  }

  lemma {:induction false} OneHolderStays(c: Config, s: Sys, l: Label)
    requires Enabled(s, l) && OneHolderPerFuture(s) && AllInShape(c, s)
    ensures OneHolderPerFuture(Apply(c, s, l))
  {
    var s' := Apply(c, s, l);
    forall h | Holds(s', h)
      ensures IsNew(s, h) ==> LoadOf(s', h).fut == |s.core.futs| && (l.Request? || l.WakeRetry?) &&
                              h == Waiting(JobOf(s, l))
      ensures !IsNew(s, h) ==>
                var g := Before(s, l, h);
                Holds(s, g) && h == Next(s, l, g) && LoadOf(s', h).fut == LoadOf(s, g).fut < |s.core.futs|
    {
      if IsNew(s, h) { Born(c, s, l, h); } else { Moved(c, s, l, h); JobIsNew(c, s, Before(s, l, h)); }
    }
  }

  lemma {:induction false} OneFrontStays(c: Config, s: Sys, l: Label)
    requires Enabled(s, l) && OneFrontPerChain(s) && AllInShape(c, s)
    ensures OneFrontPerChain(Apply(c, s, l))
  {
    var s' := Apply(c, s, l);
    forall h | Front(s', h)
      ensures IsNew(s, h) ==>
                && (l.Request? || l.WakeRetry?) && h == Waiting(JobOf(s, l))
                && LoadOf(s', h).origin == (if l.Request? then |s.core.futs| else LoadOf(s, Task(l.task)).origin)
      ensures !IsNew(s, h) ==>
                var g := Before(s, l, h);
                && Front(s, g) && h == Next(s, l, g)
                && LoadOf(s', h).origin == LoadOf(s, g).origin < |s.core.futs| && (l.WakeRetry? ==> g != Task(l.task))
    {
      if IsNew(s, h) { Born(c, s, l, h); } else { Moved(c, s, l, h); JobIsNew(c, s, Before(s, l, h)); }
    }
    if l.WakeRetry? { assert Front(s, Task(l.task)); }
  }

  lemma {:induction false} BooksStay(c: Config, s: Sys, l: Label)
    requires Enabled(s, l) && Booked(c, s) && (Actor(l).Some? ==> Holds(s, Actor(l).value))
    requires Actor(l).Some? ==> InShape(c, s, LoadOf(s, Actor(l).value))
    ensures Booked(c, Apply(c, s, l))
  {
    var s' := Apply(c, s, l);
    StepGrows(c, s, l);
    forall o | 0 <= o < |s'.runs| ensures s'.runs[o] <= c.maxRetries + 1 && s'.final[o] != Some(Cancelled) {
      RunsStay(c, s, l, o);
    }
    forall f {:trigger s'.core.futs[f].origin} | 0 <= f < |s'.core.futs|
      ensures s'.core.futs[f].origin <= f && s'.core.futs[s'.core.futs[f].origin].key == s'.core.futs[f].key
    {
      FutureStays(c, s, l, f);
    }
  }

  lemma {:induction false} RunsStay(c: Config, s: Sys, l: Label, o: nat)
    requires Enabled(s, l) && Booked(c, s) && o < |Apply(c, s, l).runs| == |Apply(c, s, l).final|
    requires Actor(l).Some? ==> Holds(s, Actor(l).value) && InShape(c, s, LoadOf(s, Actor(l).value))
    ensures Apply(c, s, l).runs[o] <= c.maxRetries + 1 && Apply(c, s, l).final[o] != Some(Cancelled)
  {
    if o < |s.runs| {
      if Touches(s, l, o) { TouchedRuns(c, s, l, o); } else { CountsStay(c, s, l, o); }
    }
  }

  lemma {:induction false} TouchedRuns(c: Config, s: Sys, l: Label, o: nat)
    requires Enabled(s, l) && o < |s.runs| == |s.final| && Touches(s, l, o) && Holds(s, Actor(l).value)
    requires InShape(c, s, LoadOf(s, Actor(l).value))
    ensures var s' := Apply(c, s, l);
            o < |s'.runs| == |s'.final| && s'.runs[o] <= c.maxRetries + 1 && s'.final[o] != Some(Cancelled)
  {
  }

  lemma {:induction false} FutureStays(c: Config, s: Sys, l: Label, f: nat)
    requires Enabled(s, l) && Booked(c, s) && f < |Apply(c, s, l).core.futs|
    requires Actor(l).Some? ==> Holds(s, Actor(l).value) && InShape(c, s, LoadOf(s, Actor(l).value))
    ensures var futs := Apply(c, s, l).core.futs;
            futs[f].origin <= f && futs[futs[f].origin].key == futs[f].key
  {
    FuturesGrow(c, s, l);
    if f < |s.core.futs| {
      assert s.core.futs[f].origin <= f;
    } else {
      if l.WakeRetry? {
        assert s.core.futs[s.core.futs[s.retries[l.task].original].origin].key == s.retries[l.task].key;
      }
      BornOfItsChain(c, s, l, f);
    }
  }

  lemma {:induction false} BornOfItsChain(c: Config, s: Sys, l: Label, f: nat)
    requires Enabled(s, l) && |s.core.futs| <= f < |Apply(c, s, l).core.futs|
    requires l.WakeRetry? ==>
               var t := s.retries[l.task];
               && t.origin <= t.original < |s.core.futs| && s.core.futs[t.original].origin == t.origin
               && s.core.futs[t.original].key == s.core.futs[t.origin].key == t.key
    ensures var futs := Apply(c, s, l).core.futs;
            futs[f].origin <= f && futs[futs[f].origin].key == futs[f].key
  {
  }

  lemma {:induction false} ShapeStep(c: Config, s: Sys, l: Label)
    requires Shape(c, s) && Enabled(s, l)
    ensures Shape(c, Apply(c, s, l))
  {
    if Actor(l).Some? { assert Holds(s, Actor(l).value); }
    OneHolderStays(c, s, l);
    OneFrontStays(c, s, l);
    AllStayInShape(c, s, l);
    BooksStay(c, s, l);
  }

  /** On every run, with any cancellations: a future has at most one holder, a chain at most one head, the handler of
      a chain ran at most the retry budget plus one times, and a retry awaits a future of its key. */
  lemma {:induction false} ChainsInShape(c: Config, states: seq<Sys>, labels: seq<Label>, i: nat)
    requires Run(c, states, labels) && i < |states|
    ensures Shape(c, states[i])
    decreases i
  {
    if i > 0 {
      ChainsInShape(c, states, labels, i - 1);
      assert Stepped(c, states[i - 1], labels[i - 1], states[i]);
      ShapeStep(c, states[i - 1], labels[i - 1]);
    }
  }

  // ---------------------------------------------------------------- outcomes

  /** The outcome of f is that of chain o, which has the key of f; without a key it is the chain of f. */
  predicate EarnedBy(s: Sys, f: nat, o: nat)
    requires f < |s.core.futs|
  {
    && o < |s.core.futs| && o < |s.final| && s.final[o] == s.core.futs[f].outcome
    && s.core.futs[o].key == s.core.futs[f].key
    && (s.core.futs[f].key.None? ==> o == s.core.futs[f].origin)
  }

  predicate Answered(s: Sys, f: nat) {
    f < |s.core.futs| && s.core.futs[f].outcome.Some? && s.core.futs[f].outcome != Some(Cancelled)
  }

  ghost predicate Earned(s: Sys) {
    forall f | Answered(s, f) :: exists o :: EarnedBy(s, f, o)
  }

  lemma {:induction false} SettledStays(c: Config, s: Sys, l: Label, f: nat)
    requires Enabled(s, l) && f < |s.core.futs| && s.core.futs[f].outcome.Some?
    ensures f < |Apply(c, s, l).core.futs| && Apply(c, s, l).core.futs[f] == s.core.futs[f]
  {
  }

  lemma {:induction false} TouchesUnfinished(c: Config, s: Sys, l: Label, o: nat)
    requires Enabled(s, l) && AllInShape(c, s) && Touches(s, l, o)
    ensures o < |s.final| && s.final[o].None?
  {
    assert Holds(s, Actor(l).value) && InShape(c, s, LoadOf(s, Actor(l).value));
  }

  /** A future that had its answer keeps it, and so does its chain. */
  lemma {:induction false} EarnedStays(c: Config, s: Sys, l: Label, f: nat, o: nat)
    requires Enabled(s, l) && |s.runs| == |s.final| == |s.core.futs| && Answered(s, f) && EarnedBy(s, f, o)
    requires Touches(s, l, o) ==> s.final[o].None?
    ensures f < |Apply(c, s, l).core.futs| && EarnedBy(Apply(c, s, l), f, o)
  {
    SettledStays(c, s, l, f);
    StepGrows(c, s, l);
    CountsStay(c, s, l, o);
  }

  /** A head that ends gives its future the outcome of the chain. */
  lemma {:induction false} HeadEarns(c: Config, s: Sys, l: Label, f: nat)
    requires Enabled(s, l) && (l.Finish? || l.WakeRetry?) && Holds(s, Actor(l).value)
    requires InShape(c, s, LoadOf(s, Actor(l).value)) && !Answered(s, f) && Answered(Apply(c, s, l), f)
    requires s.core.futs[LoadOf(s, Actor(l).value).origin].key == LoadOf(s, Actor(l).value).key
    ensures EarnedBy(Apply(c, s, l), f, LoadOf(s, Actor(l).value).origin)
  {
    if l.WakeRetry? {
      assert Full(c, s.core, s.retries[l.task].high);
    }
  }

  /** A retry hands on what the future it awaited has earned. */
  lemma {:induction false} RetryEarns(c: Config, s: Sys, task: nat, f: nat, o: nat)
    requires Enabled(s, EndRetry(task)) && InShape(c, s, LoadOf(s, Task(task)))
    requires !Answered(s, f) && Answered(Apply(c, s, EndRetry(task)), f)
    requires EarnedBy(s, s.retries[task].waiting.value, o)
    ensures EarnedBy(Apply(c, s, EndRetry(task)), f, o)
  {
  }

  /** A future that gets its answer in a step gets that of a chain of its key. */
  lemma {:induction false} AnswerIsEarned(c: Config, s: Sys, l: Label, f: nat) returns (o: nat)
    requires Shape(c, s) && Enabled(s, l) && Earned(s) && !Answered(s, f) && Answered(Apply(c, s, l), f)
    ensures EarnedBy(Apply(c, s, l), f, o)
  {
    assert Holds(s, Actor(l).value) && InShape(c, s, LoadOf(s, Actor(l).value));
    var load := LoadOf(s, Actor(l).value);
    if l.EndRetry? {
      var g := s.retries[l.task].waiting.value;
      assert Answered(s, g);
      o :| EarnedBy(s, g, o);
      RetryEarns(c, s, l.task, f, o);
    } else {
      assert s.core.futs[s.core.futs[load.fut].origin].key == load.key;
      HeadEarns(c, s, l, f);
      o := load.origin;
    }
  }

  /** On every run, with any cancellations: a settled future is cancelled or carries the outcome of a chain of its
      key, and without a key that of its own chain. */
  lemma {:induction false} OutcomesAreEarned(c: Config, states: seq<Sys>, labels: seq<Label>, i: nat)
    requires Run(c, states, labels) && i < |states|
    ensures Earned(states[i])
    decreases i
  {
    if i > 0 {
      var s, l := states[i - 1], labels[i - 1];
      OutcomesAreEarned(c, states, labels, i - 1);
      ChainsInShape(c, states, labels, i - 1);
      assert Stepped(c, s, l, states[i]);
      forall f | Answered(states[i], f) ensures exists o :: EarnedBy(states[i], f, o) {
        if Answered(s, f) {
          var o :| EarnedBy(s, f, o);
          if Touches(s, l, o) { TouchesUnfinished(c, s, l, o); }
          EarnedStays(c, s, l, f, o);
        } else {
          var o := AnswerIsEarned(c, s, l, f);
        }
      }
    }
  }

  /** On every run, with any cancellations: a settled future never changes again. */
  lemma {:induction false} SettledOnce(c: Config, states: seq<Sys>, labels: seq<Label>, i: nat, k: nat, f: nat)
    requires Run(c, states, labels) && i <= k < |states|
    requires f < |states[i].core.futs| && states[i].core.futs[f].outcome.Some?
    ensures f < |states[k].core.futs| && states[k].core.futs[f] == states[i].core.futs[f]
    decreases k
  {
    if i < k {
      SettledOnce(c, states, labels, i, k - 1, f);
      assert Stepped(c, states[k - 1], labels[k - 1], states[k]);
    }
  }

  // ---------------------------------------------------------------- forgotten futures

  predicate IsHolderOf(s: Sys, h: Holder, f: nat) { Holds(s, h) && LoadOf(s, h).fut == f }

  /** If f is pending, somebody is responsible for it. */
  ghost predicate Held(s: Sys, f: nat) {
    Pending(s.core.futs, f) ==> exists h :: IsHolderOf(s, h, f)
  }

  /** The retry of f ends because what it awaits was cancelled, and leaves f pending. */
  predicate Forgets(s: Sys, l: Label, f: nat)
    requires Enabled(s, l)
  {
    && l.EndRetry? && s.retries[l.task].original == f && Pending(s.core.futs, f)
    && s.core.futs[s.retries[l.task].waiting.value].outcome == Some(Cancelled)
  }

  /** A step leaves a pending future without a holder exactly if it forgets it. */
  lemma {:induction false} HeldStep(c: Config, s: Sys, l: Label, f: nat)
    requires Shape(c, s) && Enabled(s, l) && Held(s, f)
    ensures Held(Apply(c, s, l), f) <==> !Forgets(s, l, f)
  {
    var s' := Apply(c, s, l);
    if Forgets(s, l, f) {
      ForgottenHasNoHolder(c, s, l.task, f);
    } else if Pending(s'.core.futs, f) {
      if f < |s.core.futs| {
        WasPending(c, s, l, f);
        var h :| IsHolderOf(s, h, f);
        StillHolds(c, s, l, h);
        assert IsHolderOf(s', Next(s, l, h), f);
      } else {
        NewJobHolds(c, s, l, f);
      }
    }
  }

  lemma {:induction false} WasPending(c: Config, s: Sys, l: Label, f: nat)
    requires Enabled(s, l) && f < |s.core.futs| && Pending(Apply(c, s, l).core.futs, f)
    ensures Pending(s.core.futs, f)
  {
  }

  /** The holder of a future that stays pending hands it on, or forgets it. */
  lemma {:induction false} StillHolds(c: Config, s: Sys, l: Label, h: Holder)
    requires Enabled(s, l) && Holds(s, h) && Pending(Apply(c, s, l).core.futs, LoadOf(s, h).fut)
    requires LoadOf(s, h).fut < |s.core.futs| && !Forgets(s, l, LoadOf(s, h).fut)
    ensures IsHolderOf(Apply(c, s, l), Next(s, l, h), LoadOf(s, h).fut)
  {
    if Actor(l) != Some(h) {
      StaysPut(c, s, l, h);
    } else {
      ActorHandsOn(c, s, l);
    }
  }

  lemma {:induction false} ActorHandsOn(c: Config, s: Sys, l: Label)
    requires Enabled(s, l) && Actor(l).Some? && Holds(s, Actor(l).value)
    requires Pending(Apply(c, s, l).core.futs, LoadOf(s, Actor(l).value).fut)
    requires LoadOf(s, Actor(l).value).fut < |s.core.futs| && !Forgets(s, l, LoadOf(s, Actor(l).value).fut)
    ensures IsHolderOf(Apply(c, s, l), Next(s, l, Actor(l).value), LoadOf(s, Actor(l).value).fut)
  {
    match l
    case Begin(_, _) => {}
    case Finish(_, _, _, _) => {}
    case WakeRetry(_) => {}
    case EndRetry(_) => {}
  }

  lemma {:induction false} ForgottenHasNoHolder(c: Config, s: Sys, task: nat, f: nat)
    requires OneHolderPerFuture(s) && Enabled(s, EndRetry(task)) && Forgets(s, EndRetry(task), f)
    ensures !Held(Apply(c, s, EndRetry(task)), f)
  {
    var s' := Apply(c, s, EndRetry(task));
    assert IsHolderOf(s, Task(task), f);
    forall h ensures !IsHolderOf(s', h, f) {
      if IsHolderOf(s', h, f) {
        Moved(c, s, EndRetry(task), h);
      }
    }
  }

  lemma {:induction false} NewJobHolds(c: Config, s: Sys, l: Label, f: nat)
    requires Enabled(s, l) && |s.core.futs| <= f < |Apply(c, s, l).core.futs|
    ensures exists h :: IsHolderOf(Apply(c, s, l), h, f)
  {
    assert IsHolderOf(Apply(c, s, l), Waiting(JobOf(s, l)), f);
  }

  ghost predicate NeverForgotten(states: seq<Sys>, labels: seq<Label>, i: nat, f: nat)
    requires i <= |labels| < |states|
  {
    forall j | 0 <= j < i :: Enabled(states[j], labels[j]) ==> !Forgets(states[j], labels[j], f)
  }

  /** On every run without a step that forgets it, a pending future has a holder. */
  lemma {:induction false} PendingIsHeld(c: Config, states: seq<Sys>, labels: seq<Label>, i: nat, f: nat)
    requires Run(c, states, labels) && i < |states| && NeverForgotten(states, labels, i, f)
    ensures Held(states[i], f)
    decreases i
  {
    if i > 0 {
      ChainsInShape(c, states, labels, i - 1);
      PendingIsHeld(c, states, labels, i - 1, f);
      assert Stepped(c, states[i - 1], labels[i - 1], states[i]);
      HeldStep(c, states[i - 1], labels[i - 1], f);
    }
  }

  // ---------------------------------------------------------------- a run that forgets a future

  function JobNo(i: nat): Job { Job(Some(0), false, 0, i, i) }

  function FutNo(i: nat, x: Option<Outcome>): Fut { Fut(x, i, Some(0)) }

  function RetryOfSecond(waiting: Option<nat>): Retry { Retry(Some(0), false, 1, 1, 1, waiting) }

  /** The states of the run: the first caller gives up, a second job is admitted beside the first, the first ends and
      frees the key for a third, and the retry of the second joins the third, whose caller gives up. */
  function Forgetting(i: nat): Sys {
    var f0, f1, f2 := FutNo(0, Some(Cancelled)), FutNo(1, None), FutNo(2, None);
    match i
    case 0 => Start()
    case 1 => Sys(Core([FutNo(0, None)], map[0 := 0], {JobNo(0)}), map[], map[], [0], [None])
    case 2 => Sys(Core([FutNo(0, None)], map[0 := 0], {}), map[0 := JobNo(0)], map[], [0], [None])
    case 3 => Sys(Core([f0], map[0 := 0], {}), map[0 := JobNo(0)], map[], [0], [None])
    case 4 => Sys(Core([f0, f1], map[0 := 1], {JobNo(1)}), map[0 := JobNo(0)], map[], [0, 0], [None, None])
    case 5 => Sys(Core([f0, f1], map[0 := 1], {}), map[0 := JobNo(0), 1 := JobNo(1)], map[], [0, 0], [None, None])
    case 6 => Sys(Core([f0, f1], map[], {}), map[1 := JobNo(1)], map[], [1, 0], [Some(Result(0)), None])
    case 7 => Sys(Core([f0, f1, f2], map[0 := 2], {JobNo(2)}), map[1 := JobNo(1)], map[], [1, 0, 0],
                  [Some(Result(0)), None, None])
    case 8 => Sys(Core([f0, f1, f2], map[0 := 2], {JobNo(2)}), map[], map[0 := RetryOfSecond(None)], [1, 1, 0],
                  [Some(Result(0)), None, None])
    case 9 => Sys(Core([f0, f1, f2], map[0 := 2], {}), map[0 := JobNo(2)], map[0 := RetryOfSecond(None)], [1, 1, 0],
                  [Some(Result(0)), None, None])
    case 10 => Sys(Core([f0, f1, f2], map[0 := 2], {}), map[0 := JobNo(2)], map[0 := RetryOfSecond(Some(2))],
                   [1, 1, 0], [Some(Result(0)), None, None])
    case 11 => Sys(Core([f0, f1, FutNo(2, Some(Cancelled))], map[0 := 2], {}), map[0 := JobNo(2)],
                   map[0 := RetryOfSecond(Some(2))], [1, 1, 0], [Some(Result(0)), None, None])
    case _ => Sys(Core([f0, f1, FutNo(2, Some(Cancelled))], map[], {}), map[0 := JobNo(2)], map[], [1, 1, 0],
                  [Some(Result(0)), None, None])
  }

  function ForgettingLabel(i: nat): Label {
    match i
    case 1 => Begin(0, JobNo(0))
    case 2 => CancelFuture(0)
    case 4 => Begin(1, JobNo(1))
    case 5 => Finish(0, Result(0), false, 0)
    case 7 => Finish(1, Raised(0), false, 0)
    case 8 => Begin(0, JobNo(2))
    case 9 => WakeRetry(0)
    case 10 => CancelFuture(2)
    case 11 => EndRetry(0)
    case _ => Request(Some(0), false)
  }

  lemma {:induction false} FirstBegins(c: Config, i: nat)
    requires c.maxDepth >= 1 && c.maxRetries >= 1 && 0 <= i <= 1
    ensures Stepped(c, Forgetting(i), ForgettingLabel(i), Forgetting(i + 1))
  {
  }

  lemma {:induction false} FirstIsGivenUp(c: Config, i: nat)
    requires c.maxDepth >= 1 && c.maxRetries >= 1 && 2 <= i <= 3
    ensures Stepped(c, Forgetting(i), ForgettingLabel(i), Forgetting(i + 1))
  {
  }

  lemma {:induction false} FirstFreesTheKey(c: Config, i: nat)
    requires c.maxDepth >= 1 && c.maxRetries >= 1 && 4 <= i <= 5
    ensures Stepped(c, Forgetting(i), ForgettingLabel(i), Forgetting(i + 1))
  {
  }

  lemma {:induction false} ThirdIsAdmitted(c: Config, i: nat)
    requires c.maxDepth >= 1 && c.maxRetries >= 1 && 6 <= i <= 7
    ensures Stepped(c, Forgetting(i), ForgettingLabel(i), Forgetting(i + 1))
  {
  }

  lemma {:induction false} SecondJoinsThird(c: Config, i: nat)
    requires c.maxDepth >= 1 && c.maxRetries >= 1 && 8 <= i <= 9
    ensures Stepped(c, Forgetting(i), ForgettingLabel(i), Forgetting(i + 1))
  {
  }

  lemma {:induction false} ThirdIsGivenUp(c: Config, i: nat)
    requires c.maxDepth >= 1 && c.maxRetries >= 1 && 10 <= i <= 11
    ensures Stepped(c, Forgetting(i), ForgettingLabel(i), Forgetting(i + 1))
  {
  }

  /** A run that forgets a future nobody cancelled: it stays pending and nobody is left to settle it. */
  lemma {:induction false} GivenUpFutureForgetsAnother(c: Config) returns (states: seq<Sys>, labels: seq<Label>)
    requires c.maxDepth >= 1 && c.maxRetries >= 1
    ensures Run(c, states, labels) && |labels| == 12
    ensures forall j | 0 <= j < 12 :: labels[j] != CancelFuture(1)
    ensures Enabled(states[11], labels[11]) && Forgets(states[11], labels[11], 1)
    ensures Pending(states[12].core.futs, 1) && !Held(states[12], 1)
  {
    states, labels := seq(13, i requires 0 <= i => Forgetting(i)), seq(12, i requires 0 <= i => ForgettingLabel(i));
    forall i | 0 <= i < 12 ensures Stepped(c, states[i], labels[i], states[i + 1]) {
      match i / 2
      case 0 => FirstBegins(c, i);
      case 1 => FirstIsGivenUp(c, i);
      case 2 => FirstFreesTheKey(c, i);
      case 3 => ThirdIsAdmitted(c, i);
      case 4 => SecondJoinsThird(c, i);
      case _ => ThirdIsGivenUp(c, i);
    }
    forall h ensures !IsHolderOf(Forgetting(12), h, 1) {}
  }

  // ---------------------------------------------------------------- what a pending future waits for

  /** The retry task awaits the very future it is to settle. */
  predicate Deadlocked(s: Sys, task: nat) {
    task in s.retries && s.retries[task].waiting == Some(s.retries[task].original) &&
    Pending(s.core.futs, s.retries[task].original)
  }

  /** The holder heads its chain, or awaits a settled future: its next step is enabled. */
  predicate CanMove(s: Sys, h: Holder) {
    Holds(s, h) &&
    match LoadOf(s, h).waiting
    case None => true
    case Some(f) => f < |s.core.futs| && s.core.futs[f].outcome.Some?
  }

  /** What the holder awaits is pending and held by nobody. */
  ghost predicate AwaitsForgotten(s: Sys, h: Holder) {
    && Holds(s, h) && LoadOf(s, h).waiting.Some? && Pending(s.core.futs, LoadOf(s, h).waiting.value)
    && !Held(s, LoadOf(s, h).waiting.value)
  }

  predicate SameLine(s: Sys, h: Holder, f: nat) {
    && Holds(s, h) && f < |s.core.futs| && LoadOf(s, h).key == s.core.futs[f].key
    && (s.core.futs[f].key.None? ==> LoadOf(s, h).origin == s.core.futs[f].origin)
  }

  /** The holder that decides when a pending future with a holder moves on can move itself, or is a retry that awaits
      itself and has a key, or awaits a forgotten future. It has the key of the future; without a key, its chain. */
  lemma {:induction false} PendingMoves(c: Config, s: Sys, f: nat) returns (h: Holder)
    requires Shape(c, s) && Pending(s.core.futs, f) && Held(s, f)
    ensures SameLine(s, h, f)
    ensures CanMove(s, h) || AwaitsForgotten(s, h) ||
            (h.Task? && Deadlocked(s, h.task) && s.core.futs[f].key.Some?)
    decreases |s.core.futs| - f
  {
    h :| IsHolderOf(s, h, f);
    assert InShape(c, s, LoadOf(s, h));
    var waiting := LoadOf(s, h).waiting;
    if waiting.Some? && Pending(s.core.futs, waiting.value) && Held(s, waiting.value) && waiting.value != f {
      h := PendingMoves(c, s, waiting.value);
    }
  }

  // ---------------------------------------------------------------- single flight

  ghost predicate OneFrontOf(s: Sys, key: nat) {
    forall g, h | Front(s, g) && Front(s, h) && LoadOf(s, g).key == LoadOf(s, h).key == Some(key) :: g == h
  }

  predicate IsFrontOf(s: Sys, h: Holder, key: nat) { Front(s, h) && LoadOf(s, h).key == Some(key) }

  /** A request is admitted beside a job of its key that is still to run or running: the future in flight is done. */
  ghost predicate Doubles(c: Config, s: Sys, l: Label, key: nat) {
    && l.Request? && l.key == Some(key) && !Full(c, s.core, l.high) && !Duplicate(s.core, l.key)
    && exists h :: IsFrontOf(s, h, key)
  }

  /** A step ends the single flight of a key exactly if it admits a request beside a job of the key. */
  lemma {:induction false} SingleFlightStep(c: Config, s: Sys, l: Label, key: nat)
    requires Shape(c, s) && Enabled(s, l) && OneFrontOf(s, key)
    ensures OneFrontOf(Apply(c, s, l), key) <==> !Doubles(c, s, l, key)
  {
    if Doubles(c, s, l, key) {
      TwoFronts(c, s, l, key);
    } else {
      FrontsStayOne(c, s, l, key);
    }
  }

  lemma {:induction false} TwoFronts(c: Config, s: Sys, l: Label, key: nat)
    requires AllInShape(c, s) && Enabled(s, l) && Doubles(c, s, l, key)
    ensures !OneFrontOf(Apply(c, s, l), key)
  {
    var s', job := Apply(c, s, l), JobOf(s, l);
    var h :| IsFrontOf(s, h, key);
    JobIsNew(c, s, h);
    assert IsFrontOf(s', h, key) && IsFrontOf(s', Waiting(job), key) && h != Waiting(job);
  }

  /** A head of the key after the step was one before, unless a request has just brought it. */
  lemma {:induction false} FrontsStayOne(c: Config, s: Sys, l: Label, key: nat)
    requires AllInShape(c, s) && Enabled(s, l) && OneFrontOf(s, key) && !Doubles(c, s, l, key)
    ensures OneFrontOf(Apply(c, s, l), key)
  {
    var s' := Apply(c, s, l);
    forall h | IsFrontOf(s', h, key)
      ensures IsNew(s, h) ==>
                && (l.Request? || l.WakeRetry?) && h == Waiting(JobOf(s, l))
                && (if l.Request? then forall g :: !IsFrontOf(s, g, key) else IsFrontOf(s, Task(l.task), key))
      ensures !IsNew(s, h) ==>
                var g := Before(s, l, h);
                IsFrontOf(s, g, key) && h == Next(s, l, g) && (l.WakeRetry? ==> g != Task(l.task))
    {
      if IsNew(s, h) { Born(c, s, l, h); } else { Moved(c, s, l, h); }
    }
    assert forall g, h | IsFrontOf(s, g, key) && IsFrontOf(s, h, key) :: g == h;
    assert forall g, h | IsFrontOf(s', g, key) && IsFrontOf(s', h, key) :: g == h;
    forall g, h | Front(s', g) && Front(s', h) && LoadOf(s', g).key == LoadOf(s', h).key == Some(key) ensures g == h {
      assert IsFrontOf(s', g, key) && IsFrontOf(s', h, key);
    }
  }

  ghost predicate NeverDoubled(c: Config, states: seq<Sys>, labels: seq<Label>, i: nat, key: nat)
    requires i <= |labels| < |states|
  {
    forall j | 0 <= j < i :: !Doubles(c, states[j], labels[j], key)
  }

  /** On every run without such a step, with any cancellations, a key has at most one job queued, running or in
      backoff. */
  lemma {:induction false} OneFlightPerKey(c: Config, states: seq<Sys>, labels: seq<Label>, i: nat, key: nat)
    requires Run(c, states, labels) && i < |states| && NeverDoubled(c, states, labels, i, key)
    ensures OneFrontOf(states[i], key)
    decreases i
  {
    if i > 0 {
      OneFlightPerKey(c, states, labels, i - 1, key);
      ChainsInShape(c, states, labels, i - 1);
      assert Stepped(c, states[i - 1], labels[i - 1], states[i]);
      SingleFlightStep(c, states[i - 1], labels[i - 1], key);
    }
  }

  /** With a cancellation, single flight fails: the second job of the key is queued beside the first. */
  lemma {:induction false} CancelBreaksSingleFlight(c: Config) returns (states: seq<Sys>, labels: seq<Label>)
    requires c.maxDepth >= 2
    ensures Run(c, states, labels) && |labels| == 3 && labels[1] == CancelFuture(0)
    ensures Doubles(c, states[2], labels[2], 0)
    ensures exists a, b :: a in states[3].core.queued && b in states[3].core.queued &&
              a != b && a.key == b.key == Some(0)
  {
    labels := [Request(Some(0), false), CancelFuture(0), Request(Some(0), false)];
    var s1 := Apply(c, Start(), labels[0]);
    var s2 := Apply(c, s1, labels[1]);
    var s3 := Apply(c, s2, labels[2]);
    states := [Start(), s1, s2, s3];
    assert s1.core.queued == {Job(Some(0), false, 0, 0, 0)};
    assert IsFrontOf(s2, Waiting(Job(Some(0), false, 0, 0, 0)), 0);
    assert Job(Some(0), false, 0, 0, 0) in s3.core.queued && Job(Some(0), false, 0, 1, 1) in s3.core.queued;
  }

  // ---------------------------------------------------------------- a key nobody cancels

  /** The future of the load is pending and in flight under its key; a retry that awaits something awaits that very
      future. */
  predicate InFlight(s: Sys, load: Load) {
    && load.key.Some? && load.key.value in s.core.inFlight && s.core.inFlight[load.key.value] == load.fut
    && Pending(s.core.futs, load.fut) && (load.waiting.Some? ==> load.waiting == Some(load.fut))
  }

  /** Whoever carries the key holds the future in flight, its job is a first attempt, and no chain of the key ran its
      handler twice. */
  ghost predicate Undisturbed(s: Sys, key: nat) {
    && (forall h | Holds(s, h) && LoadOf(s, h).key == Some(key) ::
          InFlight(s, LoadOf(s, h)) && (!h.Task? ==> LoadOf(s, h).attempt == 0))
    && (forall o | 0 <= o < |s.runs| && o < |s.core.futs| && s.core.futs[o].key == Some(key) :: s.runs[o] <= 1)
  }

  predicate CancelsKey(s: Sys, l: Label, key: nat)
    requires Enabled(s, l)
  {
    l.CancelFuture? && s.core.futs[l.f].key == Some(key)
  }

  lemma {:induction false} StaysInFlight(c: Config, s: Sys, l: Label, h: Holder, key: nat)
    requires Enabled(s, l) && Holds(s, h) && LoadOf(s, h).key == Some(key) && InFlight(s, LoadOf(s, h))
    requires Actor(l) != Some(h) && !CancelsKey(s, l, key) && s.core.futs[LoadOf(s, h).fut].key == Some(key)
    requires Actor(l).Some? ==> Holds(s, Actor(l).value) && LoadOf(s, Actor(l).value).fut != LoadOf(s, h).fut &&
                                LoadOf(s, Actor(l).value).key != Some(key)
    ensures InFlight(Apply(c, s, l), LoadOf(s, h))
  {
  }

  lemma {:induction false} ActorInFlight(c: Config, s: Sys, l: Label, h: Holder, key: nat)
    requires Enabled(s, l) && Actor(l) == Some(Before(s, l, h)) && Holds(s, Actor(l).value)
    requires LoadOf(s, Actor(l).value).key == Some(key) && InFlight(s, LoadOf(s, Actor(l).value))
    requires !h.Task? ==> LoadOf(s, Actor(l).value).attempt == 0
    requires Holds(Apply(c, s, l), h) && !IsNew(s, h)
    ensures InFlight(Apply(c, s, l), LoadOf(Apply(c, s, l), h))
    ensures !h.Task? ==> LoadOf(Apply(c, s, l), h).attempt == 0
  {
  }

  lemma {:induction false} HolderUndisturbed(c: Config, s: Sys, l: Label, h: Holder, key: nat)
    requires Shape(c, s) && Enabled(s, l) && Undisturbed(s, key) && !CancelsKey(s, l, key)
    requires Holds(Apply(c, s, l), h) && LoadOf(Apply(c, s, l), h).key == Some(key)
    ensures InFlight(Apply(c, s, l), LoadOf(Apply(c, s, l), h))
    ensures !h.Task? ==> LoadOf(Apply(c, s, l), h).attempt == 0
  {
    if IsNew(s, h) {
      Born(c, s, l, h);
      if l.WakeRetry? { assert Holds(s, Task(l.task)); }
    } else {
      Moved(c, s, l, h);
      var g := Before(s, l, h);
      assert InFlight(s, LoadOf(s, g)) && InShape(c, s, LoadOf(s, g));
      if Actor(l) == Some(g) {
        ActorInFlight(c, s, l, h, key);
      } else {
        if Actor(l).Some? { assert Holds(s, Actor(l).value); }
        StaysInFlight(c, s, l, g, key);
      }
    }
  }

  lemma {:induction false} RunsStayOne(c: Config, s: Sys, l: Label, o: nat, key: nat)
    requires Shape(c, s) && Enabled(s, l) && Undisturbed(s, key)
    requires o < |Apply(c, s, l).runs| && o < |Apply(c, s, l).core.futs| && Apply(c, s, l).core.futs[o].key == Some(key)
    ensures Apply(c, s, l).runs[o] <= 1
  {
    FuturesGrow(c, s, l);
    if o < |s.runs| {
      if l.Finish? && Touches(s, l, o) {
        assert Holds(s, OnWorker(l.w)) && InShape(c, s, LoadOf(s, OnWorker(l.w)));
        assert s.core.futs[s.core.futs[s.running[l.w].fut].origin].key == s.running[l.w].key;
        FirstRun(c, s, l);
      } else {
        OnlyFinishCounts(c, s, l, o);
      }
    }
  }

  lemma {:induction false} FirstRun(c: Config, s: Sys, l: Label)
    requires Enabled(s, l) && l.Finish? && s.runs[s.running[l.w].origin] == 0
    ensures Apply(c, s, l).runs[s.running[l.w].origin] == 1
  {
  }

  lemma {:induction false} OnlyFinishCounts(c: Config, s: Sys, l: Label, o: nat)
    requires Enabled(s, l) && o < |s.runs| && !(l.Finish? && Touches(s, l, o))
    ensures o < |Apply(c, s, l).runs| && Apply(c, s, l).runs[o] == s.runs[o]
  {
  }

  lemma {:induction false} UndisturbedStep(c: Config, s: Sys, l: Label, key: nat)
    requires Shape(c, s) && Enabled(s, l) && Undisturbed(s, key) && !CancelsKey(s, l, key)
    ensures Undisturbed(Apply(c, s, l), key)
  {
    var s' := Apply(c, s, l);
    forall h | Holds(s', h) && LoadOf(s', h).key == Some(key)
      ensures InFlight(s', LoadOf(s', h)) && (!h.Task? ==> LoadOf(s', h).attempt == 0)
    {
      HolderUndisturbed(c, s, l, h, key);
    }
    forall o | 0 <= o < |s'.runs| && o < |s'.core.futs| && s'.core.futs[o].key == Some(key) ensures s'.runs[o] <= 1 {
      RunsStayOne(c, s, l, o, key);
    }
  }

  ghost predicate NeverCancelled(states: seq<Sys>, labels: seq<Label>, i: nat, key: nat)
    requires i <= |labels| < |states|
  {
    forall j | 0 <= j < i :: Enabled(states[j], labels[j]) ==> !CancelsKey(states[j], labels[j], key)
  }

  /** On every run that cancels no future of the key: the key has one holder at most, and its future in flight; its
      handler runs once for each request admitted, and is never retried. */
  lemma {:induction false} KeyedRunsOnce(c: Config, states: seq<Sys>, labels: seq<Label>, i: nat, key: nat)
    requires Run(c, states, labels) && i < |states| && NeverCancelled(states, labels, i, key)
    ensures Undisturbed(states[i], key)
    ensures forall g, h | Holds(states[i], g) && Holds(states[i], h) &&
              LoadOf(states[i], g).key == LoadOf(states[i], h).key == Some(key) :: g == h
    decreases i
  {
    ChainsInShape(c, states, labels, i);
    if i > 0 {
      KeyedRunsOnce(c, states, labels, i - 1, key);
      ChainsInShape(c, states, labels, i - 1);
      assert Stepped(c, states[i - 1], labels[i - 1], states[i]);
      UndisturbedStep(c, states[i - 1], labels[i - 1], key);
    }
  }

  /** As long as nobody cancels a future of the key, no request is admitted beside a job of the key. */
  lemma {:induction false} UncancelledIsNotDoubled(c: Config, s: Sys, l: Label, key: nat)
    requires Undisturbed(s, key)
    ensures !Doubles(c, s, l, key)
  {
    if h :| IsFrontOf(s, h, key) {
      assert InFlight(s, LoadOf(s, h));
    }
  }

  /** The retry of a keyed job meets its own future in flight, and joins it. */
  lemma {:induction false} KeyedRetryJoinsItself(c: Config, s: Sys, task: nat)
    requires Enabled(s, WakeRetry(task)) && s.retries[task].key.Some? && Undisturbed(s, s.retries[task].key.value)
    ensures var t := s.retries[task];
            Enqueue(c, s.core, t.key, t.high, t.attempt, Some(t.origin)).1
            == if Full(c, s.core, t.high) then Rejected else Joined(t.original)
  {
    assert Holds(s, Task(task));
  }

  /** When a keyed retry wakes, its callers get an answer exactly if the queue is full: then the rejection;
      otherwise the retry awaits itself. */
  lemma {:induction false} KeyedRetrySettlesIff(c: Config, s: Sys, task: nat)
    requires Enabled(s, WakeRetry(task)) && s.retries[task].key.Some? && Undisturbed(s, s.retries[task].key.value)
    ensures var s', t := Apply(c, s, WakeRetry(task)), s.retries[task];
            && t.original < |s'.core.futs|
            && (Pending(s'.core.futs, t.original) <==> !Full(c, s.core, t.high))
            && (Full(c, s.core, t.high) ==> s'.core.futs[t.original].outcome == Some(QueueFull))
            && (!Full(c, s.core, t.high) ==> Deadlocked(s', task))
  {
    KeyedRetryJoinsItself(c, s, task);
    assert Holds(s, Task(task));
  }

  // ---------------------------------------------------------------- a retry that awaits itself

  /** Exactly the cancellation of its own future frees a deadlocked retry. */
  lemma {:induction false} DeadlockStep(c: Config, s: Sys, l: Label, task: nat)
    requires Shape(c, s) && Deadlocked(s, task) && Enabled(s, l)
    ensures var s' := Apply(c, s, l);
            Deadlocked(s', task) && s'.retries[task] == s.retries[task] <==> l != CancelFuture(s.retries[task].original)
  {
    assert IsHolderOf(s, Task(task), s.retries[task].original);
    if l != CancelFuture(s.retries[task].original) {
      if Actor(l).Some? { assert Holds(s, Actor(l).value); }
      DeadlockStays(c, s, l, task);
    }
  }

  lemma {:induction false} DeadlockStays(c: Config, s: Sys, l: Label, task: nat)
    requires Deadlocked(s, task) && Enabled(s, l) && l != CancelFuture(s.retries[task].original)
    requires Actor(l).Some? ==>
               && Actor(l) != Some(Task(task)) && Holds(s, Actor(l).value)
               && LoadOf(s, Actor(l).value).fut != s.retries[task].original
    ensures Deadlocked(Apply(c, s, l), task) && Apply(c, s, l).retries[task] == s.retries[task]
  {
    StaysPut(c, s, l, Task(task));
    OnlyActorSettles(c, s, l, s.retries[task].original);
  }

  /** A step settles only the future of whoever takes it, or the one it cancels. */
  lemma {:induction false} OnlyActorSettles(c: Config, s: Sys, l: Label, f: nat)
    requires Enabled(s, l) && Pending(s.core.futs, f) && l != CancelFuture(f)
    requires Actor(l).Some? ==> Holds(s, Actor(l).value) && LoadOf(s, Actor(l).value).fut != f
    ensures Pending(Apply(c, s, l).core.futs, f)
  {
  }

  /** No job carries the future of the retry. */
  ghost predicate Stranded(s: Sys, t: Retry) {
    && (forall job | job in s.core.queued :: job.fut != t.original)
    && (forall w | w in s.running :: s.running[w].fut != t.original)
  }

  lemma {:induction false} DeadlockStrands(s: Sys, task: nat)
    requires OneHolderPerFuture(s) && Deadlocked(s, task)
    ensures Stranded(s, s.retries[task])
  {
    var f := s.retries[task].original;
    assert IsHolderOf(s, Task(task), f);
    forall job | job in s.core.queued ensures job.fut != f {
      assert Holds(s, Waiting(job)) && LoadOf(s, Waiting(job)).fut == job.fut;
    }
    forall w | w in s.running ensures s.running[w].fut != f {
      assert Holds(s, OnWorker(w)) && LoadOf(s, OnWorker(w)).fut == s.running[w].fut;
    }
  }

  /** On every run that does not cancel its own future, whatever else it cancels, a deadlocked retry stays deadlocked
      and no job carries its future. */
  lemma {:induction false} DeadlockIsForever(c: Config, states: seq<Sys>, labels: seq<Label>, i: nat, k: nat, task: nat)
    requires Run(c, states, labels) && i <= k < |states| && Deadlocked(states[i], task)
    requires forall j | i <= j < k :: labels[j] != CancelFuture(states[i].retries[task].original)
    ensures Deadlocked(states[k], task) && states[k].retries[task] == states[i].retries[task]
    ensures Stranded(states[k], states[k].retries[task])
    decreases k
  {
    ChainsInShape(c, states, labels, k);
    if i < k {
      ChainsInShape(c, states, labels, k - 1);
      DeadlockIsForever(c, states, labels, i, k - 1, task);
      assert Stepped(c, states[k - 1], labels[k - 1], states[k]);
      DeadlockStep(c, states[k - 1], labels[k - 1], task);
    }
    DeadlockStrands(states[k], task);
  }

  /** On every run that cancels no future of its key, every request for the key of a deadlocked retry that is not
      turned away joins it. */
  lemma {:induction false} DeadlockAttracts(c: Config, states: seq<Sys>, labels: seq<Label>, k: nat, task: nat,
                                            high: bool)
    requires Run(c, states, labels) && k < |states| && Deadlocked(states[k], task)
    requires states[k].retries[task].key.Some? && !Full(c, states[k].core, high)
    requires NeverCancelled(states, labels, k, states[k].retries[task].key.value)
    ensures var t := states[k].retries[task];
            Enqueue(c, states[k].core, t.key, high, 0, None).1 == Joined(t.original)
  {
    KeyedRunsOnce(c, states, labels, k, states[k].retries[task].key.value);
    assert Holds(states[k], Task(task));
  }
}
