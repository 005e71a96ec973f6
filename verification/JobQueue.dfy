/** The job queue: single-flight by key, retries with backoff, and the chain of futures behind them.

    `Core` is the queue object (its futures, its in-flight table, its waiting jobs), `NitrisJobQueue` that object
    with fields. `Sys` adds the workers and the retry tasks; `runs` and `final` are the history of each chain of
    retries, indexed by the future the first caller was given. */
module JobQueue {

  import opened Wrappers

  datatype Config = Config(maxDepth: nat, maxRetries: nat)

  datatype Outcome = Result(value: int) | Raised(error: int) | QueueFull | Cancelled

  /** `origin` is the future of the first job of the chain, `key` the key of its jobs. */
  datatype Fut = Fut(outcome: Option<Outcome>, origin: nat, key: Option<nat>)

  datatype Job = Job(key: Option<nat>, high: bool, attempt: nat, fut: nat, origin: nat)

  /** `waiting` is None during the backoff, then the future the retry task awaits. */
  datatype Retry = Retry(key: Option<nat>, high: bool, attempt: nat, original: nat, origin: nat, waiting: Option<nat>)

  datatype Core = Core(futs: seq<Fut>, inFlight: map<nat, nat>, queued: set<Job>)

  datatype Enqueued = Rejected | Joined(fut: nat) | Accepted(job: Job)

  predicate Pending(futs: seq<Fut>, f: nat) { f < |futs| && futs[f].outcome.None? }

  function Settle(futs: seq<Fut>, f: nat, x: Outcome): seq<Fut> {
    if Pending(futs, f) then futs[f := futs[f].(outcome := Some(x))] else futs
  }

  function Cleaned(inFlight: map<nat, nat>, key: Option<nat>): map<nat, nat> {
    if key.Some? then inFlight - {key.value} else inFlight
  }

  /** Interactive jobs may fill the queue to twice the cap. */
  predicate Full(c: Config, q: Core, high: bool) {
    |q.queued| >= if high then c.maxDepth * 2 else c.maxDepth
  }

  predicate Duplicate(q: Core, key: Option<nat>) {
    key.Some? && key.value in q.inFlight && Pending(q.futs, q.inFlight[key.value])
  }

  /** The depth bound is checked before the duplicate is looked for. */
  function Enqueue(c: Config, q: Core, key: Option<nat>, high: bool, attempt: nat, origin: Option<nat>)
    : (Core, Enqueued)
  {
    if Full(c, q, high) then (q, Rejected)
    else if Duplicate(q, key) then (q, Joined(q.inFlight[key.value]))
    else
      var f := |q.futs|;
      var o := if origin.Some? then origin.value else f;
      var job := Job(key, high, attempt, f, o);
      (Core(q.futs + [Fut(None, o, key)],
            if key.Some? then q.inFlight[key.value := f] else q.inFlight,
            q.queued + {job}),
       Accepted(job))
  }

  /** A job or a retry ends the chain: its future is settled and the key freed. */
  function Ended(q: Core, fut: nat, key: Option<nat>, x: Outcome): Core {
    q.(futs := Settle(q.futs, fut, x), inFlight := Cleaned(q.inFlight, key))
  }

  class NitrisJobQueue {
    const config: Config
    var futures: seq<Fut>
    var inFlight: map<nat, nat>
    var queued: set<Job>

    function View(): Core
      reads this
    {
      Core(futures, inFlight, queued)
    }

    constructor (config: Config)
      ensures this.config == config && View() == Core([], map[], {})
    {
      this.config := config;
      futures, inFlight, queued := [], map[], {};
    }

    method EnqueueJob(key: Option<nat>, high: bool, attempt: nat, origin: Option<nat>) returns (r: Enqueued)
      modifies this
      ensures (View(), r) == Enqueue(config, old(View()), key, high, attempt, origin)
    {
      var depth := |queued|;
      if high {
        if depth >= config.maxDepth * 2 {
          return Rejected;
        }
      } else if depth >= config.maxDepth {
        return Rejected;
      }
      if key.Some? && key.value in inFlight {
        var existing := inFlight[key.value];
        if Pending(futures, existing) {
          return Joined(existing);
        }
      }
      var f := |futures|;
      var job := Job(key, high, attempt, f, if origin.Some? then origin.value else f);
      futures := futures + [Fut(None, job.origin, key)];
      if key.Some? {
        inFlight := inFlight[key.value := f];
      }
      queued := queued + {job};
      r := Accepted(job);
    }

    method SettleFuture(f: nat, x: Outcome)
      modifies this`futures
      ensures futures == Settle(old(futures), f, x)
    {
      if Pending(futures, f) {
        futures := futures[f := futures[f].(outcome := Some(x))];
      }
    }

    method CleanupDedup(key: Option<nat>)
      modifies this`inFlight
      ensures inFlight == Cleaned(old(inFlight), key)
    {
      if key.Some? {
        inFlight := inFlight - {key.value};
      }
    }

    /** The end of `_run_job`. A transient failure within the budget leaves future and key alone and asks for a
        retry task. */
    method JobDone(job: Job, x: Outcome, permanent: bool) returns (retry: Option<Retry>)
      modifies this
      ensures retry == RetryOf(config, job, x, permanent)
      ensures retry.Some? <==> !x.Result? && !permanent && job.attempt < config.maxRetries
      ensures View() == if retry.Some? then old(View()) else Ended(old(View()), job.fut, job.key, x)
    {
      retry := None;
      if x.Result? || permanent || job.attempt >= config.maxRetries {
        SettleFuture(job.fut, x);
        CleanupDedup(job.key);
      } else {
        retry := Some(Retry(job.key, job.high, job.attempt + 1, job.fut, job.origin, None));
      }
    }

    /** The end of `_schedule_retry`: a cancelled future is not copied. */
    method RetryDone(r: Retry, x: Outcome)
      modifies this
      ensures View() == RetryEnded(old(View()), r, x)
    {
      if !x.Cancelled? {
        SettleFuture(r.original, x);
      }
      CleanupDedup(r.key);
    }

    method CancelDedup(key: nat) returns (cancelled: bool)
      modifies this`futures
      ensures cancelled == Duplicate(old(View()), Some(key))
      ensures futures == if cancelled then Settle(old(futures), inFlight[key], Cancelled) else old(futures)
    {
      cancelled := false;
      if key in inFlight {
        if Pending(futures, inFlight[key]) {
          SettleFuture(inFlight[key], Cancelled);
          cancelled := true;
        }
      }
    }
  }

  function RetryOf(c: Config, job: Job, x: Outcome, permanent: bool): Option<Retry> {
    if x.Result? || permanent || job.attempt >= c.maxRetries then None
    else Some(Retry(job.key, job.high, job.attempt + 1, job.fut, job.origin, None))
  }

  function RetryEnded(q: Core, r: Retry, x: Outcome): Core {
    q.(futs := if x.Cancelled? then q.futs else Settle(q.futs, r.original, x), inFlight := Cleaned(q.inFlight, r.key))
  }

  // ---------------------------------------------------------------- workers and retry tasks

  datatype Sys = Sys(core: Core, running: map<nat, Job>, retries: map<nat, Retry>, runs: seq<nat>,
                     final: seq<Option<Outcome>>)

  datatype Label =
    | Request(key: Option<nat>, high: bool)
    | Begin(w: nat, job: Job)
    | Finish(w: nat, x: Outcome, permanent: bool, task: nat)
    | WakeRetry(task: nat)
    | EndRetry(task: nat)
    | CancelFuture(f: nat)

  predicate Enabled(s: Sys, l: Label) {
    match l
    case Request(_, _) => true
    case Begin(w, job) => w !in s.running && job in s.core.queued
    case Finish(w, x, _, task) =>
      w in s.running && (x.Result? || x.Raised?) && task !in s.retries && s.running[w].origin < |s.runs| == |s.final|
    case WakeRetry(task) => task in s.retries && s.retries[task].waiting.None? && s.retries[task].origin < |s.final|
    case EndRetry(task) =>
      task in s.retries && s.retries[task].waiting.Some? && s.retries[task].waiting.value < |s.core.futs| &&
      s.core.futs[s.retries[task].waiting.value].outcome.Some?
    case CancelFuture(f) => Pending(s.core.futs, f)
  }

  function Apply(c: Config, s: Sys, l: Label): Sys
    requires Enabled(s, l)
  {
    match l
    case Request(key, high) =>
      var (core, r) := Enqueue(c, s.core, key, high, 0, None);
      if r.Accepted? then s.(core := core, runs := s.runs + [0], final := s.final + [None]) else s
    case Begin(w, job) =>
      s.(core := s.core.(queued := s.core.queued - {job}), running := s.running[w := job])
    case Finish(w, x, permanent, task) =>
      var job := s.running[w];
      var retry := RetryOf(c, job, x, permanent);
      s.(core := if retry.Some? then s.core else Ended(s.core, job.fut, job.key, x),
         running := s.running - {w},
         retries := if retry.Some? then s.retries[task := retry.value] else s.retries,
         runs := s.runs[job.origin := s.runs[job.origin] + 1],
         final := if retry.Some? then s.final else s.final[job.origin := Some(x)])
    case WakeRetry(task) =>
      var t := s.retries[task];
      var (core, r) := Enqueue(c, s.core, t.key, t.high, t.attempt, Some(t.origin));
      (match r
       case Rejected =>
         s.(core := RetryEnded(s.core, t, QueueFull), retries := s.retries - {task},
            final := s.final[t.origin := Some(QueueFull)])
       case Joined(f) => s.(retries := s.retries[task := t.(waiting := Some(f))])
       case Accepted(job) =>
         s.(core := core, retries := s.retries[task := t.(waiting := Some(job.fut))],
            runs := s.runs + [0], final := s.final + [None]))
    case EndRetry(task) =>
      var t := s.retries[task];
      s.(core := RetryEnded(s.core, t, s.core.futs[t.waiting.value].outcome.value), retries := s.retries - {task})
    case CancelFuture(f) => s.(core := s.core.(futs := Settle(s.core.futs, f, Cancelled)))
  }

  function Start(): Sys { Sys(Core([], map[], {}), map[], map[], [], []) }

  ghost predicate Run(c: Config, states: seq<Sys>, labels: seq<Label>) {
    && |states| == |labels| + 1
    && states[0] == Start()
    && forall i | 0 <= i < |labels| :: Stepped(c, states[i], labels[i], states[i + 1])
  }

  ghost predicate Stepped(c: Config, s: Sys, l: Label, s': Sys) {
    Enabled(s, l) && s' == Apply(c, s, l)
  }
}
