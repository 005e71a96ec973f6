/** The two lanes of the job queue and the three kinds of workers that empty them.

    A dedicated worker takes from its own lane; a shared worker looks at the interactive lane first and sleeps on an
    event when both are empty. A stretch between two await points is one step. */
module JobLanes {
  import opened Wrappers

  const INTERACTIVE_RANK := 1

  /** Ranks are 1 to 3; jobs are compared by rank and creation time only. */
  datatype Job = Job(rank: nat, created: int, id: nat)

  predicate Before(a: Job, b: Job) { a.rank < b.rank || (a.rank == b.rank && a.created < b.created) }

  /** What a priority queue may give: a job that no other goes before. */
  predicate Least(lane: set<Job>, job: Job) { job in lane && forall k | k in lane :: !Before(k, job) }

  datatype Lanes = Lanes(interactive: set<Job>, background: set<Job>)

  function With(l: Lanes, job: Job): Lanes {
    if job.rank == INTERACTIVE_RANK then l.(interactive := l.interactive + {job})
    else l.(background := l.background + {job})
  }

  function Without(l: Lanes, job: Job): Lanes { Lanes(l.interactive - {job}, l.background - {job}) }

  /** What a shared worker may take. */
  predicate MayTake(l: Lanes, job: Job) {
    if l.interactive != {} then Least(l.interactive, job) else Least(l.background, job)
  }

  class JobBoard {
    var interactive: set<Job>
    var background: set<Job>
    var event: bool

    function View(): Lanes
      reads this
    {
      Lanes(interactive, background)
    }

    constructor ()
      ensures View() == Lanes({}, {}) && !event
    {
      interactive, background, event := {}, {}, false;
    }

    method Put(job: Job)
      modifies this
      ensures View() == With(old(View()), job) && event
    {
      if job.rank == INTERACTIVE_RANK {
        interactive := interactive + {job};
      } else {
        background := background + {job};
      }
      event := true;
    }

    /** One look of a shared worker: a job, or None after the event was cleared. */
    method LookForJob() returns (found: Option<Job>)
      modifies this
      ensures found.None? <==> old(View()) == Lanes({}, {})
      ensures found.None? ==> View() == old(View()) && !event
      ensures found.Some? ==> MayTake(old(View()), found.value) && View() == Without(old(View()), found.value)
      ensures found.Some? ==> event == old(event)
    {
      if interactive != {} {
        var job := GetNowait(interactive);
        OnlyThere(interactive, background, job);
        interactive, background := interactive - {job}, background - {job};
        found := Some(job);
      } else if background != {} {
        var job := GetNowait(background);
        background := background - {job};
        found := Some(job);
      } else {
        event := false;
        found := None;
      }
    }
  }

  lemma {:induction false} OnlyThere(interactive: set<Job>, background: set<Job>, job: Job)
    ensures Without(Lanes(interactive, background), job) == Lanes(interactive - {job}, background - {job})
  {
  }

  /** A least job of a lane. */
  method GetNowait(lane: set<Job>) returns (job: Job)
    requires lane != {}
    ensures Least(lane, job)
  {
    job :| job in lane;
    var rest := lane - {job};
    while rest != {}
      invariant rest <= lane && job in lane && forall k | k in lane && k !in rest :: !Before(k, job)
      decreases |rest|
    {
      var k :| k in rest;
      if Before(k, job) { job := k; }
      rest := rest - {k};
    }
  }

  // ---------------------------------------------------------------- the workers

  datatype Kind = Interactive | Background | Shared

  /** Idle: in `queue.get()`, or about to look. Asleep: waiting for the event, `woken` once it was set. */
  datatype Doing = Idle | Busy(job: Job) | Asleep(woken: bool)

  datatype Worker = Worker(kind: Kind, doing: Doing)

  /** `put` counts the jobs put so far, which are numbered in order; `done` are the finished ones. */
  datatype Sys = Sys(lanes: Lanes, now: int, workers: map<nat, Worker>, put: nat, done: set<nat>)

  datatype Label =
    | Tick(to: int)
    | PutJob(rank: nat)
    | Take(w: nat, job: Job)   // a dedicated worker
    | Look(w: nat, job: Job)   // a shared worker; `job` is what it takes if there is one
    | Wake(w: nat)
    | Finish(w: nat)

  predicate LanesEmpty(s: Sys) { s.lanes == Lanes({}, {}) }

  predicate IsIdle(s: Sys, w: nat) { w in s.workers && s.workers[w].doing.Idle? }

  predicate Enabled(s: Sys, l: Label) {
    match l
    case Tick(to) => s.now <= to
    case PutJob(_) => true
    case Take(w, job) =>
      IsIdle(s, w) && !s.workers[w].kind.Shared? &&
      Least(if s.workers[w].kind.Interactive? then s.lanes.interactive else s.lanes.background, job)
    case Look(w, job) => IsIdle(s, w) && s.workers[w].kind.Shared? && (LanesEmpty(s) || MayTake(s.lanes, job))
    case Wake(w) => w in s.workers && s.workers[w].doing == Asleep(true)
    case Finish(w) => w in s.workers && s.workers[w].doing.Busy?
  }

  function NowDoing(s: Sys, w: nat, doing: Doing): map<nat, Worker>
    requires w in s.workers
  {
    s.workers[w := s.workers[w].(doing := doing)]
  }

  function Roused(worker: Worker): Worker {
    if worker.doing.Asleep? then worker.(doing := Asleep(true)) else worker
  }

  function Apply(s: Sys, l: Label): Sys
    requires Enabled(s, l)
  {
    match l
    case Tick(to) => s.(now := to)
    case PutJob(rank) =>
      s.(lanes := With(s.lanes, Job(rank, s.now, s.put)), put := s.put + 1,
         workers := map w | w in s.workers :: Roused(s.workers[w]))
    case Take(w, job) => s.(lanes := Without(s.lanes, job), workers := NowDoing(s, w, Busy(job)))
    case Look(w, job) =>
      if LanesEmpty(s) then s.(workers := NowDoing(s, w, Asleep(false)))
      else s.(lanes := Without(s.lanes, job), workers := NowDoing(s, w, Busy(job)))
    case Wake(w) => s.(workers := NowDoing(s, w, Idle))
    case Finish(w) => s.(workers := NowDoing(s, w, Idle), done := s.done + {s.workers[w].doing.job.id})
  }

  predicate IsStart(s: Sys) {
    LanesEmpty(s) && s.put == 0 && s.done == {} && forall w | w in s.workers :: s.workers[w].doing.Idle?
  }

  ghost predicate Run(states: seq<Sys>, labels: seq<Label>) {
    && |states| == |labels| + 1 && IsStart(states[0])
    && forall i | 0 <= i < |labels| :: Stepped(states[i], labels[i], states[i + 1])
  }

  ghost predicate Stepped(s: Sys, l: Label, s': Sys) { Enabled(s, l) && s' == Apply(s, l) }

  // ---------------------------------------------------------------- nothing is slept through

  /** A shared worker that sleeps and was not woken has nothing to do. */
  ghost predicate NothingMissed(s: Sys) {
    forall w | w in s.workers && s.workers[w].doing == Asleep(false) :: LanesEmpty(s)
  }

  lemma {:induction false} MissesNothing(states: seq<Sys>, labels: seq<Label>, n: nat)
    requires Run(states, labels) && n < |states|
    ensures NothingMissed(states[n])
  {
    if n > 0 {
      MissesNothing(states, labels, n - 1);
      assert Stepped(states[n - 1], labels[n - 1], states[n]);
    }
  }

  // ---------------------------------------------------------------- every job runs once

  /** Where job `id` is: in a lane, with a worker, or done. */
  predicate Queued(s: Sys, job: Job) { job in s.lanes.interactive || job in s.lanes.background }

  predicate RunsIt(s: Sys, w: nat, id: nat) {
    w in s.workers && s.workers[w].doing.Busy? && s.workers[w].doing.job.id == id
  }

  /** Jobs are in the lane of their rank, numbered in the order of their creation, and each in one place only. */
  ghost predicate Placed(s: Sys) {
    && (forall j | j in s.lanes.interactive :: j.rank == INTERACTIVE_RANK)
    && (forall j | j in s.lanes.background :: j.rank != INTERACTIVE_RANK)
    && (forall j | Queued(s, j) :: j.id < s.put && j.created <= s.now && j.id !in s.done)
    && (forall j, k | Queued(s, j) && Queued(s, k) && j.id <= k.id ::
        j.created <= k.created && (j.id == k.id ==> j == k))
    && (forall w, id: nat | RunsIt(s, w, id) :: id < s.put && id !in s.done)
    && (forall w, j | Queued(s, j) :: !RunsIt(s, w, j.id))
    && (forall v, w, id: nat | RunsIt(s, v, id) && RunsIt(s, w, id) :: v == w)
    && (forall id | id in s.done :: id < s.put)
  }

  /** No job is lost. */
  ghost predicate Accounted(s: Sys) {
    forall id: nat | id < s.put :: id in s.done || HasWorker(s, id) || InLane(s, id)
  }

  ghost predicate HasWorker(s: Sys, id: nat) { exists w :: RunsIt(s, w, id) }

  ghost predicate InLane(s: Sys, id: nat) { exists j :: Queued(s, j) && j.id == id }

  /** Worker w takes the queued job. */
  lemma {:induction false} TakenStaysPlaced(s: Sys, w: nat, job: Job)
    requires Placed(s) && Accounted(s) && IsIdle(s, w) && Queued(s, job)
    ensures var s' := s.(lanes := Without(s.lanes, job), workers := NowDoing(s, w, Busy(job)));
            Placed(s') && Accounted(s')
  {
    var s' := s.(lanes := Without(s.lanes, job), workers := NowDoing(s, w, Busy(job)));
    assert forall j :: Queued(s', j) <==> Queued(s, j) && j != job;
    assert forall v, id: nat :: RunsIt(s', v, id) <==> RunsIt(s, v, id) || (v == w && id == job.id);
    forall id: nat | id < s'.put ensures id in s'.done || HasWorker(s', id) || InLane(s', id) {
      if id == job.id {
        assert RunsIt(s', w, id);
      } else if HasWorker(s, id) {
        var v :| RunsIt(s, v, id);
        assert RunsIt(s', v, id);
      } else if InLane(s, id) {
        var j :| Queued(s, j) && j.id == id;
        assert Queued(s', j);
      }
    }
  }

  lemma {:induction false} PutStaysPlaced(s: Sys, rank: nat)
    requires Placed(s) && Accounted(s)
    ensures Placed(Apply(s, PutJob(rank))) && Accounted(Apply(s, PutJob(rank)))
  {
    var s', job := Apply(s, PutJob(rank)), Job(rank, s.now, s.put);
    assert forall j :: Queued(s', j) <==> Queued(s, j) || j == job;
    assert forall v, id: nat :: RunsIt(s', v, id) <==> RunsIt(s, v, id);
    forall id: nat | id < s'.put ensures id in s'.done || HasWorker(s', id) || InLane(s', id) {
      if id == s.put {
        assert Queued(s', job);
      } else if HasWorker(s, id) {
        var v :| RunsIt(s, v, id);
        assert RunsIt(s', v, id);
      } else if InLane(s, id) {
        var j :| Queued(s, j) && j.id == id;
        assert Queued(s', j);
      }
    }
  }

  /** A worker that is not busy any more, or still is not. */
  lemma {:induction false} RestStaysPlaced(s: Sys, w: nat, doing: Doing)
    requires Placed(s) && Accounted(s) && w in s.workers && !doing.Busy?
    ensures var freed := if s.workers[w].doing.Busy? then {s.workers[w].doing.job.id} else {};
            var s' := s.(workers := NowDoing(s, w, doing), done := s.done + freed); Placed(s') && Accounted(s')
  {
    var freed := if s.workers[w].doing.Busy? then {s.workers[w].doing.job.id} else {};
    var s' := s.(workers := NowDoing(s, w, doing), done := s.done + freed);
    assert s.workers[w].doing.Busy? ==> RunsIt(s, w, s.workers[w].doing.job.id);
    assert forall j :: Queued(s', j) <==> Queued(s, j);
    assert forall v, id: nat :: RunsIt(s', v, id) <==> RunsIt(s, v, id) && v != w;
    forall id: nat | id < s'.put ensures id in s'.done || HasWorker(s', id) || InLane(s', id) {
      if HasWorker(s, id) {
        var v :| RunsIt(s, v, id);
        assert v != w ==> RunsIt(s', v, id);
      } else if InLane(s, id) {
        var j :| Queued(s, j) && j.id == id;
        assert Queued(s', j);
      }
    }
  }

  lemma {:induction false} PlacedStep(s: Sys, l: Label)
    requires Placed(s) && Accounted(s) && Enabled(s, l)
    ensures Placed(Apply(s, l)) && Accounted(Apply(s, l))
  {
    match l
    case Tick(to) => TickStaysPlaced(s, to);
    case PutJob(rank) => PutStaysPlaced(s, rank);
    case Take(w, job) => TakenStaysPlaced(s, w, job);
    case Look(w, job) =>
      if LanesEmpty(s) {
        RestStaysPlaced(s, w, Asleep(false));
        assert s.done + {} == s.done;
      } else {
        TakenStaysPlaced(s, w, job);
      }
    case Wake(w) =>
      RestStaysPlaced(s, w, Idle);
      assert s.done + {} == s.done;
    case Finish(w) => RestStaysPlaced(s, w, Idle);
  }

  lemma {:induction false} TickStaysPlaced(s: Sys, to: int)
    requires Placed(s) && Accounted(s) && s.now <= to
    ensures Placed(s.(now := to)) && Accounted(s.(now := to))
  {
    var s' := s.(now := to);
    assert forall j :: Queued(s', j) <==> Queued(s, j);
    assert forall v, id: nat :: RunsIt(s', v, id) <==> RunsIt(s, v, id);
    forall id: nat | id < s'.put ensures id in s'.done || HasWorker(s', id) || InLane(s', id) {
      if HasWorker(s, id) {
        var v :| RunsIt(s, v, id);
        assert RunsIt(s', v, id);
      } else if InLane(s, id) {
        var j :| Queued(s, j) && j.id == id;
        assert Queued(s', j);
      }
    }
  }

  /** On every run each job put is in exactly one place: its lane, one worker, or done. */
  lemma {:induction false} EveryJobOnce(states: seq<Sys>, labels: seq<Label>, n: nat)
    requires Run(states, labels) && n < |states|
    ensures Placed(states[n]) && Accounted(states[n])
  {
    if n > 0 {
      EveryJobOnce(states, labels, n - 1);
      assert Stepped(states[n - 1], labels[n - 1], states[n]);
      PlacedStep(states[n - 1], labels[n - 1]);
    }
  }

  /** The job a step hands to a worker. */
  predicate Hands(s: Sys, l: Label, job: Job)
    requires Enabled(s, l)
  {
    (l.Take? && l.job == job) || (l.Look? && !LanesEmpty(s) && l.job == job)
  }

  /** On every run, a job is handed out ahead of a queued one only as the lanes allow: the other is of a higher rank
      number or was put later, or was created at the same instant; or it is in the other lane, which a dedicated worker
      does not serve and a shared worker only if its own is background and the interactive lane is empty. */
  lemma {:induction false} ServedInOrder(states: seq<Sys>, labels: seq<Label>, n: nat, job: Job, other: Job)
    requires Run(states, labels) && n < |labels| && Enabled(states[n], labels[n])
    requires Hands(states[n], labels[n], job) && Queued(states[n], other) && other != job
    ensures Queued(states[n], job)
    ensures (other.rank == INTERACTIVE_RANK) == (job.rank == INTERACTIVE_RANK) ==>
              job.rank < other.rank || (job.rank == other.rank && (job.id < other.id || job.created == other.created))
    ensures labels[n].Look? && other.rank == INTERACTIVE_RANK ==> job.rank == INTERACTIVE_RANK
    ensures labels[n].Take? ==> (job.rank == INTERACTIVE_RANK <==> states[n].workers[labels[n].w].kind.Interactive?)
  {
    EveryJobOnce(states, labels, n);
    assert (other.rank == INTERACTIVE_RANK) == (job.rank == INTERACTIVE_RANK) ==> !Before(other, job);
  }
}
