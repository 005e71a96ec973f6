/** How a request, a job and a retry end, stated on the state after the step. */
module JobEndings {
  import opened JobQueue
  import opened JobQueueRuns
  import opened Wrappers

  // ---------------------------------------------------------------- requests

  /** The key has a future in flight that is not done. */
  predicate Joinable(s: Sys, key: Option<nat>) {
    && key.Some? && key.value in s.core.inFlight
    && s.core.inFlight[key.value] < |s.core.futs| && s.core.futs[s.core.inFlight[key.value]].outcome.None?
  }

  predicate HasRoom(c: Config, s: Sys, high: bool) {
    if high then |s.core.queued| < 2 * c.maxDepth else |s.core.queued| < c.maxDepth
  }

  /** A request is queued, as a first attempt with the next future in flight under its key, exactly if there is room and
      nothing to join; otherwise nothing changes. */
  lemma {:induction false} RequestIs(c: Config, s: Sys, key: Option<nat>, high: bool)
    requires Shape(c, s)
    ensures var s', job := Apply(c, s, Request(key, high)), Job(key, high, 0, |s.core.futs|, |s.core.futs|);
            && job !in s.core.queued
            && if HasRoom(c, s, high) && !Joinable(s, key) then IsAdmitted(s, s', job) else s' == s
  {
    if Job(key, high, 0, |s.core.futs|, |s.core.futs|) in s.core.queued {
      JobIsNew(c, s, Waiting(Job(key, high, 0, |s.core.futs|, |s.core.futs|)));
    }
    Admitting(c, s, key, high);
  }

  ghost predicate IsAdmitted(s: Sys, s': Sys, job: Job) {
    && s'.core.queued == s.core.queued + {job} && s'.core.futs == s.core.futs + [Fut(None, job.fut, job.key)]
    && s'.core.inFlight == (if job.key.Some? then s.core.inFlight[job.key.value := job.fut] else s.core.inFlight)
    && s'.running == s.running && s'.retries == s.retries
  }

  lemma {:induction false} Admitting(c: Config, s: Sys, key: Option<nat>, high: bool)
    ensures var s', job := Apply(c, s, Request(key, high)), Job(key, high, 0, |s.core.futs|, |s.core.futs|);
            if HasRoom(c, s, high) && !Joinable(s, key) then IsAdmitted(s, s', job) else s' == s
  {
  }

  /** And what the caller is told: the rejection exactly without room, else the future in flight, else its own. */
  lemma {:induction false} AnswerIs(c: Config, s: Sys, key: Option<nat>, high: bool)
    ensures var r := Enqueue(c, s.core, key, high, 0, None).1;
            && (r.Rejected? <==> !HasRoom(c, s, high))
            && (r.Joined? <==> HasRoom(c, s, high) && Joinable(s, key))
            && (r.Joined? ==> r.fut == s.core.inFlight[key.value])
            && (r.Accepted? ==> r.job.fut == |s.core.futs|)
  {
  }

  /** On every run the queue holds twice its depth at most, and grows past the depth only by interactive jobs. */
  lemma {:induction false} QueueIsBounded(c: Config, states: seq<Sys>, labels: seq<Label>, i: nat)
    requires Run(c, states, labels) && i < |states|
    ensures |states[i].core.queued| <= 2 * c.maxDepth
    ensures i < |labels| && |states[i].core.queued| >= c.maxDepth ==>
              forall job | job in states[i + 1].core.queued && job !in states[i].core.queued :: job.high
    decreases i
  {
    if i > 0 {
      QueueIsBounded(c, states, labels, i - 1);
      assert Stepped(c, states[i - 1], labels[i - 1], states[i]);
      QueueGrows(c, states[i - 1], labels[i - 1]);
    }
    if i < |labels| {
      assert Stepped(c, states[i], labels[i], states[i + 1]);
      QueueGrows(c, states[i], labels[i]);
    }
  }

  lemma {:induction false} QueueGrows(c: Config, s: Sys, l: Label)
    requires Enabled(s, l)
    ensures var now, will := s.core.queued, Apply(c, s, l).core.queued;
            && (|now| <= 2 * c.maxDepth ==> |will| <= 2 * c.maxDepth)
            && (|now| >= c.maxDepth ==> forall job | job in will && job !in now :: job.high)
  {
    if l.Begin? {
      assert s.core.queued == Apply(c, s, l).core.queued + {l.job};
    }
  }

  // ---------------------------------------------------------------- jobs

  /** The handler failed, not for good, and the budget is not spent. */
  predicate WillRetry(c: Config, job: Job, x: Outcome, permanent: bool) {
    x.Raised? && !permanent && job.attempt < c.maxRetries
  }

  /** When a handler ends, a retry of its job exists exactly if the handler raised, not for good, within the budget: it
      has the job's future, key and priority and the next attempt number, and nothing else changes. In every other case
      nobody holds the future, a pending one has the outcome, and the key is free. */
  lemma {:induction false} FinishIs(c: Config, s: Sys, w: nat, x: Outcome, permanent: bool, task: nat)
    requires Shape(c, s) && Enabled(s, Finish(w, x, permanent, task))
    ensures var s', job := Apply(c, s, Finish(w, x, permanent, task)), s.running[w];
            (exists h :: IsHolderOf(s', h, job.fut)) <==> WillRetry(c, job, x, permanent)
    ensures var s', job := Apply(c, s, Finish(w, x, permanent, task)), s.running[w];
            s'.running == s.running - {w} &&
            if WillRetry(c, job, x, permanent) then
              && s'.retries == s.retries[task := Retry(job.key, job.high, job.attempt + 1, job.fut, job.origin, None)]
              && s'.core == s.core
            else
              && s'.retries == s.retries && s'.core.queued == s.core.queued
              && (job.key.Some? ==> job.key.value !in s'.core.inFlight)
              && (forall k | k in s.core.inFlight && job.key != Some(k) ::
                    k in s'.core.inFlight && s'.core.inFlight[k] == s.core.inFlight[k])
              && job.fut < |s.core.futs| && s'.core.futs ==
                 (if s.core.futs[job.fut].outcome.None? then s.core.futs[job.fut := Fut(Some(x), job.origin, job.key)]
                  else s.core.futs)
  {
    var s', job := Apply(c, s, Finish(w, x, permanent, task)), s.running[w];
    assert IsHolderOf(s, OnWorker(w), job.fut) && InShape(c, s, LoadOf(s, OnWorker(w)));
    if WillRetry(c, job, x, permanent) {
      assert IsHolderOf(s', Task(task), job.fut);
    } else {
      NobodyHolds(c, s, w, x, permanent, task);
    }
  }

  lemma {:induction false} NobodyHolds(c: Config, s: Sys, w: nat, x: Outcome, permanent: bool, task: nat)
    requires Shape(c, s) && Enabled(s, Finish(w, x, permanent, task)) && !WillRetry(c, s.running[w], x, permanent)
    ensures forall h :: !IsHolderOf(Apply(c, s, Finish(w, x, permanent, task)), h, s.running[w].fut)
  {
    var s', f := Apply(c, s, Finish(w, x, permanent, task)), s.running[w].fut;
    assert IsHolderOf(s, OnWorker(w), f);
    forall h ensures !IsHolderOf(s', h, f) {
      assert Holds(s', h) ==> Holds(s, h) && LoadOf(s', h) == LoadOf(s, h) && h != OnWorker(w);
    }
  }

  /** The handler of chain o ends, as the worker of the label says. */
  predicate Ends(s: Sys, l: Label, o: nat) { l.Finish? && l.w in s.running && s.running[l.w].origin == o }

  /** On every run, with any cancellations: a handler runs again for a chain only after it raised, not for good, in
      every run before. */
  lemma {:induction false} OnlyFailuresAreRetried(c: Config, states: seq<Sys>, labels: seq<Label>, i: nat, k: nat,
                                                  o: nat)
    requires Run(c, states, labels) && i < k < |labels|
    requires Ends(states[i], labels[i], o) && Ends(states[k], labels[k], o)
    ensures labels[i].x.Raised? && !labels[i].permanent
  {
    assert Stepped(c, states[k], labels[k], states[k + 1]);
    ChainsInShape(c, states, labels, k);
    TouchesUnfinished(c, states[k], labels[k], o);
    ChainsInShape(c, states, labels, i);
    assert Stepped(c, states[i], labels[i], states[i + 1]);
    SuccessIsRecorded(c, states[i], labels[i], o);
    if states[i + 1].final[o].Some? { EndingIsFinal(c, states, labels, i + 1, k, o); }
  }

  lemma {:induction false} SuccessIsRecorded(c: Config, s: Sys, l: Label, o: nat)
    requires Shape(c, s) && Enabled(s, l) && Ends(s, l, o)
    ensures var s' := Apply(c, s, l);
            o < |s'.final| && (s'.final[o].None? ==> l.x.Raised? && !l.permanent)
  {
    assert InShape(c, s, LoadOf(s, OnWorker(l.w)));
  }

  lemma {:induction false} FinalStays(c: Config, s: Sys, l: Label, o: nat)
    requires Shape(c, s) && Enabled(s, l) && o < |s.final| && s.final[o].Some?
    ensures o < |Apply(c, s, l).final| && Apply(c, s, l).final[o] == s.final[o]
  {
    if Touches(s, l, o) { TouchesUnfinished(c, s, l, o); }
    CountsStay(c, s, l, o);
  }

  lemma {:induction false} EndingIsFinal(c: Config, states: seq<Sys>, labels: seq<Label>, i: nat, k: nat, o: nat)
    requires Run(c, states, labels) && i <= k < |states| && o < |states[i].final| && states[i].final[o].Some?
    ensures o < |states[k].final| && states[k].final[o] == states[i].final[o]
    decreases k
  {
    if i < k {
      EndingIsFinal(c, states, labels, i, k - 1, o);
      FinalStaysAt(c, states, labels, k - 1, o);
    }
  }

  lemma {:induction false} FinalStaysAt(c: Config, states: seq<Sys>, labels: seq<Label>, k: nat, o: nat)
    requires Run(c, states, labels) && k < |labels| && o < |states[k].final| && states[k].final[o].Some?
    ensures o < |states[k + 1].final| && states[k + 1].final[o] == states[k].final[o]
  {
    ChainsInShape(c, states, labels, k);
    assert Stepped(c, states[k], labels[k], states[k + 1]);
    FinalStays(c, states[k], labels[k], o);
  }

  // ---------------------------------------------------------------- retries

  /** The retry gives up for want of room: its future gets the rejection, and its key is free. */
  ghost predicate GivesUp(s: Sys, s': Sys, task: nat, t: Retry) {
    && s'.retries == s.retries - {task} && s'.core.queued == s.core.queued
    && (t.key.Some? ==> t.key.value !in s'.core.inFlight)
    && t.original < |s.core.futs| && s'.core.futs ==
       (if s.core.futs[t.original].outcome.None? then s.core.futs[t.original := Fut(Some(QueueFull), t.origin, t.key)]
        else s.core.futs)
  }

  /** The retry awaits future f. */
  predicate Awaits(s: Sys, s': Sys, task: nat, t: Retry, f: nat) {
    s'.retries == s.retries[task := t.(waiting := Some(f))]
  }

  /** The job of the retry is queued, with its key, priority and attempt, and the next future in flight. */
  ghost predicate IsQueuedAgain(s: Sys, s': Sys, t: Retry) {
    var f := |s.core.futs|;
    && s'.core.queued == s.core.queued + {Job(t.key, t.high, t.attempt, f, t.origin)}
    && s'.core.futs == s.core.futs + [Fut(None, t.origin, t.key)]
    && (t.key.Some? ==> t.key.value in s'.core.inFlight && s'.core.inFlight[t.key.value] == f)
  }

  /** When a retry wakes: without room it gives up; if the key has a future in flight the retry awaits that; otherwise
      it awaits the job it has queued. */
  lemma {:induction false} WakeIs(c: Config, s: Sys, task: nat)
    requires Shape(c, s) && Enabled(s, WakeRetry(task))
    ensures var s', t := Apply(c, s, WakeRetry(task)), s.retries[task];
            if !HasRoom(c, s, t.high) then GivesUp(s, s', task, t)
            else if Joinable(s, t.key) then s'.core == s.core && Awaits(s, s', task, t, s.core.inFlight[t.key.value])
            else IsQueuedAgain(s, s', t) && Awaits(s, s', task, t, |s.core.futs|)
  {
    assert InShape(c, s, LoadOf(s, Task(task)));
    var t := s.retries[task];
    if !HasRoom(c, s, t.high) {
      GivingUp(c, s, task);
    } else if Joinable(s, t.key) {
      Joining(c, s, task);
    } else {
      QueueingAgain(c, s, task);
    }
  }

  lemma {:induction false} GivingUp(c: Config, s: Sys, task: nat)
    requires Enabled(s, WakeRetry(task)) && InShape(c, s, LoadOf(s, Task(task)))
    requires !HasRoom(c, s, s.retries[task].high)
    ensures GivesUp(s, Apply(c, s, WakeRetry(task)), task, s.retries[task])
  {
  }

  lemma {:induction false} Joining(c: Config, s: Sys, task: nat)
    requires Enabled(s, WakeRetry(task)) && HasRoom(c, s, s.retries[task].high) && Joinable(s, s.retries[task].key)
    ensures var s', t := Apply(c, s, WakeRetry(task)), s.retries[task];
            s'.core == s.core && Awaits(s, s', task, t, s.core.inFlight[t.key.value])
  {
  }

  lemma {:induction false} QueueingAgain(c: Config, s: Sys, task: nat)
    requires Enabled(s, WakeRetry(task)) && HasRoom(c, s, s.retries[task].high) && !Joinable(s, s.retries[task].key)
    ensures var s', t := Apply(c, s, WakeRetry(task)), s.retries[task];
            IsQueuedAgain(s, s', t) && Awaits(s, s', task, t, |s.core.futs|)
  {
  }

  /** When what a retry awaited is done: a pending future takes the same outcome, unless that is a cancellation, which
      is not passed on; and the key is free either way. */
  lemma {:induction false} EndIs(c: Config, s: Sys, task: nat)
    requires Shape(c, s) && Enabled(s, EndRetry(task))
    ensures var s', t := Apply(c, s, EndRetry(task)), s.retries[task];
            var x := s.core.futs[t.waiting.value].outcome.value;
            && s'.retries == s.retries - {task} && s'.core.queued == s.core.queued
            && (t.key.Some? ==> t.key.value !in s'.core.inFlight)
            && t.original < |s.core.futs| && s'.core.futs ==
               (if x.Cancelled? || s.core.futs[t.original].outcome.Some? then s.core.futs
                else s.core.futs[t.original := Fut(Some(x), t.origin, t.key)])
  {
    assert InShape(c, s, LoadOf(s, Task(task)));
  }
}
