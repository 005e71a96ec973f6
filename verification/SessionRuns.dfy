/** What holds over every run of the session pool, and what a dropped entry with a queue breaks. */
module SessionRuns {
  import opened SessionPool
  import opened Wrappers

  predicate HasLock(job: Job) { job.phase.Holding? || job.phase.Dropping? }

  predicate HasEntry(job: Job) { HasLock(job) || job.phase.Queued? }

  /** A job's entry is one of its user's; a job past its queue is the holder of that entry's lock; it is logging
      in only while the entry needs a login, and inside `work` only when the entry does not. */
  predicate JobSound(p: Pool, j: nat, job: Job) {
    HasEntry(job) ==>
      && job.phase.e < |p.entries| && p.entries[job.phase.e].user == job.user
      && (HasLock(job) ==> p.entries[job.phase.e].holder == Some(j))
      && (job.phase.Holding? ==>
            && (job.phase.stage == Working ==> !p.entries[job.phase.e].needsLogin)
            && (job.phase.stage == LoggingIn ==> p.entries[job.phase.e].needsLogin))
  }

  /** An entry has completed one login if it needs none, and none if it needs one. */
  predicate OneLogin(p: Pool) {
    forall e | 0 <= e < |p.entries| :: p.entries[e].logins == if p.entries[e].needsLogin then 0 else 1
  }

  ghost predicate Sound(s: Sys) {
    && Indexed(s.p) && OneLogin(s.p)
    && forall j | j in s.jobs :: JobSound(s.p, j, s.jobs[j])
  }

  /** Only entry `e` differs, and its user does not. */
  predicate OnlyEntry(p: Pool, p': Pool, e: nat) {
    && |p.entries| <= |p'.entries|
    && (forall k | 0 <= k < |p.entries| && k != e :: p'.entries[k] == p.entries[k])
    && (e < |p.entries| ==> p'.entries[e].user == p.entries[e].user)
  }

  /** A step of job `j` that touches only entry `e` leaves every other job sound, if none of them has the lock of
      `e` before, or if its lock and login state stay. */
  lemma {:induction false} OthersStaySound(s: Sys, p': Pool, jobs': map<nat, Job>, j: nat, e: nat)
    requires Sound(s) && OnlyEntry(s.p, p', e)
    requires forall i | i in jobs' && i != j :: i in s.jobs && jobs'[i] == s.jobs[i]
    requires e < |s.p.entries| ==> s.p.entries[e].holder.None? || s.p.entries[e].holder == Some(j)
    requires j in jobs' ==> JobSound(p', j, jobs'[j])
    requires Indexed(p') && OneLogin(p')
    ensures Sound(Sys(p', s.now, jobs'))
  {
  }

  lemma {:induction false} EnterIsSound(c: Config, s: Sys, j: nat, user: nat)
    requires Sound(s)
    ensures Sound(Enter(c, s, j, user))
  {
    var p := if user in s.p.pool then s.p else Created(c, s.p, user, s.now);
    var e := p.pool[user];
    var s' := Enter(c, s, j, user);
    if s'.jobs[j].phase.Queued? {
      OthersStaySound(s, s'.p, s'.jobs, j, |s.p.entries|);
    } else {
      OthersStaySound(s, s'.p, s'.jobs, j, e);
    }
    assert s' == Sys(s'.p, s.now, s'.jobs);
  }

  lemma {:induction false} DropIsSound(s: Sys, j: nat, job: Job, user: nat)
    requires Sound(s) && !HasEntry(job)
    ensures Sound(Sys(Dropped(s.p, user), s.now, s.jobs[j := job]))
  {
  }

  lemma {:induction false} EvictIsSound(c: Config, s: Sys, j: nat, user: nat, candidates: seq<nat>)
    requires Sound(s)
    ensures Sound(EvictNext(c, s, j, user, candidates))
  {
    if |s.p.pool| < c.cap || candidates == [] {
      EnterIsSound(c, s, j, user);
    } else {
      DropIsSound(s, j, Job(user, Evicting(candidates[1..])), candidates[0]);
    }
  }

  lemma {:induction false} SoundStep(c: Config, s: Sys, l: Label)
    requires Sound(s) && Enabled(c, s, l)
    ensures Sound(Apply(c, s, l))
  {
    var s' := Apply(c, s, l);
    match l
    case Tick(_) =>
    case Arrive(j, user, usable, candidates) =>
      if Reapable(s.p, user, s.now, usable) {
        DropIsSound(s, j, Job(user, Closing), user);
      } else if user in s.p.pool {
        EnterIsSound(c, s, j, user);
      } else {
        EvictIsSound(c, s, j, user, candidates);
      }
    case Closed(j, candidates) => EvictIsSound(c, s, j, s.jobs[j].user, candidates);
    case Evict(j) => EvictIsSound(c, s, j, s.jobs[j].user, s.jobs[j].phase.candidates);
    case Acquire(j) => EntryStepIsSound(c, s, l, j);
    case Admitted(j) => EntryStepIsSound(c, s, l, j);
    case LoginDone(j) => EntryStepIsSound(c, s, l, j);
    case WorkDone(j) => EntryStepIsSound(c, s, l, j);
    case Fault(j) => EntryStepIsSound(c, s, l, j);
    case CloseDone(j) => EntryStepIsSound(c, s, l, j);
    case Abort(j) =>
      if HasLock(s.jobs[j]) { EntryStepIsSound(c, s, l, j); }
  }

  /** The steps of a job at its entry. */
  lemma {:induction false} EntryStepIsSound(c: Config, s: Sys, l: Label, j: nat)
    requires Sound(s) && Enabled(c, s, l) && j in s.jobs && HasEntry(s.jobs[j])
    requires l in {Acquire(j), Admitted(j), LoginDone(j), WorkDone(j), Fault(j), CloseDone(j), Abort(j)}
    requires l != Acquire(j) ==> HasLock(s.jobs[j])
    ensures Sound(Apply(c, s, l))
  {
    var s', e := Apply(c, s, l), s.jobs[j].phase.e;
    assert JobSound(s.p, j, s.jobs[j]);
    OthersStaySound(s, s'.p, s'.jobs, j, e);
    assert s' == Sys(s'.p, s.now, s'.jobs);
  }

  /** Over every run: locks are consistent, every entry completes at most one login, and `work` runs only at an
      entry that has completed one. */
  lemma {:induction false} AlwaysSound(c: Config, states: seq<Sys>, labels: seq<Label>, n: nat)
    requires Run(c, states, labels) && n < |states|
    ensures Sound(states[n])
  {
    if n > 0 {
      AlwaysSound(c, states, labels, n - 1);
      assert Stepped(c, states[n - 1], labels[n - 1], states[n]);
      SoundStep(c, states[n - 1], labels[n - 1]);
    }
  }

  // ---------------------------------------------------------------- one job per user

  /** Queued for, or holding, an entry that nothing has dropped under it by a fault of its own. */
  predicate Attached(job: Job) { job.phase.Queued? || job.phase.Holding? }

  /** Every attached job is at the entry the pool has for its user. */
  ghost predicate Honest(s: Sys) {
    forall j | j in s.jobs && Attached(s.jobs[j]) ::
      s.jobs[j].user in s.p.pool && s.p.pool[s.jobs[j].user] == s.jobs[j].phase.e
  }

  /** Some job other than `but` is attached for this user. */
  ghost predicate Busy(s: Sys, user: nat, but: nat) {
    exists i :: i != but && i in s.jobs && Attached(s.jobs[i]) && s.jobs[i].user == user
  }

  /** The next step of an evicting job drops its first candidate. */
  predicate Evicts(c: Config, s: Sys, candidates: seq<nat>) { c.cap <= |s.p.pool| && candidates != [] }

  /** The step drops the pooled entry of a user for whom another job is attached. */
  ghost predicate DropsBusy(c: Config, s: Sys, l: Label)
    requires Enabled(c, s, l)
  {
    match l
    case Arrive(j, user, usable, candidates) =>
      if Reapable(s.p, user, s.now, usable) then Busy(s, user, j)
      else user !in s.p.pool && Evicts(c, s, candidates) && Busy(s, candidates[0], j)
    case Closed(j, candidates) => Evicts(c, s, candidates) && Busy(s, candidates[0], j)
    case Evict(j) => Evicts(c, s, s.jobs[j].phase.candidates) && Busy(s, s.jobs[j].phase.candidates[0], j)
    case Fault(j) => Busy(s, s.jobs[j].user, j)
    case _ => false
  }

  ghost predicate Spares(c: Config, s: Sys, l: Label) { Enabled(c, s, l) && !DropsBusy(c, s, l) }

  /** A drop keeps the pool honest exactly when no other job is attached for that user. */
  lemma {:induction false} DropHonest(s: Sys, j: nat, job: Job, user: nat)
    requires Honest(s) && !Attached(job)
    ensures Honest(Sys(Dropped(s.p, user), s.now, s.jobs[j := job])) <==> !Busy(s, user, j)
  {
    var s' := Sys(Dropped(s.p, user), s.now, s.jobs[j := job]);
    if Busy(s, user, j) {
      var i :| i != j && i in s.jobs && Attached(s.jobs[i]) && s.jobs[i].user == user;
      assert i in s'.jobs && Attached(s'.jobs[i]);
    } else {
      forall i | i in s'.jobs && Attached(s'.jobs[i])
        ensures s'.jobs[i].user in s'.p.pool && s'.p.pool[s'.jobs[i].user] == s'.jobs[i].phase.e
      {
        assert i != j && i in s.jobs && s.jobs[i].user != user;
      }
    }
  }

  lemma {:induction false} EnterHonest(c: Config, s: Sys, j: nat, user: nat)
    requires Indexed(s.p) && Honest(s)
    ensures Honest(Enter(c, s, j, user))
  {
  }

  lemma {:induction false} EvictHonest(c: Config, s: Sys, j: nat, user: nat, candidates: seq<nat>)
    requires Indexed(s.p) && Honest(s)
    ensures Honest(EvictNext(c, s, j, user, candidates)) <==> !(Evicts(c, s, candidates) && Busy(s, candidates[0], j))
  {
    if Evicts(c, s, candidates) {
      DropHonest(s, j, Job(user, Evicting(candidates[1..])), candidates[0]);
    } else {
      EnterHonest(c, s, j, user);
    }
  }

  /** A step keeps every attached job at its user's pooled entry exactly when it does not drop a busy user. */
  lemma {:induction false} HonestStep(c: Config, s: Sys, l: Label)
    requires Honest(s) && Enabled(c, s, l)
    ensures Honest(Apply(c, s, l)) <==> !DropsBusy(c, s, l)
  {
    match l
    case Arrive(j, user, usable, candidates) =>
      if Reapable(s.p, user, s.now, usable) {
        DropHonest(s, j, Job(user, Closing), user);
      } else if user in s.p.pool {
        EnterHonest(c, s, j, user);
      } else {
        EvictHonest(c, s, j, user, candidates);
      }
    case Closed(j, candidates) => EvictHonest(c, s, j, s.jobs[j].user, candidates);
    case Evict(j) => EvictHonest(c, s, j, s.jobs[j].user, s.jobs[j].phase.candidates);
    case Fault(j) => DropHonest(s, j, s.jobs[j].(phase := Dropping(s.jobs[j].phase.e)), s.jobs[j].user);
    case _ =>
  }

  /** As long as no step has dropped a busy user, the job past its queue is at its user's pooled entry, and a user
      has at most one such job: the accounts are served one job at a time. */
  lemma {:induction false} OneJobPerUser(c: Config, states: seq<Sys>, labels: seq<Label>, n: nat, i: nat, j: nat)
    requires Run(c, states, labels) && n < |states|
    requires forall k | 0 <= k < n :: Spares(c, states[k], labels[k])
    requires i in states[n].jobs && states[n].jobs[i].phase.Holding?
    requires j in states[n].jobs && states[n].jobs[j].phase.Holding?
    ensures states[n].jobs[i].user in states[n].p.pool
    ensures states[n].p.pool[states[n].jobs[i].user] == states[n].jobs[i].phase.e
    ensures states[n].jobs[i].user == states[n].jobs[j].user ==> i == j
  {
    AlwaysSound(c, states, labels, n);
    AlwaysHonest(c, states, labels, n);
    assert JobSound(states[n].p, i, states[n].jobs[i]) && JobSound(states[n].p, j, states[n].jobs[j]);
  }

  lemma {:induction false} AlwaysHonest(c: Config, states: seq<Sys>, labels: seq<Label>, n: nat)
    requires Run(c, states, labels) && n < |states|
    requires forall k | 0 <= k < n :: Spares(c, states[k], labels[k])
    ensures Honest(states[n])
  {
    if n > 0 {
      AlwaysHonest(c, states, labels, n - 1);
      assert Stepped(c, states[n - 1], labels[n - 1], states[n]);
      HonestStep(c, states[n - 1], labels[n - 1]);
    }
  }

  // ---------------------------------------------------------------- why the condition is needed

  function SplitLabel(user: nat, i: nat): Label
    requires i < 11
  {
    match i
    case 0 => Arrive(0, user, true, [])
    case 1 => Admitted(0)
    case 2 => LoginDone(0)
    case 3 => Arrive(1, user, true, [])
    case 4 => Fault(0)
    case 5 => Arrive(2, user, true, [])
    case 6 => Admitted(2)
    case 7 => LoginDone(2)
    case 8 => CloseDone(0)
    case 9 => Acquire(1)
    case 10 => Admitted(1)
  }

  function Split(c: Config, user: nat, i: nat): Sys
    requires i < 12
  {
    var cold, used := Entry(user, c.ttl, true, Some(0), 0), Entry(user, c.ttl, false, Some(0), 1);
    var new0, new1 := Entry(user, c.ttl, true, Some(2), 0), Entry(user, c.ttl, false, Some(2), 1);
    var queued, in0, in1 := Job(user, Queued(0)), Job(user, Holding(0, Entering)), Job(user, Holding(1, Entering));
    var work0, work1, expired := Job(user, Holding(0, Working)), Job(user, Holding(1, Working)), Job(user, Dropping(0));
    var here, there := map[user := 0], map[user := 1];
    match i
    case 0 => Start()
    case 1 => Sys(Pool([cold], here), 0, map[0 := in0])
    case 2 => Sys(Pool([cold], here), 0, map[0 := Job(user, Holding(0, LoggingIn))])
    case 3 => Sys(Pool([used], here), 0, map[0 := work0])
    case 4 => Sys(Pool([used], here), 0, map[0 := work0, 1 := queued])
    case 5 => Sys(Pool([used], map[]), 0, map[0 := expired, 1 := queued])
    case 6 => Sys(Pool([used, new0], there), 0, map[0 := expired, 1 := queued, 2 := in1])
    case 7 => Sys(Pool([used, new0], there), 0, map[0 := expired, 1 := queued, 2 := Job(user, Holding(1, LoggingIn))])
    case 8 => Sys(Pool([used, new1], there), 0, map[0 := expired, 1 := queued, 2 := work1])
    case 9 => Sys(Pool([used.(holder := None), new1], there), 0, map[1 := queued, 2 := work1])
    case 10 => Sys(Pool([used.(holder := Some(1)), new1], there), 0, map[1 := in0, 2 := work1])
    case 11 => Sys(Pool([used.(holder := Some(1)), new1], there), 0, map[1 := work0, 2 := work1])
  }

  /** The condition is needed, whatever the configuration: a session that expires inside `work` drops an entry that has
      a job queued on its lock, the next arrival creates a second entry and logs in, and two jobs of one user are inside
      `work` together. */
  lemma {:induction false} DroppedEntrySplitsUser(c: Config, user: nat) returns (states: seq<Sys>, labels: seq<Label>)
    requires c.cap > 0
    ensures Run(c, states, labels) && |labels| == 11 && labels[4] == Fault(0) && InStage(states[4], 0, Working)
    ensures forall k | 0 <= k < 11 :: Spares(c, states[k], labels[k]) <==> k != 4
    ensures InStage(states[11], 1, Working) && InStage(states[11], 2, Working)
    ensures states[11].jobs[1].user == user == states[11].jobs[2].user
  {
    labels := seq(11, i requires 0 <= i < 11 => SplitLabel(user, i));
    states := seq(12, i requires 0 <= i < 12 => Split(c, user, i));
    forall i | 0 <= i < 11
      ensures Stepped(c, states[i], labels[i], states[i + 1])
      ensures Spares(c, states[i], labels[i]) <==> i != 4
    {
      assert states[i] == Split(c, user, i) && states[i + 1] == Split(c, user, i + 1);
      SplitStep(c, user, i);
    }
    assert states[11] == Split(c, user, 11) && states[4] == Split(c, user, 4);
  }

  lemma {:induction false} SplitStep(c: Config, user: nat, i: nat)
    requires c.cap > 0 && i < 11
    ensures Stepped(c, Split(c, user, i), SplitLabel(user, i), Split(c, user, i + 1))
    ensures Spares(c, Split(c, user, i), SplitLabel(user, i)) <==> i != 4
  {
    match i / 2
    case 0 => SplitOpens(c, user, i);
    case 1 => SplitLogsIn(c, user, i);
    case 2 => SplitExpires(c, user, i);
    case 3 => SplitCreates(c, user, i);
    case 4 => if i == 8 { SplitReleases(c, user); } else { SplitTakesOver(c, user); }
    case _ => SplitJoins(c, user);
  }

  lemma {:induction false} SplitOpens(c: Config, user: nat, i: nat)
    requires c.cap > 0 && 0 <= i <= 1
    ensures Stepped(c, Split(c, user, i), SplitLabel(user, i), Split(c, user, i + 1))
    ensures Spares(c, Split(c, user, i), SplitLabel(user, i))
  {
  }

  lemma {:induction false} SplitLogsIn(c: Config, user: nat, i: nat)
    requires c.cap > 0 && 2 <= i <= 3
    ensures Stepped(c, Split(c, user, i), SplitLabel(user, i), Split(c, user, i + 1))
    ensures Spares(c, Split(c, user, i), SplitLabel(user, i))
  {
  }

  lemma {:induction false} SplitExpires(c: Config, user: nat, i: nat)
    requires c.cap > 0 && 4 <= i <= 5
    ensures Stepped(c, Split(c, user, i), SplitLabel(user, i), Split(c, user, i + 1))
    ensures Spares(c, Split(c, user, i), SplitLabel(user, i)) <==> i != 4
  {
    if i == 4 {
      assert Split(c, user, i).jobs[1].user == user;
    } else {
    }
  }

  lemma {:induction false} SplitCreates(c: Config, user: nat, i: nat)
    requires c.cap > 0 && 6 <= i <= 7
    ensures Stepped(c, Split(c, user, i), SplitLabel(user, i), Split(c, user, i + 1))
    ensures Spares(c, Split(c, user, i), SplitLabel(user, i))
  {
  }

  lemma {:induction false} SplitReleases(c: Config, user: nat)
    requires c.cap > 0
    ensures Stepped(c, Split(c, user, 8), SplitLabel(user, 8), Split(c, user, 9))
    ensures Spares(c, Split(c, user, 8), SplitLabel(user, 8))
  {
  }

  lemma {:induction false} SplitTakesOver(c: Config, user: nat)
    requires c.cap > 0
    ensures Stepped(c, Split(c, user, 9), SplitLabel(user, 9), Split(c, user, 10))
    ensures Spares(c, Split(c, user, 9), SplitLabel(user, 9))
  {
  }

  lemma {:induction false} SplitJoins(c: Config, user: nat)
    requires c.cap > 0
    ensures Stepped(c, Split(c, user, 10), SplitLabel(user, 10), Split(c, user, 11))
    ensures Spares(c, Split(c, user, 10), SplitLabel(user, 10))
  {
  }
}
