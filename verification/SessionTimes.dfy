/** What each stretch of a pooled job does to the pool, and how long an entry lives. */
module SessionTimes {
  import opened SessionPool
  import opened Wrappers

  predicate HolderIs(p: Pool, e: nat, holder: Option<nat>) { e < |p.entries| && p.entries[e].holder == holder }

  /** The pools differ at most in who holds entry `e`, which is now `holder`. */
  predicate OnlyHolder(p: Pool, p': Pool, e: nat, holder: Option<nat>) {
    && p'.pool == p.pool && |p'.entries| == |p.entries| && HolderIs(p', e, holder)
    && forall k | 0 <= k < |p.entries| ::
         && (k != e ==> p'.entries[k] == p.entries[k])
         && p'.entries[k].user == p.entries[k].user && p'.entries[k].expires == p.entries[k].expires
         && p'.entries[k].needsLogin == p.entries[k].needsLogin && p'.entries[k].logins == p.entries[k].logins
  }

  /** Job `j` reuses the pooled entry: it has the lock if that was free and nobody waits for it, and waits otherwise. */
  predicate Reuses(s: Sys, s': Sys, j: nat, user: nat)
    requires user in s.p.pool
  {
    var e := s.p.pool[user];
    && s'.now == s.now
    && if HolderIs(s.p, e, None) && forall i | i in s.jobs :: s.jobs[i].phase != Queued(e)
       then OnlyHolder(s.p, s'.p, e, Some(j)) && s'.jobs == s.jobs[j := Job(user, Holding(e, Entering))]
       else s'.p == s.p && s'.jobs == s.jobs[j := Job(user, Queued(e))]
  }

  /** Job `j` makes a new entry, good for a whole lifetime and without a login yet, at which it is alone. */
  predicate Opens(c: Config, s: Sys, s': Sys, j: nat, user: nat) {
    var e := |s.p.entries|;
    && s'.now == s.now && s'.p.pool == s.p.pool[user := e] && |s'.p.entries| == e + 1
    && s'.p.entries[..e] == s.p.entries
    && s'.p.entries[e].user == user && s'.p.entries[e].expires == s.now + c.ttl && s'.p.entries[e].needsLogin
    && s'.p.entries[e].logins == 0 && j in s'.jobs && s'.jobs[j].user == user && s'.jobs - {j} == s.jobs - {j}
    && if forall i | i in s.jobs :: s.jobs[i].phase != Queued(e)
       then HolderIs(s'.p, e, Some(j)) && s'.jobs[j].phase == Holding(e, Entering)
       else HolderIs(s'.p, e, None) && s'.jobs[j].phase == Queued(e)
  }

  /** The pooled entry of `user` goes, and nothing else; job `j` is in the given phase. */
  predicate DropsOnly(s: Sys, s': Sys, j: nat, job: Job, user: nat) {
    && s'.now == s.now && s'.p.entries == s.p.entries && s'.p.pool == s.p.pool - {user} && s'.jobs == s.jobs[j := job]
  }

  /** A job that found no entry: while the pool is full it drops the next candidate, and then it looks again. */
  predicate MakesRoom(c: Config, s: Sys, s': Sys, j: nat, user: nat, candidates: seq<nat>) {
    if |s.p.pool| >= c.cap && |candidates| > 0 then
      DropsOnly(s, s', j, Job(user, Evicting(candidates[1..])), candidates[0])
    else if user in s.p.pool then Reuses(s, s', j, user)
    else Opens(c, s, s', j, user)
  }

  lemma {:induction false} EnterIs(c: Config, s: Sys, j: nat, user: nat)
    requires Indexed(s.p)
    ensures var s' := Enter(c, s, j, user);
            if user in s.p.pool then Reuses(s, s', j, user) else Opens(c, s, s', j, user)
  {
    var s' := Enter(c, s, j, user);
    if user !in s.p.pool {
      assert s'.p.entries[..|s.p.entries|] == s.p.entries;
      assert s'.jobs - {j} == s.jobs - {j};
    }
  }

  /** An arriving job drops its user's entry exactly if that has expired or its client is closed, and its lock is free;
      any other entry is reused, and a missing one is made once there is room. */
  lemma {:induction false} ArriveIs(c: Config, s: Sys, j: nat, user: nat, usable: bool, candidates: seq<nat>)
    requires Enabled(c, s, Arrive(j, user, usable, candidates))
    ensures var s' := Apply(c, s, Arrive(j, user, usable, candidates));
            if user !in s.p.pool then MakesRoom(c, s, s', j, user, candidates)
            else
              var entry := s.p.entries[s.p.pool[user]];
              if (entry.expires <= s.now || !usable) && entry.holder.None?
              then DropsOnly(s, s', j, Job(user, Closing), user)
              else Reuses(s, s', j, user)
  {
    EnterIs(c, s, j, user);
  }

  /** After the close of a dropped client, and after each eviction, the job goes on making room. */
  lemma {:induction false} MakingRoomIs(c: Config, s: Sys, l: Label)
    requires Enabled(c, s, l) && (l.Closed? || l.Evict?)
    ensures MakesRoom(c, s, Apply(c, s, l), l.j, s.jobs[l.j].user,
                      if l.Closed? then l.candidates else s.jobs[l.j].phase.candidates)
  {
    EnterIs(c, s, l.j, s.jobs[l.j].user);
  }

  /** The stretches of a job at its entry: the lock, a login if the entry needs one, the work, and a lifetime more after
      it; a fault drops whatever the pool has for the user and keeps the lock until the close. */
  lemma {:induction false} EntryStepIs(c: Config, s: Sys, l: Label)
    requires Enabled(c, s, l) && !l.Tick? && !l.Arrive? && !l.Closed? && !l.Evict?
    ensures var s', job := Apply(c, s, l), s.jobs[l.j];
            && s'.now == s.now
            && match l
               case Acquire(j) =>
                 && OnlyHolder(s.p, s'.p, job.phase.e, Some(j))
                 && s'.jobs == s.jobs[j := Job(job.user, Holding(job.phase.e, Entering))]
               case Admitted(j) =>
                 var stage := if s.p.entries[job.phase.e].needsLogin then LoggingIn else Working;
                 s'.p == s.p && s'.jobs == s.jobs[j := Job(job.user, Holding(job.phase.e, stage))]
               case LoginDone(j) =>
                 var e, was := job.phase.e, s.p.entries[job.phase.e];
                 && s'.p.pool == s.p.pool && s'.jobs == s.jobs[j := Job(job.user, Holding(e, Working))]
                 && s'.p.entries == s.p.entries[e := Entry(was.user, was.expires, false, was.holder, was.logins + 1)]
               case WorkDone(j) =>
                 var e, was := job.phase.e, s.p.entries[job.phase.e];
                 && s'.p.pool == s.p.pool && s'.jobs == s.jobs - {j}
                 && s'.p.entries == s.p.entries[e := Entry(was.user, s.now + c.ttl, was.needsLogin, None, was.logins)]
               case Fault(j) => DropsOnly(s, s', j, Job(job.user, Dropping(job.phase.e)), job.user)
               case CloseDone(j) => OnlyHolder(s.p, s'.p, job.phase.e, None) && s'.jobs == s.jobs - {j}
               case Abort(j) =>
                 && s'.jobs == s.jobs - {j}
                 && if job.phase.Holding? || job.phase.Dropping? then OnlyHolder(s.p, s'.p, job.phase.e, None)
                    else s'.p == s.p
               case _ => true
  {
  }

  // ---------------------------------------------------------------- lifetimes

  /** The step makes entry `e`, or completes a job's work at it. */
  ghost predicate Renews(s: Sys, l: Label, s': Sys, e: nat) {
    || |s.p.entries| <= e < |s'.p.entries|
    || (l.WorkDone? && l.j in s.jobs && s.jobs[l.j].phase == Holding(e, Working))
  }

  /** A renewal is for one lifetime, and an entry that is not renewed keeps its time. */
  ghost predicate Ages(c: Config, s: Sys, l: Label, s': Sys, e: nat) {
    e < |s'.p.entries| ==>
      if Renews(s, l, s', e) then s'.p.entries[e].expires == s.now + c.ttl
      else e < |s.p.entries| && s'.p.entries[e].expires == s.p.entries[e].expires
  }

  lemma {:induction false} ExpiryStep(c: Config, s: Sys, l: Label, e: nat)
    requires Enabled(c, s, l)
    ensures Ages(c, s, l, Apply(c, s, l), e)
  {
    match l
    case Tick(_) =>
    case Arrive(j, user, usable, candidates) => ArriveIs(c, s, j, user, usable, candidates);
    case Closed(_, _) => MakingRoomIs(c, s, l);
    case Evict(_) => MakingRoomIs(c, s, l);
    case _ => EntryExpiry(c, s, l, e);
  }

  lemma {:induction false} EntryExpiry(c: Config, s: Sys, l: Label, e: nat)
    requires Enabled(c, s, l) && !l.Tick? && !l.Arrive? && !l.Closed? && !l.Evict?
    ensures Ages(c, s, l, Apply(c, s, l), e)
  {
    EntryStepIs(c, s, l);
  }

  ghost predicate AllAge(c: Config, states: seq<Sys>, labels: seq<Label>, e: nat) {
    && |states| == |labels| + 1 && states[0].p.entries == []
    && forall i | 0 <= i < |labels| :: Ages(c, states[i], labels[i], states[i + 1], e)
  }

  lemma {:induction false} RunsAge(c: Config, states: seq<Sys>, labels: seq<Label>, e: nat)
    requires Run(c, states, labels)
    ensures AllAge(c, states, labels, e)
  {
    forall i | 0 <= i < |labels| ensures Ages(c, states[i], labels[i], states[i + 1], e) {
      assert Stepped(c, states[i], labels[i], states[i + 1]);
      ExpiryStep(c, states[i], labels[i], e);
    }
  }

  /** On every run, an entry expires one lifetime after its last renewal: its creation or the last work done at it. */
  lemma {:induction false} ExpiresAfterRenewal(c: Config, states: seq<Sys>, labels: seq<Label>, n: nat, e: nat)
    returns (k: nat)
    requires Run(c, states, labels) && n < |states| && e < |states[n].p.entries|
    ensures k < n && Renews(states[k], labels[k], states[k + 1], e)
    ensures states[n].p.entries[e].expires == states[k].now + c.ttl
    ensures forall m | k < m < n :: !Renews(states[m], labels[m], states[m + 1], e)
  {
    RunsAge(c, states, labels, e);
    k := LastRenewal(c, states, labels, n, e);
  }

  lemma {:induction false} LastRenewal(c: Config, states: seq<Sys>, labels: seq<Label>, n: nat, e: nat)
    returns (k: nat)
    requires AllAge(c, states, labels, e) && n < |states| && e < |states[n].p.entries|
    ensures k < n && Renews(states[k], labels[k], states[k + 1], e)
    ensures states[n].p.entries[e].expires == states[k].now + c.ttl
    ensures forall m | k < m < n :: !Renews(states[m], labels[m], states[m + 1], e)
  {
    assert Ages(c, states[n - 1], labels[n - 1], states[n], e);
    if Renews(states[n - 1], labels[n - 1], states[n], e) {
      k := n - 1;
    } else {
      k := LastRenewal(c, states, labels, n - 1, e);
    }
  }
}
