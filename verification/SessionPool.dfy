/** Pooled sessions: one entry per user, one lock per entry, a shared cold start, and three ways to drop an entry.

    A job runs `with_pooled_session` in stretches between its await points; each label of `Sys` is one stretch.
    `Pool` is the module's dictionary with the entries it ever held, `SessionTable` that dictionary as an object. */
module SessionPool {

  import opened Wrappers

  /** `ttl` is the sliding lifetime, `cap` the pool size at which eviction starts. */
  datatype Config = Config(ttl: nat, cap: nat)

  /** `holder` is the job holding the entry's lock; `logins` counts completed logins. */
  datatype Entry = Entry(user: nat, expires: int, needsLogin: bool, holder: Option<nat>, logins: nat)

  /** `pool` maps a user to an index of `entries`; dropped entries stay in `entries` only. */
  datatype Pool = Pool(entries: seq<Entry>, pool: map<nat, nat>)

  predicate Indexed(p: Pool) {
    forall u | u in p.pool :: p.pool[u] < |p.entries| && p.entries[p.pool[u]].user == u
  }

  function Dropped(p: Pool, user: nat): Pool { p.(pool := p.pool - {user}) }

  /** An expired or closed entry is reaped only if nobody holds its lock. */
  predicate Reapable(p: Pool, user: nat, now: int, usable: bool)
    requires Indexed(p)
  {
    user in p.pool && (p.entries[p.pool[user]].expires <= now || !usable) && p.entries[p.pool[user]].holder.None?
  }

  function Created(c: Config, p: Pool, user: nat, now: int): Pool {
    Pool(p.entries + [Entry(user, now + c.ttl, true, None, 0)], p.pool[user := |p.entries|])
  }

  function WithHolder(p: Pool, e: nat, holder: Option<nat>): Pool
    requires e < |p.entries|
  {
    p.(entries := p.entries[e := p.entries[e].(holder := holder)])
  }

  function LoggedIn(p: Pool, e: nat): Pool
    requires e < |p.entries|
  {
    p.(entries := p.entries[e := p.entries[e].(needsLogin := false, logins := p.entries[e].logins + 1)])
  }

  function Extended(c: Config, p: Pool, e: nat, now: int): Pool
    requires e < |p.entries|
  {
    p.(entries := p.entries[e := p.entries[e].(expires := now + c.ttl)])
  }

  class SessionTable {
    const config: Config
    var entries: seq<Entry>
    var pool: map<nat, nat>

    function View(): Pool
      reads this
    {
      Pool(entries, pool)
    }

    constructor (config: Config)
      ensures this.config == config && View() == Pool([], map[])
    {
      this.config := config;
      entries, pool := [], map[];
    }

    method DropSession(user: nat) returns (existed: bool)
      modifies this`pool
      ensures View() == Dropped(old(View()), user) && existed == (user in old(pool))
    {
      existed := user in pool;
      pool := pool - {user};
    }

    /** The validation at the start: reap the entry if it may be reaped. */
    method ReapIfDead(user: nat, now: int, usable: bool) returns (reaped: bool)
      requires Indexed(View())
      modifies this`pool
      ensures reaped == Reapable(old(View()), user, now, usable)
      ensures View() == if reaped then Dropped(old(View()), user) else old(View())
    {
      reaped := false;
      if user in pool {
        var entry := entries[pool[user]];
        if (entry.expires <= now || !usable) && entry.holder.None? {
          reaped := DropSession(user);
        }
      }
    }

    /** The second lookup, and the creation of a missing entry. */
    method GetOrCreate(user: nat, now: int) returns (e: nat)
      requires Indexed(View())
      modifies this
      ensures Indexed(View()) && user in pool && e == pool[user]
      ensures View() == if user in old(pool) then old(View()) else Created(config, old(View()), user, now)
    {
      if user !in pool {
        pool := pool[user := |entries|];
        entries := entries + [Entry(user, now + config.ttl, true, None, 0)];
      }
      e := pool[user];
    }

    method LoginCompleted(e: nat)
      requires e < |entries|
      modifies this`entries
      ensures View() == LoggedIn(old(View()), e)
    {
      entries := entries[e := entries[e].(needsLogin := false, logins := entries[e].logins + 1)];
    }

    method WorkCompleted(e: nat, now: int)
      requires e < |entries|
      modifies this`entries
      ensures View() == WithHolder(Extended(config, old(View()), e, now), e, None)
    {
      entries := entries[e := entries[e].(expires := now + config.ttl)];
      entries := entries[e := entries[e].(holder := None)];
    }
  }

  // ---------------------------------------------------------------- jobs

  /** Within the lock: awaiting a gateway slot, logging in, or inside `work`. */
  datatype Stage = Entering | LoggingIn | Working

  /** Closing: awaiting the close of a reaped client. Evicting: dropping the candidates listed before its first
      await. Dropping: a fault dropped the session, and the lock is still held during the close. */
  datatype Phase =
    | Closing | Evicting(candidates: seq<nat>) | Queued(e: nat) | Holding(e: nat, stage: Stage) | Dropping(e: nat)

  datatype Job = Job(user: nat, phase: Phase)

  datatype Sys = Sys(p: Pool, now: int, jobs: map<nat, Job>)

  datatype Label =
    | Tick(to: int)
    | Arrive(j: nat, user: nat, usable: bool, candidates: seq<nat>)
    | Closed(j: nat, candidates: seq<nat>)
    | Evict(j: nat)
    | Acquire(j: nat)
    | Admitted(j: nat)
    | LoginDone(j: nat)
    | WorkDone(j: nat)
    | Fault(j: nat)       // LoginError, SessionExpiredError or CredentialsQuarantinedError
    | CloseDone(j: nat)   // the close after a fault has finished
    | Abort(j: nat)       // any other exception, a gateway rejection, or a cancellation

  /** Eviction lists users whose pooled entry is unlocked at that moment. */
  predicate Unlocked(p: Pool, candidates: seq<nat>) {
    forall i | 0 <= i < |candidates| ::
      candidates[i] in p.pool && p.pool[candidates[i]] < |p.entries| && p.entries[p.pool[candidates[i]]].holder.None?
  }

  predicate Enabled(c: Config, s: Sys, l: Label) {
    Indexed(s.p) &&
    match l
    case Tick(to) => s.now <= to
    case Arrive(j, user, usable, candidates) => j !in s.jobs && Unlocked(s.p, candidates)
    case Closed(j, candidates) => j in s.jobs && s.jobs[j].phase.Closing? && Unlocked(s.p, candidates)
    case Evict(j) => j in s.jobs && s.jobs[j].phase.Evicting?
    case Acquire(j) =>
      j in s.jobs && s.jobs[j].phase.Queued? && s.jobs[j].phase.e < |s.p.entries| &&
      s.p.entries[s.jobs[j].phase.e].holder.None?
    case Admitted(j) => InStage(s, j, Entering)
    case LoginDone(j) => InStage(s, j, LoggingIn)
    case WorkDone(j) => InStage(s, j, Working)
    case Fault(j) => InStage(s, j, LoggingIn) || InStage(s, j, Working)
    case CloseDone(j) => j in s.jobs && s.jobs[j].phase.Dropping? && s.jobs[j].phase.e < |s.p.entries|
    case Abort(j) =>
      j in s.jobs && (s.jobs[j].phase.Holding? || s.jobs[j].phase.Dropping? ==> s.jobs[j].phase.e < |s.p.entries|)
  }

  predicate InStage(s: Sys, j: nat, stage: Stage) {
    j in s.jobs && s.jobs[j].phase.Holding? && s.jobs[j].phase.stage == stage && s.jobs[j].phase.e < |s.p.entries|
  }

  predicate NoneQueued(s: Sys, e: nat) { forall j | j in s.jobs :: s.jobs[j].phase != Queued(e) }

  /** The stretch from the second lookup on: a free lock nobody queues for is taken at once. */
  function Enter(c: Config, s: Sys, j: nat, user: nat): Sys
    requires Indexed(s.p)
  {
    var p := if user in s.p.pool then s.p else Created(c, s.p, user, s.now);
    var e := p.pool[user];
    if p.entries[e].holder.None? && NoneQueued(s, e) then
      s.(p := WithHolder(p, e, Some(j)), jobs := s.jobs[j := Job(user, Holding(e, Entering))])
    else s.(p := p, jobs := s.jobs[j := Job(user, Queued(e))])
  }

  /** Eviction drops, without looking again, until the pool is under its cap or the list is done. */
  function EvictNext(c: Config, s: Sys, j: nat, user: nat, candidates: seq<nat>): Sys
    requires Indexed(s.p)
  {
    if |s.p.pool| < c.cap || candidates == [] then Enter(c, s, j, user)
    else s.(p := Dropped(s.p, candidates[0]), jobs := s.jobs[j := Job(user, Evicting(candidates[1..]))])
  }

  function Released(s: Sys, j: nat, e: nat): Sys
    requires e < |s.p.entries|
  {
    s.(p := WithHolder(s.p, e, None), jobs := s.jobs - {j})
  }

  function Apply(c: Config, s: Sys, l: Label): Sys
    requires Enabled(c, s, l)
  {
    match l
    case Tick(to) => s.(now := to)
    case Arrive(j, user, usable, candidates) =>
      if Reapable(s.p, user, s.now, usable) then
        s.(p := Dropped(s.p, user), jobs := s.jobs[j := Job(user, Closing)])
      else if user in s.p.pool then Enter(c, s, j, user)
      else EvictNext(c, s, j, user, candidates)
    case Closed(j, candidates) => EvictNext(c, s, j, s.jobs[j].user, candidates)
    case Evict(j) => EvictNext(c, s, j, s.jobs[j].user, s.jobs[j].phase.candidates)
    case Acquire(j) =>
      var e := s.jobs[j].phase.e;
      s.(p := WithHolder(s.p, e, Some(j)), jobs := s.jobs[j := s.jobs[j].(phase := Holding(e, Entering))])
    case Admitted(j) =>
      var e := s.jobs[j].phase.e;
      s.(jobs := s.jobs[j := s.jobs[j].(phase := Holding(e, if s.p.entries[e].needsLogin then LoggingIn else Working))])
    case LoginDone(j) =>
      var e := s.jobs[j].phase.e;
      s.(p := LoggedIn(s.p, e), jobs := s.jobs[j := s.jobs[j].(phase := Holding(e, Working))])
    case WorkDone(j) =>
      var e := s.jobs[j].phase.e;
      Released(s.(p := Extended(c, s.p, e, s.now)), j, e)
    case Fault(j) =>
      s.(p := Dropped(s.p, s.jobs[j].user), jobs := s.jobs[j := s.jobs[j].(phase := Dropping(s.jobs[j].phase.e))])
    case CloseDone(j) => Released(s, j, s.jobs[j].phase.e)
    case Abort(j) =>
      if s.jobs[j].phase.Holding? || s.jobs[j].phase.Dropping? then Released(s, j, s.jobs[j].phase.e)
      else s.(jobs := s.jobs - {j})
  }

  function Start(): Sys { Sys(Pool([], map[]), 0, map[]) }

  ghost predicate Run(c: Config, states: seq<Sys>, labels: seq<Label>) {
    && |states| == |labels| + 1
    && states[0] == Start()
    && forall i | 0 <= i < |labels| :: Stepped(c, states[i], labels[i], states[i + 1])
  }

  ghost predicate Stepped(c: Config, s: Sys, l: Label, s': Sys) {
    Enabled(c, s, l) && s' == Apply(c, s, l)
  }
}
