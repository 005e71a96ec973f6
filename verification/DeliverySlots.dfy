/** The two semaphores of a file service, over any interleaving of deliveries.

    A rejected file id is recovered inside the `async with` of the delivery semaphore: the recovery keeps its permit
    while it claims, acquires or waits, and then asks for one more. An acquisition keeps its permit while it asks for
    a delivery permit. Attachments recover once; question papers recover at every level, but without a requester, who
    is forgotten after an upload, an acquisition only fails. */
module DeliverySlots {

  datatype Service = Attachments | Papers

  /** WantSend and WantAcquire await a permit, Sending and Acquiring hold the one they awaited. */
  datatype Phase = WantSend | Sending | Deciding | WantAcquire | Acquiring | Polling

  /** `able`: an attachment may still be recovered, a paper still be downloaded. `levels`: the delivery permits of its
      rejected sends. `slots`: its acquisition permits. */
  datatype Task = Task(phase: Phase, able: bool, levels: nat, slots: nat)

  /** The free delivery and acquisition permits, and the deliveries under way. */
  datatype Sys = Sys(permits: nat, slots: nat, tasks: map<nat, Task>)

  datatype Label =
    | Arrive(t: nat, cached: bool, able: bool)
    | StartSend(t: nat)
    | SendEnds(t: nat)
    | SendRejected(t: nat)   // the file id is invalid, and is recovered
    | Win(t: nat)
    | Lose(t: nat)
    | StartAcquire(t: nat)
    | AcquireEnds(t: nat)    // failed, nothing there, or uploaded straight to the user
    | Uploaded(t: nat)       // to the storage channel
    | Found(t: nat)
    | Retry(t: nat)          // the rival failed
    | PollEnds(t: nat)
    | Cancel(t: nat)

  predicate At(s: Sys, t: nat, phase: Phase) { t in s.tasks && s.tasks[t].phase == phase }

  predicate Enabled(v: Service, s: Sys, l: Label) {
    match l
    case Arrive(t, cached, able) => t !in s.tasks && (v.Attachments? ==> able == cached)
    case StartSend(t) => At(s, t, WantSend) && s.permits > 0
    case SendEnds(t) => At(s, t, Sending)
    case SendRejected(t) => At(s, t, Sending) && (v.Attachments? ==> s.tasks[t].able)
    case Win(t) => At(s, t, Deciding)
    case Lose(t) => At(s, t, Deciding)
    case StartAcquire(t) => At(s, t, WantAcquire) && s.slots > 0
    case AcquireEnds(t) => At(s, t, Acquiring)
    case Uploaded(t) => At(s, t, Acquiring) && (v.Papers? ==> s.tasks[t].able)
    case Found(t) => At(s, t, Polling)
    case Retry(t) => At(s, t, Polling) && v.Papers?
    case PollEnds(t) => At(s, t, Polling)
    case Cancel(t) => t in s.tasks
  }

  function One(b: bool): nat { if b then 1 else 0 }

  /** The delivery permits of a task. */
  function Sends(task: Task): nat { task.levels + One(task.phase == Sending) }

  /** Leaving every `async with` gives back every permit held. */
  function Left(s: Sys, t: nat): Sys
    requires t in s.tasks
  {
    Sys(s.permits + Sends(s.tasks[t]), s.slots + s.tasks[t].slots, s.tasks - {t})
  }

  function Moved(s: Sys, t: nat, phase: Phase): Sys
    requires t in s.tasks
  {
    s.(tasks := s.tasks[t := s.tasks[t].(phase := phase)])
  }

  /** A recovery of an attachment, and an upload of a paper, can happen once. */
  function Apply(v: Service, s: Sys, l: Label): Sys
    requires Enabled(v, s, l)
  {
    match l
    case Arrive(t, cached, able) =>
      s.(tasks := s.tasks[t := Task(if cached then WantSend else Deciding, able, 0, 0)])
    case StartSend(t) => Moved(s.(permits := s.permits - 1), t, Sending)
    case SendEnds(t) => Left(s, t)
    case SendRejected(t) =>
      var task := s.tasks[t];
      s.(tasks := s.tasks[t := Task(Deciding, task.able && v.Papers?, task.levels + 1, task.slots)])
    case Win(t) => Moved(s, t, WantAcquire)
    case Lose(t) => Moved(s, t, Polling)
    case StartAcquire(t) =>
      var task := s.tasks[t];
      s.(slots := s.slots - 1, tasks := s.tasks[t := task.(phase := Acquiring, slots := task.slots + 1)])
    case AcquireEnds(t) => Left(s, t)
    case Uploaded(t) => s.(tasks := s.tasks[t := s.tasks[t].(phase := WantSend, able := false)])
    case Found(t) => Moved(s, t, WantSend)
    case Retry(t) => Moved(s, t, Deciding)
    case PollEnds(t) => Left(s, t)
    case Cancel(t) => Left(s, t)
  }

  ghost predicate Stepped(v: Service, s: Sys, l: Label, s': Sys) { Enabled(v, s, l) && s' == Apply(v, s, l) }

  function Start(permits: nat, slots: nat): Sys { Sys(permits, slots, map[]) }

  ghost predicate RunFrom(v: Service, first: Sys, states: seq<Sys>, labels: seq<Label>) {
    && |states| == |labels| + 1 && states[0] == first
    && forall i | 0 <= i < |labels| :: Stepped(v, states[i], labels[i], states[i + 1])
  }

  ghost predicate NoCancel(labels: seq<Label>) { forall i | 0 <= i < |labels| :: !labels[i].Cancel? }

  /** A run without cancellations. */
  ghost predicate Leads(v: Service, first: Sys, states: seq<Sys>, labels: seq<Label>) {
    RunFrom(v, first, states, labels) && NoCancel(labels)
  }

  // ---------------------------------------------------------------- permits are conserved

  /** The delivery and the acquisition permits taken, each with its holder. */
  ghost function SendsTaken(s: Sys): set<(nat, nat)> {
    set t: nat, i: nat | t in s.tasks && i < Sends(s.tasks[t]) :: (t, i)
  }

  ghost function SlotsTaken(s: Sys): set<(nat, nat)> {
    set t: nat, i: nat | t in s.tasks && i < s.tasks[t].slots :: (t, i)
  }

  /** An attachment holds at most one permit of a kind and asks for none it holds; a paper forgets its requester with
      its upload, and holds a second acquisition permit only to fail. */
  predicate WellFormed(v: Service, task: Task) {
    && (task.phase == Acquiring ==> task.slots > 0)
    && match v
       case Attachments =>
         && task.levels <= 1 && task.slots <= 1
         && (task.slots == 1 ==> task.phase in {Acquiring, WantSend, Sending})
         && (task.able ==> task.phase in {WantSend, Sending} && task.levels == task.slots == 0)
       case Papers =>
         && task.slots <= 2 && (task.able ==> task.slots == One(task.phase == Acquiring))
         && (task.slots == 2 ==> task.phase == Acquiring)
  }

  /** Every permit is free or held by exactly one holder. */
  ghost predicate Conserved(v: Service, s: Sys, permits: nat, slots: nat) {
    && (forall t | t in s.tasks :: WellFormed(v, s.tasks[t]))
    && s.permits + |SendsTaken(s)| == permits && s.slots + |SlotsTaken(s)| == slots
  }

  ghost function Numbered(t: nat, n: nat): set<(nat, nat)> { set i: nat | i < n :: (t, i) }

  lemma {:induction false} NumberedIsN(t: nat, n: nat)
    ensures |Numbered(t, n)| == n
  {
    if n > 0 {
      NumberedIsN(t, n - 1);
      assert Numbered(t, n) == Numbered(t, n - 1) + {(t, n - 1)};
    }
  }

  function SendsOf(s: Sys, t: nat): nat { if t in s.tasks then Sends(s.tasks[t]) else 0 }

  function SlotsOf(s: Sys, t: nat): nat { if t in s.tasks then s.tasks[t].slots else 0 }

  lemma {:induction false} OneChanges(a: set<(nat, nat)>, b: set<(nat, nat)>, t: nat, m: nat, n: nat)
    requires forall p: (nat, nat) | p.0 != t :: p in a <==> p in b
    requires forall p: (nat, nat) | p.0 == t :: (p in a <==> p.1 < m) && (p in b <==> p.1 < n)
    ensures |b| + m == |a| + n
  {
    var rest := a - Numbered(t, m);
    NumberedIsN(t, m);
    NumberedIsN(t, n);
    assert a == rest + Numbered(t, m) && b == rest + Numbered(t, n);
  }

  /** What one task's change does to the permits taken. */
  lemma {:induction false} TakenChange(s: Sys, s': Sys, t: nat)
    requires forall u | u != t :: (u in s.tasks <==> u in s'.tasks) && (u in s.tasks ==> s'.tasks[u] == s.tasks[u])
    ensures |SendsTaken(s')| + SendsOf(s, t) == |SendsTaken(s)| + SendsOf(s', t)
    ensures |SlotsTaken(s')| + SlotsOf(s, t) == |SlotsTaken(s)| + SlotsOf(s', t)
  {
    OneChanges(SendsTaken(s), SendsTaken(s'), t, SendsOf(s, t), SendsOf(s', t));
    OneChanges(SlotsTaken(s), SlotsTaken(s'), t, SlotsOf(s, t), SlotsOf(s', t));
  }

  lemma {:induction false} ConservedStep(v: Service, s: Sys, l: Label, permits: nat, slots: nat)
    requires Conserved(v, s, permits, slots) && Enabled(v, s, l)
    ensures Conserved(v, Apply(v, s, l), permits, slots)
  {
    OthersStay(v, s, l);
    TakenChange(s, Apply(v, s, l), l.t);
    OwnTaskStays(v, s, l);
  }

  lemma {:induction false} OwnTaskStays(v: Service, s: Sys, l: Label)
    requires Enabled(v, s, l) && (l.t in s.tasks ==> WellFormed(v, s.tasks[l.t]))
    ensures l.t in Apply(v, s, l).tasks ==> WellFormed(v, Apply(v, s, l).tasks[l.t])
    ensures Apply(v, s, l).permits + SendsOf(Apply(v, s, l), l.t) == s.permits + SendsOf(s, l.t)
    ensures Apply(v, s, l).slots + SlotsOf(Apply(v, s, l), l.t) == s.slots + SlotsOf(s, l.t)
  {
  }

  /** On every run, with any cancellations, every permit is free or has one holder. */
  lemma {:induction false} AlwaysConserved(v: Service, states: seq<Sys>, labels: seq<Label>, permits: nat, slots: nat,
                                           n: nat)
    requires RunFrom(v, Start(permits, slots), states, labels) && n < |states|
    ensures Conserved(v, states[n], permits, slots)
  {
    if n > 0 {
      AlwaysConserved(v, states, labels, permits, slots, n - 1);
      assert Stepped(v, states[n - 1], labels[n - 1], states[n]);
      ConservedStep(v, states[n - 1], labels[n - 1], permits, slots);
    } else {
      assert SendsTaken(states[0]) == {} && SlotsTaken(states[0]) == {};
    }
  }

  // ---------------------------------------------------------------- when a semaphore is jammed

  predicate Waits(task: Task) { task.phase in {WantSend, WantAcquire} }

  /** Both semaphores are empty, and whoever holds a permit awaits one. */
  ghost predicate AllWait(s: Sys) {
    && s.permits == s.slots == 0
    && forall t | t in s.tasks && (Sends(s.tasks[t]) > 0 || s.tasks[t].slots > 0) :: Waits(s.tasks[t])
  }

  /** No delivery permit is free, and whoever holds one asks for another, or whoever holds any permit awaits one. */
  ghost predicate SendsJammed(s: Sys) {
    && s.permits == 0
    && ((forall t | t in s.tasks && Sends(s.tasks[t]) > 0 :: s.tasks[t].phase == WantSend) || AllWait(s))
  }

  ghost predicate SlotsJammed(s: Sys) {
    && s.slots == 0
    && ((forall t | t in s.tasks && s.tasks[t].slots > 0 :: s.tasks[t].phase == WantAcquire) || AllWait(s))
  }

  lemma {:induction false} AllWaitStays(v: Service, s: Sys, l: Label)
    requires Enabled(v, s, l) && !l.Cancel? && AllWait(s)
    ensures AllWait(Apply(v, s, l))
  {
    OthersStay(v, s, l);
  }

  lemma {:induction false} SendersStay(v: Service, s: Sys, l: Label)
    requires Enabled(v, s, l) && !l.Cancel? && s.permits == 0
    requires forall t | t in s.tasks && Sends(s.tasks[t]) > 0 :: s.tasks[t].phase == WantSend
    ensures var s' := Apply(v, s, l);
            s'.permits == 0 && forall t | t in s'.tasks && Sends(s'.tasks[t]) > 0 :: s'.tasks[t].phase == WantSend
  {
    OthersStay(v, s, l);
  }

  lemma {:induction false} AcquirersStay(v: Service, s: Sys, l: Label)
    requires Enabled(v, s, l) && !l.Cancel? && s.slots == 0
    requires forall t | t in s.tasks && s.tasks[t].slots > 0 :: s.tasks[t].phase == WantAcquire
    ensures var s' := Apply(v, s, l);
            s'.slots == 0 && forall t | t in s'.tasks && s'.tasks[t].slots > 0 :: s'.tasks[t].phase == WantAcquire
  {
    OthersStay(v, s, l);
  }

  lemma {:induction false} OthersStay(v: Service, s: Sys, l: Label)
    requires Enabled(v, s, l)
    ensures forall t | t in Apply(v, s, l).tasks && t != l.t :: t in s.tasks && Apply(v, s, l).tasks[t] == s.tasks[t]
  {
  }

  lemma {:induction false} JamStays(v: Service, s: Sys, l: Label)
    requires Enabled(v, s, l) && !l.Cancel?
    ensures SendsJammed(s) ==> SendsJammed(Apply(v, s, l))
    ensures SlotsJammed(s) ==> SlotsJammed(Apply(v, s, l))
  {
    if AllWait(s) {
      AllWaitStays(v, s, l);
    } else {
      if SendsJammed(s) { SendersStay(v, s, l); }
      if SlotsJammed(s) { AcquirersStay(v, s, l); }
    }
  }

  /** A jam is for ever: without a cancellation, no permit of a jammed semaphore is free again. */
  lemma {:induction false} JamIsForever(v: Service, first: Sys, states: seq<Sys>, labels: seq<Label>, n: nat)
    requires Leads(v, first, states, labels) && n < |states|
    ensures SendsJammed(first) ==> SendsJammed(states[n]) && states[n].permits == 0
    ensures SlotsJammed(first) ==> SlotsJammed(states[n]) && states[n].slots == 0
  {
    if n > 0 {
      JamIsForever(v, first, states, labels, n - 1);
      assert Stepped(v, states[n - 1], labels[n - 1], states[n]);
      JamStays(v, states[n - 1], labels[n - 1]);
    }
  }

  /** It awaits nothing that is not there. */
  predicate Ready(s: Sys, t: nat)
    requires t in s.tasks
  {
    (s.tasks[t].phase == WantSend ==> s.permits > 0) && (s.tasks[t].phase == WantAcquire ==> s.slots > 0)
  }

  /** A task that is ready can end within two steps and give back all it holds. */
  lemma {:induction false} ReadyLeaves(v: Service, s: Sys, t: nat) returns (states: seq<Sys>, labels: seq<Label>)
    requires t in s.tasks && Ready(s, t)
    ensures Leads(v, s, states, labels) && states[|labels|] == Left(s, t)
  {
    match s.tasks[t].phase
    case WantSend => states, labels := Twice(v, s, StartSend(t), SendEnds(t));
    case Sending => states, labels := [s, Left(s, t)], [SendEnds(t)];
    case Deciding => states, labels := Twice(v, s, Lose(t), PollEnds(t));
    case WantAcquire => states, labels := Twice(v, s, StartAcquire(t), AcquireEnds(t));
    case Acquiring => states, labels := [s, Left(s, t)], [AcquireEnds(t)];
    case Polling => states, labels := [s, Left(s, t)], [PollEnds(t)];
    assert states[|labels|].tasks == Left(s, t).tasks;
  }

  lemma {:induction false} Twice(v: Service, s: Sys, a: Label, b: Label) returns (states: seq<Sys>, labels: seq<Label>)
    requires Enabled(v, s, a) && Enabled(v, Apply(v, s, a), b) && !a.Cancel? && !b.Cancel?
    ensures Leads(v, s, states, labels) && |labels| == 2 && states[2] == Apply(v, Apply(v, s, a), b)
  {
    states, labels := [s, Apply(v, s, a), Apply(v, Apply(v, s, a), b)], [a, b];
  }

  lemma {:induction false} Joined(v: Service, first: Sys, states: seq<Sys>, labels: seq<Label>, more: seq<Sys>,
                                  then': seq<Label>)
    requires Leads(v, first, states, labels) && Leads(v, states[|labels|], more, then')
    ensures Leads(v, first, states + more[1..], labels + then')
    ensures (states + more[1..])[|labels + then'|] == more[|then'|]
  {
  }

  /** If t awaits what u holds, u can leave and then t. */
  lemma {:induction false} BothLeave(v: Service, s: Sys, u: nat, t: nat) returns (states: seq<Sys>, labels: seq<Label>)
    requires u in s.tasks && t in s.tasks && u != t && Ready(s, u) && Ready(Left(s, u), t)
    ensures Leads(v, s, states, labels) && states[|labels|] == Left(Left(s, u), t)
  {
    states, labels := ReadyLeaves(v, s, u);
    var more, then' := ReadyLeaves(v, Left(s, u), t);
    Joined(v, s, states, labels, more, then');
    states, labels := states + more[1..], labels + then';
  }

  /** Some holder of a permit awaits nothing that is not there. */
  lemma {:induction false} SomeoneReady(s: Sys) returns (u: nat)
    requires s.permits == 0 && s.slots == 0 && !AllWait(s)
    ensures u in s.tasks && Ready(s, u) && (Sends(s.tasks[u]) > 0 || s.tasks[u].slots > 0)
  {
    u :| u in s.tasks && (Sends(s.tasks[u]) > 0 || s.tasks[u].slots > 0) && !Waits(s.tasks[u]);
  }

  lemma {:induction false} UnjammedFreesSend(v: Service, s: Sys) returns (states: seq<Sys>, labels: seq<Label>)
    requires !SendsJammed(s)
    ensures Leads(v, s, states, labels) && states[|labels|].permits > 0
  {
    if s.permits > 0 {
      states, labels := [s], [];
    } else {
      var t :| t in s.tasks && Sends(s.tasks[t]) > 0 && s.tasks[t].phase != WantSend;
      if Ready(s, t) {
        states, labels := ReadyLeaves(v, s, t);
      } else {
        var u := SomeoneReady(s);
        if Sends(s.tasks[u]) > 0 {
          states, labels := ReadyLeaves(v, s, u);
        } else {
          states, labels := BothLeave(v, s, u, t);
        }
      }
    }
  }

  lemma {:induction false} UnjammedFreesSlot(v: Service, s: Sys) returns (states: seq<Sys>, labels: seq<Label>)
    requires !SlotsJammed(s)
    ensures Leads(v, s, states, labels) && states[|labels|].slots > 0
  {
    if s.slots > 0 {
      states, labels := [s], [];
    } else {
      var t :| t in s.tasks && s.tasks[t].slots > 0 && s.tasks[t].phase != WantAcquire;
      if Ready(s, t) {
        states, labels := ReadyLeaves(v, s, t);
      } else {
        var u := SomeoneReady(s);
        if s.tasks[u].slots > 0 {
          states, labels := ReadyLeaves(v, s, u);
        } else {
          states, labels := BothLeave(v, s, u, t);
        }
      }
    }
  }

  /** No delivery permit is ever free again without a cancellation exactly if the semaphore is jammed. */
  lemma {:induction false} SendsJammedIff(v: Service, s: Sys)
    ensures SendsJammed(s) <==>
            forall states: seq<Sys>, labels: seq<Label> | Leads(v, s, states, labels) :: states[|labels|].permits == 0
  {
    if SendsJammed(s) {
      forall states: seq<Sys>, labels: seq<Label> | Leads(v, s, states, labels) ensures states[|labels|].permits == 0 {
        JamIsForever(v, s, states, labels, |labels|);
      }
    } else {
      var states, labels := UnjammedFreesSend(v, s);
    }
  }

  /** The same for the acquisition permits. */
  lemma {:induction false} SlotsJammedIff(v: Service, s: Sys)
    ensures SlotsJammed(s) <==>
            forall states: seq<Sys>, labels: seq<Label> | Leads(v, s, states, labels) :: states[|labels|].slots == 0
  {
    if SlotsJammed(s) {
      forall states: seq<Sys>, labels: seq<Label> | Leads(v, s, states, labels) ensures states[|labels|].slots == 0 {
        JamIsForever(v, s, states, labels, |labels|);
      }
    } else {
      var states, labels := UnjammedFreesSlot(v, s);
    }
  }

  /** Of attachments, only recoveries can jam the sends: every permit is kept by a rejected send. */
  lemma {:induction false} JammedByRecoveries(states: seq<Sys>, labels: seq<Label>, permits: nat, slots: nat, n: nat)
    requires RunFrom(Attachments, Start(permits, slots), states, labels) && n < |states| && SendsJammed(states[n])
    ensures |SendsTaken(states[n])| == permits
    ensures forall p | p in SendsTaken(states[n]) ::
              p.1 == 0 && p.0 in states[n].tasks && states[n].tasks[p.0].levels == 1 && !states[n].tasks[p.0].able
  {
    AlwaysConserved(Attachments, states, labels, permits, slots, n);
    forall p | p in SendsTaken(states[n])
      ensures p.1 == 0 && p.0 in states[n].tasks && states[n].tasks[p.0].levels == 1 && !states[n].tasks[p.0].able
    {
      assert WellFormed(Attachments, states[n].tasks[p.0]);
    }
  }

  // ---------------------------------------------------------------- jams are reachable

  /** What a rejected send leaves of a request that was able. */
  function Rejected(v: Service, phase: Phase): Task { Task(phase, v.Papers?, 1, 0) }

  /** Of the requests whose file id was rejected, the first j have uploaded what they acquired and ask for a permit to
      send it; the others ask for a permit to acquire. */
  function StaleTask(v: Service, t: nat, j: nat): Task {
    if t < j then Task(WantSend, false, 1, 1) else Rejected(v, WantAcquire)
  }

  /** Of k requests whose file id was rejected, the first j have uploaded what they acquired. */
  ghost predicate Stale(v: Service, tasks: map<nat, Task>, k: nat, j: nat) {
    && (forall t: nat :: t in tasks <==> t < k)
    && (forall t | t in tasks :: tasks[t] == StaleTask(v, t, j))
  }

  /** One more request meets a rejected file id and wins its claim. */
  lemma {:induction false} RejectedArrives(v: Service, s: Sys, k: nat) returns (states: seq<Sys>, labels: seq<Label>)
    requires s.permits > 0 && Stale(v, s.tasks, k, 0)
    ensures Leads(v, s, states, labels)
    ensures var s' := states[|labels|];
            s'.permits == s.permits - 1 && s'.slots == s.slots && Stale(v, s'.tasks, k + 1, 0)
  {
    states, labels := Twice(v, s, Arrive(k, true, true), StartSend(k));
    var more, then' := Twice(v, states[2], SendRejected(k), Win(k));
    var s' := more[2];
    assert s' == Sys(s.permits - 1, s.slots, s'.tasks) && s'.tasks[k] == Rejected(v, WantAcquire);
    forall t: nat ensures t in s'.tasks <==> t < k + 1 {}
    Joined(v, s, states, labels, more, then');
    states, labels := states + more[1..], labels + then';
  }

  /** One more of them acquires its file and uploads it. */
  lemma {:induction false} RejectedUploads(v: Service, s: Sys, k: nat, j: nat)
    returns (states: seq<Sys>, labels: seq<Label>)
    requires s.slots > 0 && j < k && Stale(v, s.tasks, k, j)
    ensures Leads(v, s, states, labels)
    ensures var s' := states[|labels|];
            s'.permits == s.permits && s'.slots == s.slots - 1 && Stale(v, s'.tasks, k, j + 1)
  {
    states, labels := Twice(v, s, StartAcquire(j), Uploaded(j));
    forall t: nat ensures t in states[2].tasks <==> t < k {}
  }

  lemma {:induction false} AllArrive(v: Service, permits: nat, slots: nat, k: nat)
    returns (states: seq<Sys>, labels: seq<Label>)
    requires k <= permits
    ensures Leads(v, Start(permits, slots), states, labels)
    ensures var s := states[|labels|]; s.permits == permits - k && s.slots == slots && Stale(v, s.tasks, k, 0)
  {
    if k == 0 {
      states, labels := [Start(permits, slots)], [];
    } else {
      states, labels := AllArrive(v, permits, slots, k - 1);
      var more, then' := RejectedArrives(v, states[|labels|], k - 1);
      Joined(v, Start(permits, slots), states, labels, more, then');
      states, labels := states + more[1..], labels + then';
    }
  }

  lemma {:induction false} SomeUpload(v: Service, permits: nat, slots: nat, j: nat)
    returns (states: seq<Sys>, labels: seq<Label>)
    requires j <= slots && j <= permits
    ensures Leads(v, Start(permits, slots), states, labels)
    ensures var s := states[|labels|]; s.permits == 0 && s.slots == slots - j && Stale(v, s.tasks, permits, j)
  {
    if j == 0 {
      states, labels := AllArrive(v, permits, slots, permits);
    } else {
      states, labels := SomeUpload(v, permits, slots, j - 1);
      var more, then' := RejectedUploads(v, states[|labels|], permits, j - 1);
      Joined(v, Start(permits, slots), states, labels, more, then');
      states, labels := states + more[1..], labels + then';
    }
  }

  /** For every number of permits, that many requests whose stored file ids are rejected jam the service, each holding
      its delivery permit. If the acquisition permits are no more, both semaphores are jammed: as many as there are
      hold one and await a second delivery permit, the others await an acquisition permit. */
  lemma {:induction false} StaleFilesJam(v: Service, permits: nat, slots: nat)
    returns (states: seq<Sys>, labels: seq<Label>)
    ensures Leads(v, Start(permits, slots), states, labels) && SendsJammed(states[|labels|])
    ensures slots <= permits ==> SlotsJammed(states[|labels|])
    ensures Stale(v, states[|labels|].tasks, permits, if slots <= permits then slots else permits)
  {
    states, labels := SomeUpload(v, permits, slots, if slots <= permits then slots else permits);
  }
}
