/** The event outbox: claim, send, mark, release and reap, by several dispatchers that may crash.

    Every statement names one event, so the protocol is modelled event by event: `Sys` is one event row, the
    clock, and what each dispatcher that claimed the event is doing with it. */
module Outbox {

  import opened Wrappers

  /** `staleSeconds` bounds a live claim; `maxAttempts` is the retry budget. */
  datatype Config = Config(staleSeconds: nat, maxAttempts: nat)

  datatype Row = Row(sent: bool, permanent: bool, claimedAt: Option<int>, attempts: nat)

  predicate Eligible(c: Config, r: Row, now: int) {
    !r.sent && !r.permanent && (r.claimedAt.None? || r.claimedAt.value < now - c.staleSeconds)
  }

  function Claimed(r: Row, now: int): Row { r.(claimedAt := Some(now)) }

  function MarkedSent(r: Row): Row { r.(sent := true, claimedAt := None) }

  function MarkedPermanent(r: Row): Row { r.(sent := true, permanent := true, claimedAt := None) }

  function Released(r: Row): Row { r.(claimedAt := None, attempts := r.attempts + 1) }

  function Reaped(c: Config, r: Row, now: int): Row {
    if !r.sent && !r.permanent && r.claimedAt.Some? && r.claimedAt.value < now - c.staleSeconds * 2
    then r.(claimedAt := None) else r
  }

  /** How a send failed. A retryable failure consumes budget; the count consulted is the one read at the claim. */
  datatype Failure = Blocked | Deactivated | Orphaned | RetryableFailure

  function AfterFailure(c: Config, r: Row, failure: Failure, attemptsSeen: nat): Row {
    if failure.RetryableFailure? && attemptsSeen < c.maxAttempts then Released(r) else MarkedPermanent(r)
  }

  /** Claimed and unsent; sent but unmarked; settled, though the rest of its digest is not. */
  datatype Phase = Pending | Delivered | Settled

  datatype Hold = Hold(claimedAt: int, attemptsSeen: nat, phase: Phase)

  /** `claims` and `sends` count the claims of the event and the sends Telegram accepted. */
  datatype Sys = Sys(row: Row, now: int, holds: map<nat, Hold>, claims: nat, sends: nat)

  datatype Label =
    | Tick(to: int)
    | Claim(w: nat)
    | SendOk(w: nat)
    | MarkSent(w: nat)
    | Fail(w: nat, failure: Failure)
    | Error(w: nat)       // an exception while formatting, sending or marking releases the event, or its digest's group
    | Finish(w: nat)
    | Crash(w: nat)
    | Reap

  predicate Enabled(c: Config, s: Sys, l: Label) {
    match l
    case Tick(to) => s.now <= to
    case Claim(w) => w !in s.holds && Eligible(c, s.row, s.now)
    case SendOk(w) => w in s.holds && s.holds[w].phase.Pending?
    case MarkSent(w) => w in s.holds && s.holds[w].phase.Delivered?
    case Fail(w, _) => w in s.holds && s.holds[w].phase.Pending?
    case Error(w) => w in s.holds
    case Finish(w) => w in s.holds && s.holds[w].phase.Settled?
    case Crash(w) => w in s.holds
    case Reap => true
  }

  function Moved(s: Sys, w: nat, phase: Phase): map<nat, Hold>
    requires w in s.holds
  {
    s.holds[w := s.holds[w].(phase := phase)]
  }

  function Apply(c: Config, s: Sys, l: Label): Sys
    requires Enabled(c, s, l)
  {
    match l
    case Tick(to) => s.(now := to)
    case Claim(w) =>
      s.(row := Claimed(s.row, s.now), holds := s.holds[w := Hold(s.now, s.row.attempts, Pending)],
          claims := s.claims + 1)
    case SendOk(w) => s.(holds := Moved(s, w, Delivered), sends := s.sends + 1)
    case MarkSent(w) => s.(row := MarkedSent(s.row), holds := Moved(s, w, Settled))
    case Fail(w, failure) =>
      s.(row := AfterFailure(c, s.row, failure, s.holds[w].attemptsSeen), holds := Moved(s, w, Settled))
    case Error(w) => s.(row := Released(s.row), holds := s.holds - {w})
    case Finish(w) => s.(holds := s.holds - {w})
    case Crash(w) => s.(holds := s.holds - {w})
    case Reap => s.(row := Reaped(c, s.row, s.now))
  }

  function Start(): Sys { Sys(Row(false, false, None, 0), 0, map[], 0, 0) }

  ghost predicate Run(c: Config, states: seq<Sys>, labels: seq<Label>) {
    && |states| == |labels| + 1
    && states[0] == Start()
    && forall i | 0 <= i < |labels| :: Stepped(c, states[i], labels[i], states[i + 1])
  }

  ghost predicate Stepped(c: Config, s: Sys, l: Label, s': Sys) {
    Enabled(c, s, l) && s' == Apply(c, s, l)
  }

  // ---------------------------------------------------------------- unconditional

  function PendingHolds(holds: map<nat, Hold>): set<nat> {
    set w | w in holds && holds[w].phase.Pending?
  }

  lemma {:induction false} PendingAfterUpdate(holds: map<nat, Hold>, w: nat, hold: Hold)
    ensures PendingHolds(holds[w := hold])
            == if hold.phase.Pending? then PendingHolds(holds) + {w} else PendingHolds(holds) - {w}
  {
  }

  lemma {:induction false} PendingAfterRemoval(holds: map<nat, Hold>, w: nat)
    ensures PendingHolds(holds - {w}) == PendingHolds(holds) - {w}
  {
  }

  /** Each claim is spent on at most one send; a claimed event is unsent; permanent implies sent. */
  ghost predicate Sound(s: Sys) {
    && s.sends + |PendingHolds(s.holds)| <= s.claims
    && (s.row.claimedAt.Some? ==> !s.row.sent)
    && (s.row.permanent ==> s.row.sent)
  }

  lemma {:induction false} SoundStep(c: Config, s: Sys, l: Label)
    requires Sound(s) && Enabled(c, s, l)
    ensures Sound(Apply(c, s, l))
    ensures s.row.sent ==> Apply(c, s, l).row.sent
    ensures s.row.permanent ==> Apply(c, s, l).row.permanent
  {
    if l.Error? || l.Finish? || l.Crash? {
      PendingAfterRemoval(s.holds, l.w);
    } else if l.Claim? {
      PendingAfterUpdate(s.holds, l.w, Hold(s.now, s.row.attempts, Pending));
    } else if !l.Tick? && !l.Reap? {
      PendingAfterUpdate(s.holds, l.w, Apply(c, s, l).holds[l.w]);
      assert !l.MarkSent? ==> l.w in PendingHolds(s.holds);
    }
  }

  /** On every run, with any crashes, reaps, failed marks and overlapping claims, sends never exceed claims, a
      claimed event is not sent, and a permanently failed one counts as sent. */
  lemma {:induction false} SendsNeverExceedClaims(c: Config, states: seq<Sys>, labels: seq<Label>, i: nat)
    requires Run(c, states, labels) && i < |states|
    ensures states[i].sends <= states[i].claims
    ensures Sound(states[i])
    decreases i
  {
    if i == 0 {
      assert PendingHolds(map[]) == {};
    } else {
      SendsNeverExceedClaims(c, states, labels, i - 1);
      assert Stepped(c, states[i - 1], labels[i - 1], states[i]);
      SoundStep(c, states[i - 1], labels[i - 1]);
    }
  }

  /** Sent and permanently failed are absorbing, and a sent event is never claimed again. */
  lemma {:induction false} SentIsAbsorbing(c: Config, states: seq<Sys>, labels: seq<Label>, i: nat, k: nat)
    requires Run(c, states, labels) && i <= k < |states|
    ensures states[i].row.sent ==> states[k].row.sent && states[k].claims == states[i].claims
    ensures states[i].row.permanent ==> states[k].row.permanent
    decreases k
  {
    if i < k {
      SentIsAbsorbing(c, states, labels, i, k - 1);
      assert Stepped(c, states[k - 1], labels[k - 1], states[k]);
      SendsNeverExceedClaims(c, states, labels, k - 1);
      SoundStep(c, states[k - 1], labels[k - 1]);
    }
  }

  // ---------------------------------------------------------------- what each step writes

  /** A claim takes an event that is neither sent nor failed for good, and not claimed within the stale window; it
      writes its own time, and remembers the attempts it read. */
  lemma {:induction false} ClaimIs(c: Config, s: Sys, w: nat)
    requires w !in s.holds
    ensures Enabled(c, s, Claim(w)) <==>
            && !s.row.sent && !s.row.permanent
            && (s.row.claimedAt.Some? ==> s.row.claimedAt.value + c.staleSeconds < s.now)
    ensures Enabled(c, s, Claim(w)) ==>
              var s' := Apply(c, s, Claim(w));
              && s'.row == Row(false, false, Some(s.now), s.row.attempts) && s'.claims == s.claims + 1
              && s'.holds == s.holds[w := Hold(s.now, s.row.attempts, Pending)] && s'.sends == s.sends
  {
  }

  /** The failure ends the event for good: whoever cannot be reached, or a failure after the whole budget. */
  predicate GivesUp(c: Config, s: Sys, l: Label) {
    && l.Fail? && l.w in s.holds
    && (|| l.failure == Blocked || l.failure == Deactivated || l.failure == Orphaned
        || s.holds[l.w].attemptsSeen >= c.maxAttempts)
  }

  /** Every other step on the row: a mark and a given-up failure settle it, a retryable failure and an exception release
      it with one attempt more, and a reap frees a claim of twice the stale window. */
  lemma {:induction false} WriteIs(c: Config, s: Sys, l: Label)
    requires Enabled(c, s, l) && !l.Claim?
    ensures var row, row' := s.row, Apply(c, s, l).row;
            if l.MarkSent? then row' == Row(true, row.permanent, None, row.attempts)
            else if GivesUp(c, s, l) then row' == Row(true, true, None, row.attempts)
            else if l.Fail? || l.Error? then row' == Row(row.sent, row.permanent, None, row.attempts + 1)
            else if l.Reap? && !row.sent && !row.permanent && row.claimedAt.Some? &&
                    row.claimedAt.value + c.staleSeconds + c.staleSeconds < s.now
              then row' == Row(false, false, None, row.attempts)
            else row' == row
  {
  }

  ghost predicate GaveUpBefore(c: Config, states: seq<Sys>, labels: seq<Label>, i: nat)
    requires i <= |states| && i <= |labels|
  {
    exists j :: 0 <= j < i && GivesUp(c, states[j], labels[j])
  }

  ghost predicate MarkedBefore(labels: seq<Label>, i: nat)
    requires i <= |labels|
  {
    exists j :: 0 <= j < i && labels[j].MarkSent?
  }

  /** On every run an event has failed for good exactly if some failure gave it up, and counts as sent exactly if it was
      marked or given up; it has no claim then. */
  lemma {:induction false} SettledHasReason(c: Config, states: seq<Sys>, labels: seq<Label>, i: nat)
    requires Run(c, states, labels) && i < |states|
    ensures states[i].row.permanent <==> GaveUpBefore(c, states, labels, i)
    ensures states[i].row.sent <==> GaveUpBefore(c, states, labels, i) || MarkedBefore(labels, i)
    decreases i
  {
    if i > 0 {
      SettledHasReason(c, states, labels, i - 1);
      var s, l := states[i - 1], labels[i - 1];
      assert Stepped(c, s, l, states[i]);
      assert GaveUpBefore(c, states, labels, i) <==> GaveUpBefore(c, states, labels, i - 1) || GivesUp(c, s, l);
      assert MarkedBefore(labels, i) <==> MarkedBefore(labels, i - 1) || l.MarkSent?;
      SettlesOn(c, s, l);
    }
  }

  lemma {:induction false} SettlesOn(c: Config, s: Sys, l: Label)
    requires Enabled(c, s, l)
    ensures Apply(c, s, l).row.permanent <==> s.row.permanent || GivesUp(c, s, l)
    ensures Apply(c, s, l).row.sent <==> s.row.sent || GivesUp(c, s, l) || l.MarkSent?
  {
    if !l.Claim? { WriteIs(c, s, l); }
  }

  // ---------------------------------------------------------------- at most one delivery

  predicate Active(hold: Hold) { !hold.phase.Settled? }

  /** Every dispatcher still working on the event is within the stale window of its claim. */
  ghost predicate Timely(c: Config, s: Sys) {
    forall w | w in s.holds && Active(s.holds[w]) :: s.now - s.holds[w].claimedAt <= c.staleSeconds
  }

  /** The step loses a mark: an exception after the send, or a crash between the send and its mark. */
  predicate LosesMark(s: Sys, l: Label) {
    (l.Error? && l.w in s.holds && !s.holds[l.w].phase.Pending?) ||
    (l.Crash? && l.w in s.holds && s.holds[l.w].phase.Delivered?)
  }

  /** One dispatcher at a time, owning the claim; one send, known to the row or about to be. */
  ghost predicate OneSend(s: Sys) {
    && (forall w | w in s.holds && Active(s.holds[w]) ::
          !s.row.sent && s.row.claimedAt == Some(s.holds[w].claimedAt) && s.holds[w].attemptsSeen == s.row.attempts &&
          s.sends == if s.holds[w].phase.Delivered? then 1 else 0)
    && (forall v, w | v in s.holds && w in s.holds && Active(s.holds[v]) && Active(s.holds[w]) :: v == w)
    && s.sends <= 1
    && (s.sends == 1 ==> s.row.sent || exists w :: w in s.holds && s.holds[w].phase.Delivered?)
  }

  /** Some dispatcher other than `but` has the event and has not settled it. */
  ghost predicate OtherActive(s: Sys, but: nat) {
    exists w :: w != but && w in s.holds && Active(s.holds[w])
  }

  /** The step lets a second dispatcher at an event under way, or forgets a send: a claim or a reap while another
      dispatcher is active, an exception after the send or while another is active, or a crash between the send and
      its mark. */
  ghost predicate Breaks(c: Config, s: Sys, l: Label)
    requires Enabled(c, s, l)
  {
    match l
    case Claim(w) => OtherActive(s, w)
    case Reap => Reaped(c, s.row, s.now) != s.row && exists w :: w in s.holds && Active(s.holds[w])
    case Error(w) => s.holds[w].phase.Delivered? || OtherActive(s, w)
    case Crash(w) => s.holds[w].phase.Delivered?
    case _ => false
  }

  /** Exactly the breaking steps end the order of one dispatcher and one send. */
  lemma {:induction false} OneSendStep(c: Config, s: Sys, l: Label)
    requires OneSend(s) && Enabled(c, s, l)
    ensures OneSend(Apply(c, s, l)) <==> !Breaks(c, s, l)
  {
    if Breaks(c, s, l) {
      BreakingStep(c, s, l);
    } else {
      KeepingStep(c, s, l);
    }
  }

  lemma {:induction false} KeepingStep(c: Config, s: Sys, l: Label)
    requires OneSend(s) && Enabled(c, s, l) && !Breaks(c, s, l)
    ensures OneSend(Apply(c, s, l))
  {
    var s' := Apply(c, s, l);
    if s'.sends == 1 && !s'.row.sent {
      if l.SendOk? {
        assert s'.holds[l.w].phase.Delivered?;
      } else {
        var w :| w in s.holds && s.holds[w].phase.Delivered?;
        assert Active(s.holds[w]);
        assert w in s'.holds && s'.holds[w].phase.Delivered?;
      }
    }
  }

  lemma {:induction false} BreakingStep(c: Config, s: Sys, l: Label)
    requires OneSend(s) && Enabled(c, s, l) && Breaks(c, s, l)
    ensures !OneSend(Apply(c, s, l))
  {
    var s' := Apply(c, s, l);
    if l.Reap? {
      var w :| w in s.holds && Active(s.holds[w]);
      assert w in s'.holds && Active(s'.holds[w]);
    } else if !l.Crash? && OtherActive(s, l.w) {
      var w :| w != l.w && w in s.holds && Active(s.holds[w]);
      assert w in s'.holds && Active(s'.holds[w]);
      assert l.Claim? ==> Active(s'.holds[l.w]);
    } else {
      assert forall w | w in s'.holds :: w in s.holds && w != l.w;
    }
  }

  /** On every run without a breaking step, the event is delivered at most once, whatever else crashes, comes late or
      is reaped. */
  lemma {:induction false} DeliveredAtMostOnce(c: Config, states: seq<Sys>, labels: seq<Label>, i: nat)
    requires Run(c, states, labels) && i < |states|
    requires forall j | 0 <= j < i :: Keeps(c, states[j], labels[j])
    ensures OneSend(states[i]) && states[i].sends <= 1
    decreases i
  {
    if i > 0 {
      DeliveredAtMostOnce(c, states, labels, i - 1);
      assert Stepped(c, states[i - 1], labels[i - 1], states[i]);
      assert Keeps(c, states[i - 1], labels[i - 1]);
      OneSendStep(c, states[i - 1], labels[i - 1]);
    }
  }

  ghost predicate Keeps(c: Config, s: Sys, l: Label) { Enabled(c, s, l) && !Breaks(c, s, l) }

  /** In particular, if every dispatcher finishes an event before its claim is stale and no mark is lost: no step
      breaks. */
  lemma {:induction false} TimelyDeliversOnce(c: Config, states: seq<Sys>, labels: seq<Label>, i: nat)
    requires Run(c, states, labels) && i < |states|
    requires forall j | 0 <= j < i :: Timely(c, states[j]) && !LosesMark(states[j], labels[j])
    ensures forall j | 0 <= j < i :: Keeps(c, states[j], labels[j])
    ensures OneSend(states[i]) && states[i].sends <= 1
    decreases i
  {
    if i > 0 {
      TimelyDeliversOnce(c, states, labels, i - 1);
      assert Stepped(c, states[i - 1], labels[i - 1], states[i]);
      TimelyKeeps(c, states[i - 1], labels[i - 1]);
      OneSendStep(c, states[i - 1], labels[i - 1]);
    }
  }

  lemma {:induction false} TimelyKeeps(c: Config, s: Sys, l: Label)
    requires OneSend(s) && Timely(c, s) && Enabled(c, s, l) && !LosesMark(s, l)
    ensures !Breaks(c, s, l)
  {
  }

  /** The condition on marks is needed: a crash between a send and its mark delivers twice. */
  lemma {:induction false} CrashBeforeMarkSendsTwice(c: Config) returns (states: seq<Sys>, labels: seq<Label>)
    ensures Run(c, states, labels) && states[|labels|].sends == 2
    ensures forall i | 0 <= i < |states| :: Timely(c, states[i])
    ensures |labels| > 2 && Enabled(c, states[2], labels[2]) && Breaks(c, states[2], labels[2])
  {
    labels := [Claim(0), SendOk(0), Crash(0), Tick(c.staleSeconds + 1), Claim(1), SendOk(1)];
    var s1 := Apply(c, Start(), Claim(0));
    var s2 := Apply(c, s1, SendOk(0));
    var s3 := Apply(c, s2, Crash(0));
    assert s3.holds == map[];
    var s4 := Apply(c, s3, Tick(c.staleSeconds + 1));
    var s5 := Apply(c, s4, Claim(1));
    states := [Start(), s1, s2, s3, s4, s5, Apply(c, s5, SendOk(1))];
  }

  /** The condition on time is needed: a dispatcher that outlives its claim delivers a second time. */
  lemma {:induction false} StaleDispatcherSendsTwice(c: Config) returns (states: seq<Sys>, labels: seq<Label>)
    ensures Run(c, states, labels) && states[|labels|].sends == 2
    ensures forall i | 0 <= i < |labels| :: !LosesMark(states[i], labels[i])
    ensures |labels| > 2 && Enabled(c, states[2], labels[2]) && Breaks(c, states[2], labels[2])
  {
    labels := [Claim(0), Tick(c.staleSeconds + 1), Claim(1), SendOk(0), SendOk(1)];
    var s1 := Apply(c, Start(), Claim(0));
    var s2 := Apply(c, s1, Tick(c.staleSeconds + 1));
    var s3 := Apply(c, s2, Claim(1));
    var s4 := Apply(c, s3, SendOk(0));
    states := [Start(), s1, s2, s3, s4, Apply(c, s4, SendOk(1))];
  }

  // ---------------------------------------------------------------- the retry budget

  function Failures(labels: seq<Label>): nat {
    if labels == [] then 0
    else Failures(labels[..|labels| - 1]) + if labels[|labels| - 1].Fail? then 1 else 0
  }

  /** No send succeeds, and failures are retryable; exceptions, crashes, reaps and reclaims are unrestricted. */
  predicate NeverSucceeds(l: Label) { !l.SendOk? && (l.Fail? ==> l.failure.RetryableFailure?) }

  /** And nothing raises. */
  predicate AlwaysRetryable(l: Label) { NeverSucceeds(l) && !l.Error? }

  /** Without a breaking step, an event whose sends always fail retryably is permanent exactly after the
      budget plus one failed attempts; crashes, reaps and reclaims cost nothing. */
  lemma {:induction false} BudgetIsExact(c: Config, states: seq<Sys>, labels: seq<Label>, i: nat)
    requires Run(c, states, labels) && i < |states|
    requires forall j | 0 <= j < i :: Keeps(c, states[j], labels[j]) && AlwaysRetryable(labels[j])
    ensures states[i].row.permanent <==> Failures(labels[..i]) == c.maxAttempts + 1
    ensures !states[i].row.permanent ==>
              !states[i].row.sent && states[i].row.attempts == Failures(labels[..i]) <= c.maxAttempts
    decreases i
  {
    NothingDelivered(c, states, labels, i);
    DeliveredAtMostOnce(c, states, labels, i);
    if i > 0 {
      BudgetIsExact(c, states, labels, i - 1);
      NothingDelivered(c, states, labels, i - 1);
      DeliveredAtMostOnce(c, states, labels, i - 1);
      SendsNeverExceedClaims(c, states, labels, i - 1);
      assert Stepped(c, states[i - 1], labels[i - 1], states[i]);
      assert labels[..i][..i - 1] == labels[..i - 1];
    }
  }

  lemma {:induction false} NothingDelivered(c: Config, states: seq<Sys>, labels: seq<Label>, i: nat)
    requires Run(c, states, labels) && i < |states|
    requires forall j | 0 <= j < i :: NeverSucceeds(labels[j])
    ensures forall w | w in states[i].holds :: !states[i].holds[w].phase.Delivered?
    decreases i
  {
    if i > 0 {
      NothingDelivered(c, states, labels, i - 1);
      assert Stepped(c, states[i - 1], labels[i - 1], states[i]);
    }
  }

  // ---------------------------------------------------------------- exceptions and the budget

  /** Failed sends and exceptions alike: each release counts one attempt. */
  function Tries(labels: seq<Label>): nat {
    if labels == [] then 0
    else
      var last := labels[|labels| - 1];
      Tries(labels[..|labels| - 1]) + if last.Fail? || last.Error? then 1 else 0
  }

  /** Some send failed when the budget was spent. */
  predicate FailedExhausted(c: Config, labels: seq<Label>) {
    if labels == [] then false
    else
      var before := labels[..|labels| - 1];
      FailedExhausted(c, before) || (labels[|labels| - 1].Fail? && Tries(before) >= c.maxAttempts)
  }

  /** Without a breaking step, an event that is never sent is permanent exactly if a send failed after as many tries
      as the budget. Exceptions count as tries, but only a failed send consults the count. */
  lemma {:induction false} OnlyFailuresExhaust(c: Config, states: seq<Sys>, labels: seq<Label>, i: nat)
    requires Run(c, states, labels) && i < |states|
    requires forall j | 0 <= j < i :: Keeps(c, states[j], labels[j]) && NeverSucceeds(labels[j])
    ensures states[i].row.permanent <==> FailedExhausted(c, labels[..i])
    ensures !states[i].row.permanent ==> !states[i].row.sent && states[i].row.attempts == Tries(labels[..i])
    decreases i
  {
    if i > 0 {
      OnlyFailuresExhaust(c, states, labels, i - 1);
      NothingDelivered(c, states, labels, i - 1);
      DeliveredAtMostOnce(c, states, labels, i - 1);
      SendsNeverExceedClaims(c, states, labels, i - 1);
      assert Stepped(c, states[i - 1], labels[i - 1], states[i]);
      assert labels[..i][..i - 1] == labels[..i - 1];
    }
  }

  /** So an event that always raises is never given up: after any number of claims and exceptions, with no breaking
      step, it is eligible again. */
  lemma {:induction false} RaisingIsForever(c: Config, n: nat) returns (states: seq<Sys>, labels: seq<Label>)
    ensures Run(c, states, labels) && |labels| == 2 * n
    ensures forall j | 0 <= j < |labels| :: Keeps(c, states[j], labels[j])
    ensures states[2 * n] == Sys(Row(false, false, None, n), 0, map[], n, 0)
    ensures Eligible(c, states[2 * n].row, states[2 * n].now)
  {
    if n == 0 {
      states, labels := [Start()], [];
    } else {
      states, labels := RaisingIsForever(c, n - 1);
      var s := states[|labels|];
      var held := Apply(c, s, Claim(0));
      assert held.holds[0] == Hold(0, n - 1, Pending) && forall w | w in held.holds :: w == 0;
      assert !Breaks(c, s, Claim(0)) && !Breaks(c, held, Error(0));
      var after := Apply(c, held, Error(0));
      assert after.holds == map[];
      states, labels := states + [held, after], labels + [Claim(0), Error(0)];
    }
  }
}
