/** The acquisition lease of a shared cache row: claim, mark, reap, invalidate, by many workers.

    Each guarded UPDATE is one atomic statement on the row; `CacheRow` is the row as an object whose methods
    are those statements. `Sys` adds the clock and the workers that have claimed and not yet marked. */
module Lease {

  import opened Wrappers

  /** Both tables share one state machine; only what a mark clears differs. */
  datatype Table = Papers | Attachments

  datatype Status = Available | NotAvailable | InProgress | Retryable | Permanent

  datatype Row = Row(status: Status, fileId: Option<string>, acquiredAt: Option<int>, acquiredBy: Option<nat>,
                     attempts: nat)

  datatype Outcome = Uploaded(fileId: string) | Absent | Failed(permanent: bool)

  function Stub(): Row { Row(Retryable, None, None, None, 0) }

  predicate Claimable(r: Row, now: int, stale: nat) {
    r.status == Retryable ||
    (r.status == InProgress && (r.acquiredAt.None? || r.acquiredAt.value < now - stale))
  }

  function Claimed(r: Row, job: nat, now: int, stale: nat): Row {
    if !Claimable(r, now, stale) then r
    else r.(status := InProgress, acquiredBy := Some(job), acquiredAt := Some(now), attempts := r.attempts + 1)
  }

  function Unlocked(table: Table, r: Row): Row {
    if table == Papers then r.(acquiredBy := None, acquiredAt := None) else r
  }

  /** The three marks: guarded by the status, not by the owner. */
  function Marked(table: Table, r: Row, outcome: Outcome): Row {
    if r.status != InProgress then r
    else
      match outcome
      case Uploaded(fileId) => Unlocked(table, r).(status := Available, fileId := Some(fileId))
      case Absent => Unlocked(table, r).(status := NotAvailable)
      case Failed(permanent) => Unlocked(table, r).(status := if permanent then Permanent else Retryable)
  }

  function Reaped(r: Row, now: int, stale: nat): Row {
    if r.status == InProgress && r.acquiredAt.Some? && r.acquiredAt.value < now - stale * 2
    then r.(status := Retryable, acquiredBy := None) else r
  }

  /** A rejected file id: not guarded at all. */
  function Invalidated(table: Table, r: Row): Row {
    r.(status := Retryable, fileId := None, attempts := if table == Papers then 0 else r.attempts)
  }

  function FileSet(r: Row, fileId: string): Row { r.(status := Available, fileId := Some(fileId)) }

  /** The portal lists a paper again. */
  function Relisted(r: Row): Row {
    if r.status == NotAvailable then r.(status := Retryable, attempts := 0) else r
  }

  /** The operator's reset leaves the file id in place. */
  function OperatorReset(r: Row): Row {
    r.(status := Retryable, attempts := 0, acquiredBy := None, acquiredAt := None)
  }

  class CacheRow {
    const table: Table
    const staleSeconds: nat
    var status: Status
    var telegramFileId: Option<string>
    var acquiredAt: Option<int>
    var acquiredBy: Option<nat>
    var attemptCount: nat

    function View(): Row
      reads this
    {
      Row(status, telegramFileId, acquiredAt, acquiredBy, attemptCount)
    }

    constructor (table: Table, staleSeconds: nat)
      ensures this.table == table && this.staleSeconds == staleSeconds && View() == Stub()
    {
      this.table, this.staleSeconds := table, staleSeconds;
      status, telegramFileId, acquiredAt, acquiredBy, attemptCount := Retryable, None, None, None, 0;
    }

    method ClaimForAcquisition(job: nat, now: int) returns (won: bool)
      modifies this
      ensures View() == Claimed(old(View()), job, now, staleSeconds)
      ensures won == Claimable(old(View()), now, staleSeconds)
    {
      won := false;
      if status == Retryable
         || (status == InProgress && (acquiredAt.None? || acquiredAt.value < now - staleSeconds)) {
        status, acquiredBy, acquiredAt := InProgress, Some(job), Some(now);
        attemptCount := attemptCount + 1;
        won := true;
      }
    }

    method Mark(outcome: Outcome)
      modifies this
      ensures View() == Marked(table, old(View()), outcome)
    {
      if status == InProgress {
        if table == Papers {
          acquiredBy, acquiredAt := None, None;
        }
        match outcome {
          case Uploaded(fileId) => status, telegramFileId := Available, Some(fileId);
          case Absent => status := NotAvailable;
          case Failed(permanent) => status := if permanent then Permanent else Retryable;
        }
      }
    }

    method ReapStaleLock(now: int) returns (reclaimed: nat)
      modifies this
      ensures View() == Reaped(old(View()), now, staleSeconds)
      ensures reclaimed == if View() == old(View()) then 0 else 1
    {
      reclaimed := 0;
      if status == InProgress && acquiredAt.Some? && acquiredAt.value < now - staleSeconds * 2 {
        status, acquiredBy, reclaimed := Retryable, None, 1;
      }
    }

    method InvalidateFileId()
      modifies this
      ensures View() == Invalidated(table, old(View()))
    {
      status, telegramFileId := Retryable, None;
      if table == Papers {
        attemptCount := 0;
      }
    }
  }

  // ---------------------------------------------------------------- the protocol

  /** `live` maps a worker that claimed and has neither marked nor died to the time of its claim. */
  datatype Sys = Sys(row: Row, now: int, live: map<nat, int>)

  datatype Label =
    | Tick(to: int)
    | Claim(job: nat)
    | Mark(job: nat, outcome: Outcome)
    | Die(job: nat)
    | Reap
    | Invalidate
    | SetFile(fileId: string)
    | Relist
    | Reset

  predicate Enabled(s: Sys, l: Label) {
    match l
    case Tick(to) => s.now <= to
    case Claim(job) => job !in s.live
    case Mark(job, _) => job in s.live
    case Die(job) => job in s.live
    case _ => true
  }

  function Apply(table: Table, stale: nat, s: Sys, l: Label): Sys {
    match l
    case Tick(to) => s.(now := to)
    case Claim(job) =>
      s.(row := Claimed(s.row, job, s.now, stale),
         live := if Claimable(s.row, s.now, stale) then s.live[job := s.now] else s.live)
    case Mark(job, outcome) => s.(row := Marked(table, s.row, outcome), live := s.live - {job})
    case Die(job) => s.(live := s.live - {job})
    case Reap => s.(row := Reaped(s.row, s.now, stale))
    case Invalidate => s.(row := Invalidated(table, s.row))
    case SetFile(fileId) => s.(row := FileSet(s.row, fileId))
    case Relist => s.(row := Relisted(s.row))
    case Reset => s.(row := OperatorReset(s.row))
  }

  function Start(): Sys { Sys(Stub(), 0, map[]) }

  ghost predicate Run(table: Table, stale: nat, states: seq<Sys>, labels: seq<Label>) {
    && |states| == |labels| + 1
    && states[0] == Start()
    && forall i | 0 <= i < |labels| :: Stepped(table, stale, states[i], labels[i], states[i + 1])
  }

  ghost predicate Stepped(table: Table, stale: nat, s: Sys, l: Label, s': Sys) {
    Enabled(s, l) && s' == Apply(table, stale, s, l)
  }

  // ---------------------------------------------------------------- exclusivity

  /** Every live worker holds the row's lease, so there is at most one. */
  ghost predicate Exclusive(s: Sys) {
    forall j | j in s.live ::
      s.row.status == InProgress && s.row.acquiredAt == Some(s.live[j]) && s.row.acquiredBy == Some(j)
  }

  /** The row's lease is older than `age`. */
  predicate OlderThan(r: Row, now: int, age: int) { r.acquiredAt.Some? && now - r.acquiredAt.value > age }

  /** A step takes the lease from a live worker: an unguarded write, a claim over a lease past the stale
      window, or a reap of a lease past twice that window. */
  predicate Usurps(stale: nat, s: Sys, l: Label) {
    s.live != map[] &&
    match l
    case Invalidate => true
    case SetFile(_) => true
    case Reset => true
    case Claim(_) => OlderThan(s.row, s.now, stale)
    case Reap => OlderThan(s.row, s.now, 2 * stale)
    case _ => false
  }

  /** Exactly the usurping steps break exclusivity. */
  lemma {:induction false} ExclusiveStep(table: Table, stale: nat, s: Sys, l: Label)
    requires Exclusive(s) && Enabled(s, l)
    ensures Exclusive(Apply(table, stale, s, l)) <==> !Usurps(stale, s, l)
  {
  }

  /** Every live worker is still within the stale window of its claim. */
  ghost predicate Timely(stale: nat, s: Sys) {
    forall j | j in s.live :: s.now - s.live[j] <= stale
  }

  predicate Unguarded(l: Label) { l.Invalidate? || l.SetFile? || l.Reset? }

  /** If every worker marks or dies within the stale window of its claim, and no unguarded write hits a row
      that is in progress, then every live worker holds the lease, at most one is live, and neither a claim
      nor the reaper touches a live worker's lease. */
  lemma {:induction false} AtMostOneClaimant(table: Table, stale: nat, states: seq<Sys>, labels: seq<Label>, i: nat)
    requires Run(table, stale, states, labels) && i < |states|
    requires forall j | 0 <= j <= i :: Timely(stale, states[j])
    requires forall j | 0 <= j < i && Unguarded(labels[j]) :: states[j].row.status != InProgress
    ensures Exclusive(states[i])
    ensures forall j, k | j in states[i].live && k in states[i].live :: j == k
    ensures i < |labels| && states[i].live != map[] && (labels[i].Claim? || labels[i].Reap?) ==>
              states[i + 1] == states[i]
    decreases i
  {
    if i > 0 {
      AtMostOneClaimant(table, stale, states, labels, i - 1);
      assert Stepped(table, stale, states[i - 1], labels[i - 1], states[i]);
      ExclusiveStep(table, stale, states[i - 1], labels[i - 1]);
      assert !Usurps(stale, states[i - 1], labels[i - 1]) by { TimelyIsSafe(stale, states[i - 1], labels[i - 1]); }
    }
    if i < |labels| && states[i].live != map[] {
      var j :| j in states[i].live;
      assert Timely(stale, states[i]);
      assert Stepped(table, stale, states[i], labels[i], states[i + 1]);
    }
  }

  lemma {:induction false} TimelyIsSafe(stale: nat, s: Sys, l: Label)
    requires Exclusive(s) && Timely(stale, s) && (Unguarded(l) ==> s.row.status != InProgress)
    ensures !Usurps(stale, s, l)
  {
  }

  predicate WonClaim(stale: nat, s: Sys, l: Label) { l.Claim? && Claimable(s.row, s.now, stale) }

  /** Unconditionally: a claim won over a row that has stayed in progress since an earlier claim comes strictly
      more than the stale window after it. */
  lemma {:induction false} ClaimsAreSpaced(table: Table, stale: nat, states: seq<Sys>, labels: seq<Label>, i: nat,
                                           k: nat)
    requires Run(table, stale, states, labels) && i < k < |labels|
    requires WonClaim(stale, states[i], labels[i]) && WonClaim(stale, states[k], labels[k])
    requires forall j | i < j <= k :: states[j].row.status == InProgress
    ensures states[k].now - states[i].now > stale
  {
    LeaseAgesFrom(table, stale, states, labels, i, k);
  }

  lemma {:induction false} LeaseAgesFrom(table: Table, stale: nat, states: seq<Sys>, labels: seq<Label>, i: nat, k: nat)
    requires Run(table, stale, states, labels) && i < k < |states|
    requires i < |labels| && WonClaim(stale, states[i], labels[i])
    requires forall j | i < j <= k :: states[j].row.status == InProgress
    ensures states[k].row.acquiredAt.Some? && states[i].now <= states[k].row.acquiredAt.value <= states[k].now
    decreases k
  {
    assert Stepped(table, stale, states[k - 1], labels[k - 1], states[k]);
    if i < k - 1 {
      LeaseAgesFrom(table, stale, states, labels, i, k - 1);
    }
  }

  /** Two callers whose cached file was rejected: the second invalidation hits the first one's lease. */
  lemma {:induction false} TwoInvalidators(table: Table, stale: nat) returns (states: seq<Sys>, labels: seq<Label>)
    ensures Run(table, stale, states, labels)
    ensures forall i | 0 <= i < |states| :: Timely(stale, states[i])
    ensures states[|labels|].live.Keys == {1, 2}
  {
    labels := [Claim(0), Mark(0, Uploaded("f")), Invalidate, Claim(1), Invalidate, Claim(2)];
    var s0 := Start();
    var s1 := Apply(table, stale, s0, labels[0]);
    var s2 := Apply(table, stale, s1, labels[1]);
    assert s2.live == map[];
    var s3 := Apply(table, stale, s2, labels[2]);
    var s4 := Apply(table, stale, s3, labels[3]);
    var s5 := Apply(table, stale, s4, labels[4]);
    var s6 := Apply(table, stale, s5, labels[5]);
    states := [s0, s1, s2, s3, s4, s5, s6];
  }

  /** A worker that marks late frees a lease it no longer holds, and two timely workers overlap. */
  lemma {:induction false} LateMarkFreesAnother(table: Table, stale: nat) returns (states: seq<Sys>, labels: seq<Label>)
    ensures Run(table, stale, states, labels)
    ensures forall i | 0 <= i < |labels| :: !Unguarded(labels[i])
    ensures states[|labels|].live.Keys == {1, 2} && Timely(stale, states[|labels|])
  {
    labels := [Claim(0), Tick(stale + 1), Claim(1), Mark(0, Failed(false)), Claim(2)];
    var s0 := Start();
    var s1 := Apply(table, stale, s0, labels[0]);
    var s2 := Apply(table, stale, s1, labels[1]);
    var s3 := Apply(table, stale, s2, labels[2]);
    var s4 := Apply(table, stale, s3, labels[3]);
    assert s4.live == map[1 := stale + 1];
    var s5 := Apply(table, stale, s4, labels[4]);
    states := [s0, s1, s2, s3, s4, s5];
  }

  // ---------------------------------------------------------------- the row itself

  /** A file id exactly when available; a claim time whenever in progress. */
  predicate WellKept(r: Row) {
    (r.fileId.Some? <==> r.status == Available) && (r.status == InProgress ==> r.acquiredAt.Some?)
  }

  /** Exactly one write spoils a well-kept row: the operator's reset of an available one. */
  lemma {:induction false} WellKeptStep(table: Table, stale: nat, s: Sys, l: Label)
    requires WellKept(s.row)
    ensures WellKept(Apply(table, stale, s, l).row) <==> !(l.Reset? && s.row.status == Available)
  {
  }

  /** On every run, under every writer and every late worker: an available row has its file, and a row in
      progress has its claim time; if no available row is reset, a file id also means available. */
  lemma {:induction false} RowsStayWellKept(table: Table, stale: nat, states: seq<Sys>, labels: seq<Label>, i: nat)
    requires Run(table, stale, states, labels) && i < |states|
    ensures states[i].row.status == Available ==> states[i].row.fileId.Some?
    ensures states[i].row.status == InProgress ==> states[i].row.acquiredAt.Some?
    ensures (forall j | 0 <= j < i && labels[j].Reset? :: states[j].row.status != Available) ==> WellKept(states[i].row)
    decreases i
  {
    if i > 0 {
      RowsStayWellKept(table, stale, states, labels, i - 1);
      assert Stepped(table, stale, states[i - 1], labels[i - 1], states[i]);
      if WellKept(states[i - 1].row) {
        WellKeptStep(table, stale, states[i - 1], labels[i - 1]);
      }
    }
  }

  predicate Settled(r: Row) { r.status in {Available, NotAvailable, Permanent} }

  /** A settled row is frozen: claims, deaths, reaps and late marks of expired workers leave it exactly as it is,
      until an unguarded write or a relisting. */
  lemma {:induction false} SettledRowIsFrozen(table: Table, stale: nat, states: seq<Sys>, labels: seq<Label>, i: nat,
                                              k: nat)
    requires Run(table, stale, states, labels) && i <= k < |states|
    requires Settled(states[i].row)
    requires forall j | i <= j < k :: !Unguarded(labels[j]) && !labels[j].Relist?
    ensures states[k].row == states[i].row
    decreases k
  {
    if i < k {
      SettledRowIsFrozen(table, stale, states, labels, i, k - 1);
      assert Stepped(table, stale, states[k - 1], labels[k - 1], states[k]);
    }
  }
}
