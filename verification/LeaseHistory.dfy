/** The cache row told from its history: what each write leaves, and which write a status, a file id and an attempt
    count come from. */
module LeaseHistory {
  import opened Lease
  import opened Wrappers

  // ---------------------------------------------------------------- each write

  /** A claim now would be won: the row may be retried, or its lease is past the stale window. */
  predicate Wins(stale: nat, r: Row, now: int) {
    || r.status == Retryable
    || (r.status == InProgress && (r.acquiredAt.None? || now - r.acquiredAt.value > stale))
  }

  /** A claim takes the row, counts an attempt and keeps the file id exactly if it wins; else it leaves no trace. */
  lemma {:induction false} ClaimIs(table: Table, stale: nat, s: Sys, job: nat)
    requires Enabled(s, Claim(job))
    ensures var s' := Apply(table, stale, s, Claim(job));
            if Wins(stale, s.row, s.now) then
              && s'.row == Row(InProgress, s.row.fileId, Some(s.now), Some(job), s.row.attempts + 1)
              && s'.live == s.live[job := s.now]
            else s' == s
  {
  }

  /** A mark of a row in progress. Afterwards the row can be claimed, at whatever time, exactly if the outcome was a
      failure that is not permanent; a permanent failure, an absence and an upload have each their own status, the
      upload with its file id; attempts stay, and only the paper table frees the lock fields. A mark of any other row
      changes nothing. */
  lemma {:induction false} MarkIs(table: Table, stale: nat, s: Sys, job: nat, outcome: Outcome)
    requires Enabled(s, Mark(job, outcome))
    ensures var s' := Apply(table, stale, s, Mark(job, outcome));
            && s'.live == s.live - {job} && s'.now == s.now
            && (s.row.status != InProgress ==> s'.row == s.row)
            && (s.row.status == InProgress ==>
                  && ((forall now :: Wins(stale, s'.row, now)) <==> outcome == Failed(false))
                  && ((exists now :: Wins(stale, s'.row, now)) <==> outcome == Failed(false))
                  && (s'.row.status == Permanent <==> outcome == Failed(true))
                  && (s'.row.status == NotAvailable <==> outcome == Absent)
                  && (s'.row.status == Available <==> outcome.Uploaded?)
                  && s'.row.fileId == (if outcome.Uploaded? then Some(outcome.fileId) else s.row.fileId)
                  && s'.row.attempts == s.row.attempts
                  && s'.row.acquiredBy == (if table == Papers then None else s.row.acquiredBy)
                  && s'.row.acquiredAt == (if table == Papers then None else s.row.acquiredAt))
  {
    if s.row.status == InProgress {
      var r := Apply(table, stale, s, Mark(job, outcome)).row;
      assert Wins(stale, r, 0) <==> outcome == Failed(false);
      assert forall now :: Wins(stale, r, now) <==> Wins(stale, r, 0);
    }
  }

  /** The reaper frees exactly a lease taken more than twice the stale window ago; a rejected file id is forgotten and
      the row retried, whatever it was; a stored one makes it available; a relisting revives only a row not available,
      with fresh attempts; the operator's reset makes the row as good as new, but for its file id. */
  lemma {:induction false} OtherWritesAre(table: Table, stale: nat, s: Sys, l: Label)
    requires Enabled(s, l) && !l.Claim? && !l.Mark?
    ensures var r, r' := s.row, Apply(table, stale, s, l).row;
            match l
            case Reap =>
              if r.status == InProgress && r.acquiredAt.Some? && s.now - r.acquiredAt.value > 2 * stale then
                r' == Row(Retryable, r.fileId, r.acquiredAt, None, r.attempts)
              else r' == r
            case Invalidate =>
              r' == Row(Retryable, None, r.acquiredAt, r.acquiredBy, if table == Papers then 0 else r.attempts)
            case SetFile(f) => r' == Row(Available, Some(f), r.acquiredAt, r.acquiredBy, r.attempts)
            case Relist =>
              if r.status == NotAvailable then r' == Row(Retryable, r.fileId, r.acquiredAt, r.acquiredBy, 0)
              else r' == r
            case Reset => r' == Row(Retryable, r.fileId, None, None, 0)
            case _ => r' == r
  {
  }

  // ---------------------------------------------------------------- over every run

  /** The mark takes effect. */
  predicate Marks(s: Sys, l: Label) { l.Mark? && s.row.status == InProgress }

  /** The file id last stored, by an upload that took effect or directly, and not rejected since. */
  function FileStored(states: seq<Sys>, labels: seq<Label>, k: nat): Option<string>
    requires k <= |labels| && k <= |states|
  {
    if k == 0 then None
    else
      var l := labels[k - 1];
      if Marks(states[k - 1], l) && l.outcome.Uploaded? then Some(l.outcome.fileId)
      else if l.SetFile? then Some(l.fileId)
      else if l.Invalidate? then None
      else FileStored(states, labels, k - 1)
  }

  /** The claims won since the attempts were last reset. */
  function ClaimsWon(table: Table, stale: nat, states: seq<Sys>, labels: seq<Label>, k: nat): nat
    requires k <= |labels| && k <= |states|
  {
    if k == 0 then 0
    else
      var s, l := states[k - 1], labels[k - 1];
      if l.Reset? || (l.Invalidate? && table == Papers) || (l.Relist? && s.row.status == NotAvailable) then 0
      else ClaimsWon(table, stale, states, labels, k - 1) + if l.Claim? && Wins(stale, s.row, s.now) then 1 else 0
  }

  /** On every run the row holds the file id last stored and the number of claims won since the last reset; in
      particular an available row serves the last file that was uploaded or set. */
  lemma {:induction false} RowRemembers(table: Table, stale: nat, states: seq<Sys>, labels: seq<Label>, k: nat)
    requires Run(table, stale, states, labels) && k < |states|
    ensures states[k].row.fileId == FileStored(states, labels, k)
    ensures states[k].row.attempts == ClaimsWon(table, stale, states, labels, k)
    decreases k
  {
    if k > 0 {
      RowRemembers(table, stale, states, labels, k - 1);
      assert Stepped(table, stale, states[k - 1], labels[k - 1], states[k]);
      StepRemembers(table, stale, states[k - 1], labels[k - 1]);
    }
  }

  lemma {:induction false} StepRemembers(table: Table, stale: nat, s: Sys, l: Label)
    requires Enabled(s, l)
    ensures var r := Apply(table, stale, s, l).row;
            && r.fileId ==
               (if Marks(s, l) && l.outcome.Uploaded? then Some(l.outcome.fileId)
                else if l.SetFile? then Some(l.fileId)
                else if l.Invalidate? then None
                else s.row.fileId)
            && r.attempts ==
               if l.Reset? || (l.Invalidate? && table == Papers) || (l.Relist? && s.row.status == NotAvailable) then 0
               else s.row.attempts + if l.Claim? && Wins(stale, s.row, s.now) then 1 else 0
  {
  }

  /** The label, at this state, is what gives a row the status. */
  predicate Gives(stale: nat, s: Sys, l: Label, status: Status) {
    match status
    case Available => l.SetFile? || (Marks(s, l) && l.outcome.Uploaded?)
    case NotAvailable => Marks(s, l) && l.outcome == Absent
    case Permanent => Marks(s, l) && l.outcome == Failed(true)
    case InProgress => l.Claim? && Wins(stale, s.row, s.now)
    case Retryable =>
      || l.Reset? || l.Invalidate? || (Marks(s, l) && l.outcome == Failed(false))
      || (l.Relist? && s.row.status == NotAvailable)
      || (l.Reap? && s.row.status == InProgress && OlderThan(s.row, s.now, 2 * stale))
  }

  /** A step gives the row the status its label says, and leaves the status if the label says none. */
  lemma {:induction false} StatusStep(table: Table, stale: nat, s: Sys, l: Label, status: Status)
    requires Enabled(s, l)
    ensures Apply(table, stale, s, l).row.status == status <==>
            Gives(stale, s, l, status) || (s.row.status == status && forall other :: !Gives(stale, s, l, other))
  {
    var r := Apply(table, stale, s, l).row;
    if r.status == s.row.status {
      assert forall other :: Gives(stale, s, l, other) ==> other == r.status;
    } else {
      assert Gives(stale, s, l, r.status);
    }
  }

  /** On every run every status but the first has its reason: available an upload or a stored file, not available an
      absence, permanent a permanent failure, in progress a claim won; and nothing has changed the status since. */
  lemma {:induction false} StatusHasReason(table: Table, stale: nat, states: seq<Sys>, labels: seq<Label>, k: nat)
    returns (since: Option<nat>)
    requires Run(table, stale, states, labels) && k < |states|
    ensures match since
            case None => forall i | 0 <= i <= k :: states[i].row.status == Retryable
            case Some(j) =>
              && j < k && Gives(stale, states[j], labels[j], states[k].row.status)
              && forall i | j < i <= k :: states[i].row.status == states[k].row.status
    decreases k
  {
    if k == 0 { return None; }
    var s, l := states[k - 1], labels[k - 1];
    assert Stepped(table, stale, s, l, states[k]);
    StatusStep(table, stale, s, l, states[k].row.status);
    if Gives(stale, s, l, states[k].row.status) {
      since := Some(k - 1);
    } else {
      since := StatusHasReason(table, stale, states, labels, k - 1);
    }
  }
}
