/** Portal metadata of one subject and year, written into the paper cache: who creates a row, and who relists one.

    The rows are those of the lease; a portal record names the postback target of each exam, empty if not listed. */
module Metadata {
  import Lease
  import opened Wrappers

  datatype Exam = MidSem | EndSem

  datatype Record = Record(subject: string, midSem: string, endSem: string)

  datatype Paper = Paper(row: Lease.Row, target: string)

  function TargetOf(r: Record, x: Exam): string { if x == MidSem then r.midSem else r.endSem }

  function NotListed(): Paper { Paper(Lease.Stub().(status := Lease.NotAvailable), "") }

  /** The target the portal lists last for the exam, None if it lists none. */
  function Listed(records: seq<Record>, subject: string, x: Exam): Option<string> {
    if records == [] then None
    else
      var last := records[|records| - 1];
      if last.subject == subject && TargetOf(last, x) != "" then Some(TargetOf(last, x))
      else Listed(records[..|records| - 1], subject, x)
  }

  /** What becomes of an exam's paper, given only what was stored and what the portal lists: a missing one is created,
      a listed one gets the target and leaves `not available`, and nothing else moves. */
  function After(before: Option<Paper>, listed: Option<string>): Paper {
    match before
    case None => if listed.Some? then Paper(Lease.Stub(), listed.value) else NotListed()
    case Some(p) => if listed.Some? then Paper(Lease.Relisted(p.row), listed.value) else p
  }

  function Stored(papers: map<Exam, Paper>, x: Exam): Option<Paper> { if x in papers then Some(papers[x]) else None }

  ghost predicate IsPersisted(before: map<Exam, Paper>, after: map<Exam, Paper>, records: seq<Record>, subject: string)
  {
    forall x :: Stored(after, x) == Some(After(Stored(before, x), Listed(records, subject, x)))
  }

  class PaperCatalog {
    var papers: map<Exam, Paper>

    constructor ()
      ensures papers == map[]
    {
      papers := map[];
    }

    /** One exam of one record. */
    method PersistExam(x: Exam, target: string)
      modifies this
      ensures papers == old(papers)[x := After(Stored(old(papers), x), if target == "" then None else Some(target))]
    {
      if target != "" {
        if x !in papers {
          papers := papers[x := Paper(Lease.Stub(), target)];
        } else {
          var p := papers[x];
          if p.target != target {
            p := p.(target := target);
          }
          if p.row.status == Lease.NotAvailable {
            p := p.(row := p.row.(status := Lease.Retryable, attempts := 0));
          }
          papers := papers[x := p];
        }
      } else if x !in papers {
        papers := papers[x := NotListed()];
      }
    }

    /** Both exams of one record. */
    method PersistExams(r: Record)
      modifies this
      ensures papers.Keys == old(papers.Keys) + {MidSem, EndSem}
      ensures forall x :: Stored(papers, x) == Some(After(Stored(old(papers), x), TargetIn(r, x)))
    {
      PersistExam(MidSem, r.midSem);
      PersistExam(EndSem, r.endSem);
    }

    /** The whole write: whatever the order and number of the records, each exam's paper is what `After` makes of the
        stored one and the last listed target. */
    method PersistSubjectMetadata(records: seq<Record>, subject: string)
      modifies this
      ensures papers.Keys == old(papers.Keys) + {MidSem, EndSem}
      ensures IsPersisted(old(papers), papers, records, subject)
    {
      ghost var before := papers;
      var matched := false;
      assert records[..0] == [];
      for k := 0 to |records|
        invariant matched ==> papers.Keys == before.Keys + {MidSem, EndSem}
        invariant matched ==> IsPersisted(before, papers, records[..k], subject)
        invariant !matched ==> papers == before && forall x :: Listed(records[..k], subject, x) == None
      {
        assert records[..k + 1][..k] == records[..k];
        if records[k].subject == subject {
          ghost var was := papers;
          PersistExams(records[k]);
          OneMoreRecord(before, was, papers, records[..k], records[k], subject, matched);
          assert records[..k + 1] == records[..k] + [records[k]];
          matched := true;
        }
      }
      assert records[..|records|] == records;
      if !matched {
        PersistExams(Record(subject, "", ""));
      }
    }
  }

  function TargetIn(r: Record, x: Exam): Option<string> {
    if TargetOf(r, x) == "" then None else Some(TargetOf(r, x))
  }

  /** A record of the subject, written over what the earlier ones left, or as the first of the subject. */
  lemma {:induction false} OneMoreRecord(before: map<Exam, Paper>, was: map<Exam, Paper>, after: map<Exam, Paper>,
                                         records: seq<Record>, last: Record, subject: string, matched: bool)
    requires last.subject == subject
    requires forall x :: Stored(after, x) == Some(After(Stored(was, x), TargetIn(last, x)))
    requires if matched then IsPersisted(before, was, records, subject)
             else was == before && forall x :: Listed(records, subject, x) == None
    ensures IsPersisted(before, after, records + [last], subject)
  {
    assert (records + [last])[..|records|] == records;
    forall x ensures Stored(after, x) == Some(After(Stored(before, x), Listed(records + [last], subject, x))) {
      AfterTwice(Stored(before, x), Listed(records, subject, x), TargetOf(last, x));
    }
  }

  /** Writing twice is writing once with the later listing. */
  lemma {:induction false} AfterTwice(before: Option<Paper>, first: Option<string>, target: string)
    ensures var second := if target == "" then None else Some(target);
            After(Some(After(before, first)), second) == After(before, if second.Some? then second else first)
  {
  }

  /** The record lists a target for the mid-semester or the end-semester paper of the subject. */
  predicate Lists(r: Record, subject: string, x: Exam, target: string) {
    r.subject == subject && target != "" && (if x.MidSem? then r.midSem == target else r.endSem == target)
  }

  /** The listed target is the last one that a record of the subject gives for that very exam. */
  lemma {:induction false} ListedIs(records: seq<Record>, subject: string, x: Exam)
    ensures match Listed(records, subject, x)
            case None => forall i, target | 0 <= i < |records| :: !Lists(records[i], subject, x, target)
            case Some(target) =>
              exists i :: 0 <= i < |records| && Lists(records[i], subject, x, target) &&
                  forall j, other | i < j < |records| :: !Lists(records[j], subject, x, other)
  {
    if records != [] {
      var n := |records| - 1;
      ListedIs(records[..n], subject, x);
      var target := Listed(records, subject, x);
      if Lists(records[n], subject, x, TargetOf(records[n], x)) {
        assert target == Some(TargetOf(records[n], x));
      } else if target.Some? {
        var i :| 0 <= i < n && Lists(records[..n][i], subject, x, target.value) &&
            forall j, other | i < j < n :: !Lists(records[..n][j], subject, x, other);
        assert Lists(records[i], subject, x, target.value);
        forall j, other | i < j < |records| ensures !Lists(records[j], subject, x, other) {
          assert j < n ==> records[..n][j] == records[j];
        }
      } else {
        forall i, other | 0 <= i < |records| ensures !Lists(records[i], subject, x, other) {
          assert i < n ==> records[..n][i] == records[i];
        }
      }
    }
  }

  /** A new paper is ready to be fetched if the portal lists it, and known to be absent otherwise; a stored one follows
      the listed target, and is to be fetched, with a fresh budget, if it was absent. */
  lemma {:induction false} AfterIs(before: Option<Paper>, listed: Option<string>)
    ensures before.None? ==>
              var p := After(before, listed);
              && p.row.fileId.None? && p.row.acquiredAt.None? && p.row.acquiredBy.None? && p.row.attempts == 0
              && p.row.status == (if listed.Some? then Lease.Retryable else Lease.NotAvailable)
              && p.target == (if listed.Some? then listed.value else "")
    ensures before.Some? && listed.None? ==> After(before, listed) == before.value
    ensures before.Some? && listed.Some? ==>
              var was, p := before.value, After(before, listed);
              && p.target == listed.value
              && (was.row.status != Lease.NotAvailable ==> p.row == was.row)
              && (was.row.status == Lease.NotAvailable ==>
                    p.row == Lease.Row(Lease.Retryable, was.row.fileId, was.row.acquiredAt, was.row.acquiredBy, 0))
  {
  }

  /** The metadata writer respects the lease: a row that is available, permanently failed or in progress is left exactly
      as it is, a well-kept row stays well kept, and a new row is well kept. */
  lemma {:induction false} MetadataRespectsLease(before: Option<Paper>, listed: Option<string>)
    requires before.Some? ==> Lease.WellKept(before.value.row)
    ensures Lease.WellKept(After(before, listed).row)
    ensures before.Some? && before.value.row.status != Lease.NotAvailable ==>
            After(before, listed).row == before.value.row
    ensures After(before, listed).row.status == Lease.NotAvailable <==>
              listed.None? && (before.None? || before.value.row.status == Lease.NotAvailable)
  {
  }
}
