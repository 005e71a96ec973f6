/** Inbox persistence: one short transaction per sync, serialised per user by an advisory lock.

    `Db` is one user's part of the database. A transaction folds `Step` over the scraped headers; `None` stands for
    the unique-constraint violation that rolls the transaction back. `InboxStore` runs the loop on the stored rows. */
module Inbox {

  import opened Wrappers

  /** A scraped header; `sentOn` is the instant after normalisation to UTC. */
  datatype Header = Header(portalId: int, token: string, sender: string, subject: string, sentOn: int)

  datatype Detail = Detail(body: Option<string>, attachment: Option<string>)

  /** When the body was fetched: never, in this sync, or "long ago" so that the next open fetches it again. */
  datatype Fetched = Never | JustNow | LongAgo

  datatype Row = Row(id: nat, token: string, sender: string, subject: string, sentOn: int, body: Option<string>,
                     attachment: Option<string>, cached: Option<nat>, fetched: Fetched, isRead: bool)

  datatype Kind = NewMessage | MessageUpdated

  datatype Event = Event(kind: Kind, messageId: nat, sender: string, subject: string)

  /** Rows by portal id: the unique index on (user, portal id). `next` is the next row id. */
  datatype Db = Db(rows: map<int, Row>, events: seq<Event>, next: nat)

  /** A header-only historical message. */
  predicate Postback(token: string) { "postback:" <= token }

  predicate HasEvent(events: seq<Event>, kind: Kind, id: nat) {
    exists i :: 0 <= i < |events| && events[i].kind == kind && events[i].messageId == id
  }

  /** `has_message_event` guards every creation. */
  function Noted(events: seq<Event>, event: Event): seq<Event> {
    if HasEvent(events, event.kind, event.messageId) then events else events + [event]
  }

  function NewRow(id: nat, m: Header, details: map<int, Detail>): Row {
    if Postback(m.token) then Row(id, m.token, m.sender, m.subject, m.sentOn, None, None, None, Never, false)
    else
      var d := if m.portalId in details then details[m.portalId] else Detail(None, None);
      Row(id, m.token, m.sender, m.subject, m.sentOn, d.body, d.attachment, None,
          if d.body.Some? then JustNow else LongAgo, false)
  }

  function Insert(db: Db, m: Header, details: map<int, Detail>, loud: bool): Db {
    var row := NewRow(db.next, m, details);
    Db(db.rows[m.portalId := row],
       if loud && !Postback(m.token) then Noted(db.events, Event(NewMessage, row.id, m.sender, m.subject))
       else db.events,
       db.next + 1)
  }

  /** A changed subject is an edited notice: everything derived from the old one goes. */
  function Refreshed(row: Row, m: Header): Row {
    if row.subject != m.subject
    then Row(row.id, m.token, row.sender, m.subject, m.sentOn, None, None, None, Never, false)
    else row.(token := m.token, sentOn := m.sentOn)
  }

  function Refresh(db: Db, m: Header): Db
    requires m.portalId in db.rows
  {
    var row := db.rows[m.portalId];
    Db(db.rows[m.portalId := Refreshed(row, m)],
       if row.subject != m.subject then Noted(db.events, Event(MessageUpdated, row.id, row.sender, m.subject))
       else db.events,
       db.next)
  }

  /** `known` is the lookup made once, when the lock was granted. */
  function Step(db: Db, known: set<int>, m: Header, details: map<int, Detail>, loud: bool): Option<Db>
    requires known <= db.rows.Keys
  {
    if m.portalId in known then Some(Refresh(db, m))
    else if m.portalId in db.rows then None
    else Some(Insert(db, m, details, loud))
  }

  function Fold(db: Db, scraped: seq<Header>, details: map<int, Detail>, loud: bool): (r: Option<Db>)
    ensures r.Some? ==> db.rows.Keys <= r.value.rows.Keys
  {
    if scraped == [] then Some(db)
    else
      match Fold(db, scraped[..|scraped| - 1], details, loud)
      case None => None
      case Some(d) => Step(d, db.rows.Keys, scraped[|scraped| - 1], details, loud)
  }

  /** First population, and any sync asked to be a baseline, is silent. */
  predicate Loud(db: Db, baseline: bool) { !baseline && db.rows != map[] }

  function Persisted(db: Db, scraped: seq<Header>, details: map<int, Detail>, baseline: bool): Db {
    match Fold(db, scraped, details, Loud(db, baseline))
    case None => db
    case Some(d) => d
  }

  class InboxStore {
    var rows: map<int, Row>
    var events: seq<Event>
    var next: nat

    function View(): Db
      reads this
    {
      Db(rows, events, next)
    }

    constructor ()
      ensures View() == Db(map[], [], 0)
    {
      rows, events, next := map[], [], 0;
    }

    method CreateEvent(event: Event)
      modifies this`events
      ensures events == Noted(old(events), event)
    {
      if !HasEvent(events, event.kind, event.messageId) {
        events := events + [event];
      }
    }

    method InsertMessage(m: Header, details: map<int, Detail>, effectiveBaseline: bool)
      modifies this
      ensures View() == Insert(old(View()), m, details, !effectiveBaseline)
    {
      var row := Row(next, m.token, m.sender, m.subject, m.sentOn, None, None, None, Never, false);
      next := next + 1;
      if !Postback(m.token) {
        if m.portalId in details {
          row := row.(body := details[m.portalId].body, attachment := details[m.portalId].attachment);
        }
        row := row.(fetched := if row.body.Some? then JustNow else LongAgo);
        if !effectiveBaseline {
          CreateEvent(Event(NewMessage, row.id, row.sender, row.subject));
        }
      }
      rows := rows[m.portalId := row];
    }

    method RefreshMessage(m: Header)
      requires m.portalId in rows
      modifies this
      ensures View() == Refresh(old(View()), m)
    {
      var row := rows[m.portalId];
      if row.token != m.token {
        row := row.(token := m.token);
      }
      if row.subject != m.subject {
        row := row.(subject := m.subject, sentOn := m.sentOn, body := None, fetched := Never, attachment := None,
                    cached := None, isRead := false);
        CreateEvent(Event(MessageUpdated, row.id, row.sender, row.subject));
      } else if row.sentOn != m.sentOn {
        row := row.(sentOn := m.sentOn);
      }
      rows := rows[m.portalId := row];
    }

    /** The whole transaction. A second insertion of one portal id violates the unique index, and everything the
        transaction did is rolled back. */
    method PersistInboxSync(scraped: seq<Header>, details: map<int, Detail>, baseline: bool) returns (committed: bool)
      modifies this
      ensures View() == Persisted(old(View()), scraped, details, baseline)
      ensures committed <==> Fold(old(View()), scraped, details, Loud(old(View()), baseline)).Some?
    {
      if scraped == [] { return true; }
      ghost var before := View();
      var savedRows, savedEvents, savedNext := rows, events, next;
      var known := rows.Keys;
      var effectiveBaseline := baseline;
      if !effectiveBaseline {
        effectiveBaseline := rows == map[];
      }
      for i := 0 to |scraped|
        invariant Fold(before, scraped[..i], details, !effectiveBaseline) == Some(View())
      {
        assert scraped[..i + 1][..i] == scraped[..i];
        if scraped[i].portalId in known {
          RefreshMessage(scraped[i]);
        } else if scraped[i].portalId in rows {
          PrefixAborts(before, scraped, details, !effectiveBaseline, i + 1);
          rows, events, next := savedRows, savedEvents, savedNext;
          return false;
        } else {
          InsertMessage(scraped[i], details, effectiveBaseline);
        }
      }
      assert scraped[..|scraped|] == scraped;
      return true;
    }
  }

  lemma {:induction false} PrefixAborts(db: Db, scraped: seq<Header>, details: map<int, Detail>, loud: bool, n: nat)
    requires n <= |scraped| && Fold(db, scraped[..n], details, loud).None?
    ensures Fold(db, scraped, details, loud).None?
    decreases |scraped|
  {
    if n == |scraped| {
      assert scraped[..n] == scraped;
    } else {
      assert scraped[..|scraped| - 1][..n] == scraped[..n];
      PrefixAborts(db, scraped[..|scraped| - 1], details, loud, n);
    }
  }

  // ---------------------------------------------------------------- when a transaction aborts

  /** A portal id that is new to the inbox and occurs twice. */
  predicate NewTwice(db: Db, scraped: seq<Header>) {
    exists i, j :: 0 <= i < j < |scraped| && scraped[i].portalId == scraped[j].portalId &&
        scraped[j].portalId !in db.rows
  }

  function Ids(scraped: seq<Header>): set<int> { set i | 0 <= i < |scraped| :: scraped[i].portalId }

  lemma {:induction false} FoldKeys(db: Db, scraped: seq<Header>, details: map<int, Detail>, loud: bool)
    ensures var r := Fold(db, scraped, details, loud); r.Some? ==> r.value.rows.Keys == db.rows.Keys + Ids(scraped)
  {
    if scraped == [] {
    } else {
      var prefix, last := scraped[..|scraped| - 1], scraped[|scraped| - 1];
      FoldKeys(db, prefix, details, loud);
      assert scraped == prefix + [last];
      IdsSnoc(prefix, last);
    }
  }

  /** A transaction rolls back exactly when some portal id new to the inbox was scraped twice. */
  lemma {:induction false} AbortsIffNewTwice(db: Db, scraped: seq<Header>, details: map<int, Detail>, loud: bool)
    ensures Fold(db, scraped, details, loud).None? <==> NewTwice(db, scraped)
  {
    if scraped == [] {
    } else {
      var n := |scraped| - 1;
      var prefix, last := scraped[..n], scraped[n];
      AbortsIffNewTwice(db, prefix, details, loud);
      FoldKeys(db, prefix, details, loud);
      if NewTwice(db, prefix) {
        var i, j :| 0 <= i < j < |prefix| && prefix[i].portalId == prefix[j].portalId && prefix[j].portalId !in db.rows;
        assert scraped[i].portalId == scraped[j].portalId && scraped[j].portalId !in db.rows;
      } else if last.portalId !in db.rows && last.portalId in Ids(prefix) {
        var i :| 0 <= i < |prefix| && prefix[i].portalId == last.portalId;
        assert scraped[i].portalId == scraped[n].portalId && scraped[n].portalId !in db.rows;
      } else if NewTwice(db, scraped) {
        NewTwiceSplits(db, scraped);
      }
    }
  }

  lemma {:induction false} NewTwiceSplits(db: Db, scraped: seq<Header>)
    requires NewTwice(db, scraped)
    ensures var prefix, last := scraped[..|scraped| - 1], scraped[|scraped| - 1];
            NewTwice(db, prefix) || (last.portalId !in db.rows && last.portalId in Ids(prefix))
  {
  }

  // ---------------------------------------------------------------- the dedupe in front of it

  predicate Distinct(headers: seq<Header>) {
    forall i, j | 0 <= i < j < |headers| :: headers[i].portalId != headers[j].portalId
  }

  /** No earlier header has this one's portal id. */
  predicate First(headers: seq<Header>, i: nat)
    requires i < |headers|
  {
    forall j | 0 <= j < i :: headers[j].portalId != headers[i].portalId
  }

  /** `at` lists positions in order, and `kept` what stands there. */
  ghost predicate Selects(headers: seq<Header>, at: seq<nat>, kept: seq<Header>) {
    && |at| == |kept| && (forall k | 0 <= k < |at| :: at[k] < |headers| && kept[k] == headers[at[k]])
    && (forall k, l | 0 <= k < l < |at| :: at[k] < at[l])
  }

  /** The positions kept so far are exactly those of first occurrences. */
  ghost predicate Deduped(headers: seq<Header>, at: seq<nat>, kept: seq<Header>, n: nat)
    requires n <= |headers|
  {
    && Selects(headers, at, kept) && (forall k | 0 <= k < |at| :: at[k] < n)
    && (forall i | 0 <= i < n :: i in at <==> First(headers, i))
    && Distinct(kept)
  }

  /** The first-occurrence dedupe of the parsed list: it keeps, in order, exactly the headers whose portal id has not
      occurred before, so the result has every portal id once. */
  method DedupeHeaders(parsed: seq<Header>) returns (deduped: seq<Header>, ghost at: seq<nat>)
    ensures Selects(parsed, at, deduped)
    ensures forall i | 0 <= i < |parsed| :: i in at <==> First(parsed, i)
    ensures Distinct(deduped) && Ids(deduped) == Ids(parsed)
  {
    deduped, at := [], [];
    var seen: set<int> := {};
    assert parsed[..0] == [];
    for n := 0 to |parsed|
      invariant Deduped(parsed, at, deduped, n)
      invariant seen == Ids(deduped) == Ids(parsed[..n])
    {
      var m := parsed[n];
      assert parsed[..n + 1] == parsed[..n] + [m];
      IdsSnoc(parsed[..n], m);
      if m.portalId in seen {
        DedupeSkips(parsed, at, deduped, n);
      } else {
        seen := seen + {m.portalId};
        IdsSnoc(deduped, m);
        DedupeKeeps(parsed, at, deduped, n);
        deduped, at := deduped + [m], at + [n];
      }
    }
    assert parsed[..|parsed|] == parsed;
  }

  lemma {:induction false} DedupeSkips(headers: seq<Header>, at: seq<nat>, kept: seq<Header>, n: nat)
    requires n < |headers| && Deduped(headers, at, kept, n) && headers[n].portalId in Ids(kept)
    ensures Deduped(headers, at, kept, n + 1)
  {
  }

  lemma {:induction false} DedupeKeeps(headers: seq<Header>, at: seq<nat>, kept: seq<Header>, n: nat)
    requires n < |headers| && Deduped(headers, at, kept, n)
    requires headers[n].portalId !in Ids(kept) && Ids(kept) == Ids(headers[..n])
    ensures Deduped(headers, at + [n], kept + [headers[n]], n + 1)
  {
  }

  lemma {:induction false} IdsSnoc(headers: seq<Header>, m: Header)
    ensures Ids(headers + [m]) == Ids(headers) + {m.portalId}
  {
    var all := headers + [m];
    assert all[|headers|].portalId in Ids(all);
    forall x | x in Ids(headers) ensures x in Ids(all) {
      var i :| 0 <= i < |headers| && headers[i].portalId == x;
      assert all[i].portalId == x;
    }
  }

  /** Distinct portal ids never abort. */
  lemma {:induction false} DistinctCommits(db: Db, scraped: seq<Header>, details: map<int, Detail>, loud: bool)
    requires Distinct(scraped)
    ensures Fold(db, scraped, details, loud).Some?
  {
    AbortsIffNewTwice(db, scraped, details, loud);
  }

  // ---------------------------------------------------------------- what a transaction leaves

  /** Row ids are fresh and distinct, and there is at most one event of a kind for a message. */
  ghost predicate WellKept(db: Db) {
    && (forall p | p in db.rows :: db.rows[p].id < db.next)
    && (forall p, q | p in db.rows && q in db.rows && db.rows[p].id == db.rows[q].id :: p == q)
    && (forall i | 0 <= i < |db.events| :: db.events[i].messageId < db.next)
    && (forall i, j | 0 <= i < j < |db.events| ::
          db.events[i].kind != db.events[j].kind || db.events[i].messageId != db.events[j].messageId)
  }

  /** The row of portal id `p` came with this transaction and is announced exactly if the transaction is loud and
      the row is not header-only. */
  ghost predicate FreshRow(db: Db, d: Db, loud: bool, p: int)
    requires p in d.rows
  {
    db.next <= d.rows[p].id && (HasEvent(d.events, NewMessage, d.rows[p].id) <==> loud && !Postback(d.rows[p].token))
  }

  /** The event announces a row that came with this transaction, by its sender and subject. */
  ghost predicate Announces(db: Db, d: Db, e: Event) {
    exists p :: p in d.rows && p !in db.rows && d.rows[p].id == e.messageId &&
        e.sender == d.rows[p].sender && e.subject == d.rows[p].subject
  }

  ghost predicate Grown(db: Db, d: Db, loud: bool) {
    && WellKept(d) && db.next <= d.next && db.rows.Keys <= d.rows.Keys && db.events <= d.events
    && (forall p | p in db.rows :: d.rows[p].id == db.rows[p].id)
    && (forall p | p in d.rows && p !in db.rows :: FreshRow(db, d, loud, p))
    && (forall i | |db.events| <= i < |d.events| && d.events[i].kind == NewMessage :: Announces(db, d, d.events[i]))
  }

  /** `Noted` adds at most one event, keeps the old ones, and answers the guard from then on. */
  lemma {:induction false} NotedOnce(events: seq<Event>, e: Event, kind: Kind, id: nat)
    ensures events <= Noted(events, e)
    ensures HasEvent(Noted(events, e), kind, id) <==>
            HasEvent(events, kind, id) || (kind == e.kind && id == e.messageId)
  {
    var after := Noted(events, e);
    if HasEvent(events, kind, id) {
      var i :| 0 <= i < |events| && events[i].kind == kind && events[i].messageId == id;
      assert after[i] == events[i];
    }
    if after != events {
      assert after[|events|] == e;
    }
  }

  lemma {:induction false} InsertIsWellKept(d: Db, m: Header, details: map<int, Detail>, loud: bool)
    requires WellKept(d) && m.portalId !in d.rows
    ensures WellKept(Insert(d, m, details, loud)) && d.events <= Insert(d, m, details, loud).events
  {
    EventsStayDistinct(d.events, Event(NewMessage, d.next, m.sender, m.subject));
  }

  lemma {:induction false} InsertGrows(db: Db, d: Db, m: Header, details: map<int, Detail>, loud: bool)
    requires WellKept(db) && Grown(db, d, loud) && m.portalId !in d.rows
    ensures Grown(db, Insert(d, m, details, loud), loud)
  {
    var d' := Insert(d, m, details, loud);
    InsertIsWellKept(d, m, details, loud);
    forall p | p in d'.rows && p !in db.rows ensures FreshRow(db, d', loud, p) {
      NotedOnce(d.events, Event(NewMessage, d.next, m.sender, m.subject), NewMessage, d'.rows[p].id);
      assert p != m.portalId ==> FreshRow(db, d, loud, p);
    }
    forall i | |db.events| <= i < |d'.events| && d'.events[i].kind == NewMessage
      ensures Announces(db, d', d'.events[i])
    {
      InsertAnnounces(db, d, m, details, loud, i);
    }
  }

  lemma {:induction false} InsertAnnounces(db: Db, d: Db, m: Header, details: map<int, Detail>, loud: bool, i: nat)
    requires Grown(db, d, loud) && m.portalId !in d.rows
    requires |db.events| <= i < |Insert(d, m, details, loud).events|
    requires Insert(d, m, details, loud).events[i].kind == NewMessage
    ensures Announces(db, Insert(d, m, details, loud), Insert(d, m, details, loud).events[i])
  {
    var d' := Insert(d, m, details, loud);
    if i == |d.events| {
      assert d'.rows[m.portalId].id == d'.events[i].messageId;
    } else {
      assert Announces(db, d, d.events[i]);
      var p :| p in d.rows && p !in db.rows && d.rows[p].id == d.events[i].messageId &&
          d.events[i].sender == d.rows[p].sender && d.events[i].subject == d.rows[p].subject;
      assert d'.rows[p] == d.rows[p];
    }
  }

  lemma {:induction false} RefreshGrows(db: Db, d: Db, m: Header, loud: bool)
    requires WellKept(db) && Grown(db, d, loud) && m.portalId in db.rows
    ensures Grown(db, Refresh(d, m), loud)
  {
    var d', row := Refresh(d, m), d.rows[m.portalId];
    var e := Event(MessageUpdated, row.id, row.sender, m.subject);
    forall p | p in d'.rows && p !in db.rows ensures FreshRow(db, d', loud, p) {
      NotedOnce(d.events, e, NewMessage, d'.rows[p].id);
      assert FreshRow(db, d, loud, p);
    }
    forall i | |db.events| <= i < |d'.events| && d'.events[i].kind == NewMessage
      ensures Announces(db, d', d'.events[i])
    {
      assert Announces(db, d, d.events[i]);
      var p :| p in d.rows && p !in db.rows && d.rows[p].id == d.events[i].messageId &&
          d.events[i].sender == d.rows[p].sender && d.events[i].subject == d.rows[p].subject;
      assert d'.rows[p] == d.rows[p];
    }
    EventsStayDistinct(d.events, e);
  }

  lemma {:induction false} EventsStayDistinct(events: seq<Event>, e: Event)
    requires forall i, j | 0 <= i < j < |events| ::
            events[i].kind != events[j].kind || events[i].messageId != events[j].messageId
    ensures var after := Noted(events, e);
            forall i, j | 0 <= i < j < |after| ::
                after[i].kind != after[j].kind || after[i].messageId != after[j].messageId
  {
  }

  /** One committed transaction: ids stay fresh and distinct, rows and events are never lost, a row that came with it
      is announced exactly if it is loud and the row has a detail page, and nothing else is announced. */
  lemma {:induction false} TransactionGrows(db: Db, scraped: seq<Header>, details: map<int, Detail>, loud: bool)
    requires WellKept(db) && Fold(db, scraped, details, loud).Some?
    ensures Grown(db, Fold(db, scraped, details, loud).value, loud)
  {
    if scraped == [] {
    } else {
      var prefix, last := scraped[..|scraped| - 1], scraped[|scraped| - 1];
      TransactionGrows(db, prefix, details, loud);
      var d := Fold(db, prefix, details, loud).value;
      if last.portalId in db.rows {
        RefreshGrows(db, d, last, loud);
      } else {
        InsertGrows(db, d, last, details, loud);
      }
    }
  }

  /** The fields of a new message: header-only ones have no body to fetch, the others what was fetched, or a fetch
      that is due. */
  predicate IsNewRow(row: Row, m: Header, details: map<int, Detail>) {
    && row.sender == m.sender && !row.isRead && row.cached.None?
    && if "postback:" <= m.token then row.body.None? && row.attachment.None? && row.fetched == Never
       else if m.portalId in details then
         && row.body == details[m.portalId].body && row.attachment == details[m.portalId].attachment
         && row.fetched == if row.body.Some? then JustNow else LongAgo
       else row.body.None? && row.attachment.None? && row.fetched == LongAgo
  }

  /** What the transaction makes of one scraped header: a new row, or the stored one, which drops everything derived
      from it exactly if its subject changed. */
  predicate Mirrors(db: Db, row: Row, m: Header, details: map<int, Detail>) {
    && row.token == m.token && row.subject == m.subject && row.sentOn == m.sentOn
    && if m.portalId !in db.rows then IsNewRow(row, m, details)
       else
         var was := db.rows[m.portalId];
         && row.id == was.id && row.sender == was.sender
         && if was.subject == m.subject then
              && row.body == was.body && row.attachment == was.attachment && row.cached == was.cached
              && row.fetched == was.fetched && row.isRead == was.isRead
            else
              row.body.None? && row.attachment.None? && row.cached.None? && row.fetched == Never && !row.isRead
  }

  ghost predicate AllMirrored(db: Db, d: Db, scraped: seq<Header>, details: map<int, Detail>) {
    && (forall i | 0 <= i < |scraped| ::
          scraped[i].portalId in d.rows && Mirrors(db, d.rows[scraped[i].portalId], scraped[i], details))
    && (forall p | p in d.rows && p !in Ids(scraped) :: p in db.rows && d.rows[p] == db.rows[p])
  }

  /** A transaction over distinct portal ids commits, and leaves every scraped header mirrored by its row and every
      other row as it was. */
  lemma {:induction false} TransactionMirrors(db: Db, scraped: seq<Header>, details: map<int, Detail>, loud: bool)
    requires Distinct(scraped)
    ensures Fold(db, scraped, details, loud).Some?
    ensures AllMirrored(db, Fold(db, scraped, details, loud).value, scraped, details)
  {
    DistinctCommits(db, scraped, details, loud);
    if scraped == [] {
    } else {
      var prefix, last := scraped[..|scraped| - 1], scraped[|scraped| - 1];
      TransactionMirrors(db, prefix, details, loud);
      FoldKeys(db, prefix, details, loud);
      assert scraped == prefix + [last];
      var d := Fold(db, prefix, details, loud).value;
      StepMirrors(db, d, prefix, last, details, loud);
      MirroredSnoc(db, d, Fold(db, scraped, details, loud).value, prefix, last, details);
    }
  }

  lemma {:induction false} StepMirrors(db: Db, d: Db, prefix: seq<Header>, last: Header, details: map<int, Detail>,
                                       loud: bool)
    requires AllMirrored(db, d, prefix, details) && Distinct(prefix + [last]) && db.rows.Keys <= d.rows.Keys
    requires Step(d, db.rows.Keys, last, details, loud).Some?
    ensures var d' := Step(d, db.rows.Keys, last, details, loud).value;
            && last.portalId in d'.rows && d'.rows == d.rows[last.portalId := d'.rows[last.portalId]]
            && Mirrors(db, d'.rows[last.portalId], last, details)
  {
    forall i | 0 <= i < |prefix| ensures prefix[i].portalId != last.portalId {
      assert (prefix + [last])[i] == prefix[i] && (prefix + [last])[|prefix|] == last;
    }
    assert last.portalId !in Ids(prefix);
  }

  lemma {:induction false} MirroredSnoc(db: Db, d: Db, d': Db, prefix: seq<Header>, last: Header,
                                        details: map<int, Detail>)
    requires AllMirrored(db, d, prefix, details) && Distinct(prefix + [last])
    requires last.portalId in d'.rows && d'.rows == d.rows[last.portalId := d'.rows[last.portalId]]
    requires Mirrors(db, d'.rows[last.portalId], last, details)
    ensures AllMirrored(db, d', prefix + [last], details)
  {
    var scraped := prefix + [last];
    IdsSnoc(prefix, last);
    forall i | 0 <= i < |scraped|
      ensures scraped[i].portalId in d'.rows && Mirrors(db, d'.rows[scraped[i].portalId], scraped[i], details)
    {
      if i < |prefix| {
        assert scraped[i] == prefix[i] && scraped[i].portalId != scraped[|prefix|].portalId;
      }
    }
  }

  /** A sync that scraped a new portal id twice changes nothing. Any other one stores every scraped id, and announces a
      message that is new to the inbox exactly if the inbox was not empty, the caller asked for no baseline, and the
      message is not header-only. */
  lemma {:induction false} NewcomersAreAnnounced(
      db: Db, scraped: seq<Header>, details: map<int, Detail>, baseline: bool)
    requires WellKept(db)
    ensures var d := Persisted(db, scraped, details, baseline);
            if NewTwice(db, scraped) then d == db
            else
              && d.rows.Keys == db.rows.Keys + Ids(scraped)
              && forall p | p in d.rows && p !in db.rows ::
                   HasEvent(d.events, NewMessage, d.rows[p].id) <==>
                     db.rows.Keys != {} && !baseline && !("postback:" <= d.rows[p].token)
  {
    var loud := !baseline && db.rows.Keys != {};
    assert Loud(db, baseline) == loud;
    AbortsIffNewTwice(db, scraped, details, loud);
    if !NewTwice(db, scraped) {
      TransactionGrows(db, scraped, details, loud);
      FoldKeys(db, scraped, details, loud);
      var d := Fold(db, scraped, details, loud).value;
      forall p | p in d.rows && p !in db.rows
        ensures HasEvent(d.events, NewMessage, d.rows[p].id) <==> loud && !("postback:" <= d.rows[p].token)
      {
        assert FreshRow(db, d, loud, p);
      }
    }
  }

  /** The event reports a header that changed the subject of a stored message, by the sender stored for it. */
  ghost predicate Reports(db: Db, scraped: seq<Header>, e: Event) {
    exists p, i :: p in db.rows && 0 <= i < |scraped| && scraped[i].portalId == p && db.rows[p].id == e.messageId &&
        e.sender == db.rows[p].sender && e.subject == scraped[i].subject
  }

  /** Ids and senders of stored messages stand, and every new event but an announcement reports an edit. */
  ghost predicate Reported(db: Db, d: Db, scraped: seq<Header>) {
    && db.events <= d.events && db.rows.Keys <= d.rows.Keys
    && (forall p | p in db.rows :: d.rows[p].id == db.rows[p].id && d.rows[p].sender == db.rows[p].sender)
    && forall k | |db.events| <= k < |d.events| && d.events[k].kind == MessageUpdated ::
         Reports(db, scraped, d.events[k])
  }

  lemma {:induction false} UpdatesReportEdits(db: Db, scraped: seq<Header>, details: map<int, Detail>, loud: bool)
    requires Fold(db, scraped, details, loud).Some?
    ensures Reported(db, Fold(db, scraped, details, loud).value, scraped)
  {
    if scraped == [] {
    } else {
      var prefix, last := scraped[..|scraped| - 1], scraped[|scraped| - 1];
      UpdatesReportEdits(db, prefix, details, loud);
      assert scraped == prefix + [last];
      StepReports(db, Fold(db, prefix, details, loud).value, prefix, last, details, loud);
    }
  }

  lemma {:induction false} StepReports(
      db: Db, d: Db, prefix: seq<Header>, last: Header, details: map<int, Detail>, loud: bool)
    requires Reported(db, d, prefix) && db.rows.Keys <= d.rows.Keys
    requires Step(d, db.rows.Keys, last, details, loud).Some?
    ensures Reported(db, Step(d, db.rows.Keys, last, details, loud).value, prefix + [last])
  {
    var d', all := Step(d, db.rows.Keys, last, details, loud).value, prefix + [last];
    forall k | |db.events| <= k < |d'.events| && d'.events[k].kind == MessageUpdated
      ensures Reports(db, all, d'.events[k])
    {
      if k < |d.events| {
        assert d'.events[k] == d.events[k] && Reports(db, prefix, d.events[k]);
        var p, i :| p in db.rows && 0 <= i < |prefix| && prefix[i].portalId == p &&
            db.rows[p].id == d.events[k].messageId && d.events[k].sender == db.rows[p].sender &&
            d.events[k].subject == prefix[i].subject;
        assert all[i] == prefix[i];
      } else {
        assert all[|prefix|] == last;
      }
    }
  }

  // ---------------------------------------------------------------- over any sequence of transactions and purges

  datatype Tx = Tx(scraped: seq<Header>, details: map<int, Detail>, baseline: bool)

  /** A sync, or a retention sweep that keeps the events at these positions. */
  datatype Op = Sync(tx: Tx) | Purge(keep: seq<nat>)

  ghost predicate Keeps(events: seq<Event>, keep: seq<nat>) {
    && (forall i | 0 <= i < |keep| :: keep[i] < |events|)
    && (forall i, j | 0 <= i < j < |keep| :: keep[i] < keep[j])
  }

  function Kept(events: seq<Event>, keep: seq<nat>): seq<Event>
    requires forall i | 0 <= i < |keep| :: keep[i] < |events|
  {
    seq(|keep|, i requires 0 <= i < |keep| => events[keep[i]])
  }

  /** Serialised transactions of one user, from any callers, and sweeps of any events; other users may take row ids in
      between. */
  ghost predicate Run(states: seq<Db>, ops: seq<Op>) {
    && |states| == |ops| + 1
    && states[0].rows == map[] && states[0].events == []
    && forall k | 0 <= k < |ops| :: Ran(states[k], ops[k], states[k + 1])
  }

  ghost predicate Ran(db: Db, op: Op, db': Db) {
    match op
    case Sync(tx) =>
      (var d := Persisted(db, tx.scraped, tx.details, tx.baseline);
       db' == d.(next := db'.next) && d.next <= db'.next)
    case Purge(keep) => Keeps(db.events, keep) && db' == db.(events := Kept(db.events, keep))
  }

  lemma {:induction false} RunIsWellKept(states: seq<Db>, ops: seq<Op>, n: nat)
    requires Run(states, ops) && n < |states|
    ensures WellKept(states[n])
  {
    if n > 0 {
      RunIsWellKept(states, ops, n - 1);
      assert Ran(states[n - 1], ops[n - 1], states[n]);
      if ops[n - 1].Sync? {
        SyncGrows(states[n - 1], ops[n - 1].tx, states[n]);
      }
    }
  }

  /** A sync stores no event twice, and what it announces came with it. */
  lemma {:induction false} SyncGrows(db: Db, tx: Tx, db': Db)
    requires WellKept(db) && Ran(db, Sync(tx), db')
    ensures WellKept(db') && db.events <= db'.events && db.next <= db'.next
    ensures forall i | |db.events| <= i < |db'.events| ::
            !HasEvent(db.events, db'.events[i].kind, db'.events[i].messageId)
    ensures forall i | |db.events| <= i < |db'.events| && db'.events[i].kind == NewMessage ::
              db.next <= db'.events[i].messageId && Announces(db, db', db'.events[i])
    ensures !Loud(db, tx.baseline) ==>
              forall i | |db.events| <= i < |db'.events| :: db'.events[i].kind != NewMessage
  {
    var loud := Loud(db, tx.baseline);
    var r := Fold(db, tx.scraped, tx.details, loud);
    if r.Some? {
      TransactionGrows(db, tx.scraped, tx.details, loud);
      forall i | |db.events| <= i < |db'.events| && db'.events[i].kind == NewMessage
        ensures loud && db.next <= db'.events[i].messageId && Announces(db, db', db'.events[i])
      {
        assert Announces(db, r.value, r.value.events[i]);
        var p :| p in r.value.rows && p !in db.rows && r.value.rows[p].id == r.value.events[i].messageId &&
            r.value.events[i].sender == r.value.rows[p].sender && r.value.events[i].subject == r.value.rows[p].subject;
        assert FreshRow(db, r.value, loud, p);
        assert HasEvent(r.value.events, NewMessage, r.value.rows[p].id);
        assert db'.rows[p] == r.value.rows[p];
      }
      forall i | |db.events| <= i < |db'.events|
        ensures !HasEvent(db.events, db'.events[i].kind, db'.events[i].messageId)
      {
        assert forall j | 0 <= j < |db.events| :: db'.events[j] == db.events[j];
      }
    }
  }

  /** Whichever caller wins the race, the first population is silent: every stored announcement is of a message that
      was inserted by a transaction that found the inbox non-empty and was not a baseline. */
  lemma {:induction false} FirstPopulationIsSilent(states: seq<Db>, ops: seq<Op>, n: nat, i: nat) returns (k: nat)
    requires Run(states, ops) && n < |states|
    requires i < |states[n].events| && states[n].events[i].kind == NewMessage
    ensures k < n && ops[k].Sync? && states[k].rows != map[] && !ops[k].tx.baseline
    ensures Announces(states[k], states[k + 1], states[n].events[i])
  {
    RunIsWellKept(states, ops, n - 1);
    assert Ran(states[n - 1], ops[n - 1], states[n]);
    if ops[n - 1].Purge? {
      k := FirstPopulationIsSilent(states, ops, n - 1, ops[n - 1].keep[i]);
    } else {
      SyncGrows(states[n - 1], ops[n - 1].tx, states[n]);
      if i < |states[n - 1].events| {
        k := FirstPopulationIsSilent(states, ops, n - 1, i);
      } else {
        k := n - 1;
      }
    }
  }

  ghost predicate Adds(before: seq<Event>, after: seq<Event>, kind: Kind, id: nat) {
    exists i :: |before| <= i < |after| && after[i].kind == kind && after[i].messageId == id
  }

  /** Step k creates an event of the kind for the message. */
  ghost predicate Creates(states: seq<Db>, ops: seq<Op>, k: nat, kind: Kind, id: nat)
    requires |states| == |ops| + 1
  {
    k < |ops| && ops[k].Sync? && Adds(states[k].events, states[k + 1].events, kind, id)
  }

  lemma {:induction false} EventsStay(before: seq<Event>, after: seq<Event>, kind: Kind, id: nat)
    requires before <= after && HasEvent(before, kind, id)
    ensures HasEvent(after, kind, id)
  {
    var i :| 0 <= i < |before| && before[i].kind == kind && before[i].messageId == id;
    assert after[i] == before[i];
  }

  lemma {:induction false} NextGrows(states: seq<Db>, ops: seq<Op>, k: nat, m: nat)
    requires Run(states, ops) && k <= m < |states|
    ensures states[k].next <= states[m].next
  {
    if k < m {
      NextGrows(states, ops, k, m - 1);
      RunIsWellKept(states, ops, m - 1);
      assert Ran(states[m - 1], ops[m - 1], states[m]);
      if ops[m - 1].Sync? { SyncGrows(states[m - 1], ops[m - 1].tx, states[m]); }
    }
  }

  /** A message is announced at most once over the whole run, whatever is purged. */
  lemma {:induction false} AnnouncedOnce(states: seq<Db>, ops: seq<Op>, k: nat, m: nat, id: nat)
    requires Run(states, ops) && Creates(states, ops, k, NewMessage, id) && Creates(states, ops, m, NewMessage, id)
    ensures k == m
  {
    if k < m { AnnouncedBefore(states, ops, k, m, id); }
    if m < k { AnnouncedBefore(states, ops, m, k, id); }
  }

  lemma {:induction false} AnnouncedBefore(states: seq<Db>, ops: seq<Op>, k: nat, m: nat, id: nat)
    requires Run(states, ops) && k < m && Creates(states, ops, k, NewMessage, id)
    ensures !Creates(states, ops, m, NewMessage, id)
  {
    RunIsWellKept(states, ops, k + 1);
    if m < |ops| && ops[m].Sync? {
      RunIsWellKept(states, ops, m);
      NextGrows(states, ops, k + 1, m);
      assert Ran(states[m], ops[m], states[m + 1]);
      SyncGrows(states[m], ops[m].tx, states[m + 1]);
    }
  }

  /** An edit of a message is reported a second time only after a sweep removed the first report. */
  lemma {:induction false} SecondReportNeedsPurge(states: seq<Db>, ops: seq<Op>, k: nat, m: nat, kind: Kind, id: nat)
    returns (p: nat)
    requires Run(states, ops) && k < m && Creates(states, ops, k, kind, id) && Creates(states, ops, m, kind, id)
    ensures k < p < m && ops[p].Purge? && HasEvent(states[p].events, kind, id) &&
            !HasEvent(states[p + 1].events, kind, id)
  {
    RunIsWellKept(states, ops, m);
    assert Ran(states[m], ops[m], states[m + 1]);
    SyncGrows(states[m], ops[m].tx, states[m + 1]);
    p := k + 1;
    assert HasEvent(states[p].events, kind, id);
    while HasEvent(states[p + 1].events, kind, id)
      invariant k < p < m && HasEvent(states[p].events, kind, id) && !HasEvent(states[m].events, kind, id)
      decreases m - p
    {
      p := p + 1;
    }
    RunIsWellKept(states, ops, p);
    assert Ran(states[p], ops[p], states[p + 1]);
    if ops[p].Sync? {
      SyncGrows(states[p], ops[p].tx, states[p + 1]);
      EventsStay(states[p].events, states[p + 1].events, kind, id);
    }
  }

  /** Some header of portal id `p` has another subject than the row. */
  predicate Edited(row: Row, scraped: seq<Header>, p: int) {
    exists i :: 0 <= i < |scraped| && scraped[i].portalId == p && scraped[i].subject != row.subject
  }

  lemma {:induction false} EditedSnoc(row: Row, scraped: seq<Header>, m: Header, p: int)
    ensures Edited(row, scraped + [m], p) <==> Edited(row, scraped, p) || (m.portalId == p && m.subject != row.subject)
  {
    var all := scraped + [m];
    assert all[|scraped|] == m;
    if i :| 0 <= i < |scraped| && scraped[i].portalId == p && scraped[i].subject != row.subject {
      assert all[i] == scraped[i];
    }
  }

  /** What one more header does to the report of an edit of the row at `p`. */
  ghost predicate EditNoted(db: Db, d: Db, scraped: seq<Header>, p: int) {
    && p in db.rows && p in d.rows && d.rows[p].id == db.rows[p].id
    && (HasEvent(d.events, MessageUpdated, db.rows[p].id) <==>
          HasEvent(db.events, MessageUpdated, db.rows[p].id) || Edited(db.rows[p], scraped, p))
    && (!Edited(db.rows[p], scraped, p) ==> d.rows[p].subject == db.rows[p].subject)
  }

  lemma {:induction false} StepNotes(db: Db, d: Db, scraped: seq<Header>, m: Header, details: map<int, Detail>,
                                     loud: bool, p: int)
    requires WellKept(d) && EditNoted(db, d, scraped, p) && db.rows.Keys <= d.rows.Keys
    requires Step(d, db.rows.Keys, m, details, loud).Some?
    ensures EditNoted(db, Step(d, db.rows.Keys, m, details, loud).value, scraped + [m], p)
  {
    EditedSnoc(db.rows[p], scraped, m, p);
    if m.portalId in db.rows {
      var row := d.rows[m.portalId];
      NotedOnce(d.events, Event(MessageUpdated, row.id, row.sender, m.subject), MessageUpdated, db.rows[p].id);
    } else {
      NotedOnce(d.events, Event(NewMessage, d.next, m.sender, m.subject), MessageUpdated, db.rows[p].id);
    }
  }

  lemma {:induction false} TransactionNotes(db: Db, scraped: seq<Header>, details: map<int, Detail>, loud: bool, p: int)
    requires WellKept(db) && Fold(db, scraped, details, loud).Some? && p in db.rows
    ensures EditNoted(db, Fold(db, scraped, details, loud).value, scraped, p)
  {
    if scraped == [] {
    } else {
      var prefix, last := scraped[..|scraped| - 1], scraped[|scraped| - 1];
      TransactionGrows(db, prefix, details, loud);
      TransactionNotes(db, prefix, details, loud, p);
      StepNotes(db, Fold(db, prefix, details, loud).value, prefix, last, details, loud, p);
      assert scraped == prefix + [last];
    }
  }

  /** A committed transaction, loud or silent, reports an edit of a stored message exactly if some header changes its
      subject and no report of an edit of it is stored: until a sweep, later edits are silent. */
  lemma {:induction false} EditReportedIff(db: Db, scraped: seq<Header>, details: map<int, Detail>, loud: bool, p: int)
    requires WellKept(db) && Fold(db, scraped, details, loud).Some? && p in db.rows
    ensures var id := db.rows[p].id;
            Adds(db.events, Fold(db, scraped, details, loud).value.events, MessageUpdated, id) <==>
            Edited(db.rows[p], scraped, p) && !HasEvent(db.events, MessageUpdated, id)
  {
    TransactionGrows(db, scraped, details, loud);
    TransactionNotes(db, scraped, details, loud, p);
    AddsIffNew(db.events, Fold(db, scraped, details, loud).value.events, MessageUpdated, db.rows[p].id);
  }

  lemma {:induction false} AddsIffNew(before: seq<Event>, after: seq<Event>, kind: Kind, id: nat)
    requires before <= after
    requires forall i, j | 0 <= i < j < |after| ::
               after[i].kind != after[j].kind || after[i].messageId != after[j].messageId
    ensures Adds(before, after, kind, id) <==> HasEvent(after, kind, id) && !HasEvent(before, kind, id)
  {
    if HasEvent(before, kind, id) {
      var j :| 0 <= j < |before| && before[j].kind == kind && before[j].messageId == id;
      assert after[j] == before[j];
    } else if i :| 0 <= i < |after| && after[i].kind == kind && after[i].messageId == id {
      if i < |before| { assert before[i] == after[i]; }
    }
  }

  /** And after such a sweep it is: an inbox of one message, edited, swept, and edited again. */
  lemma {:induction false} PurgedEditIsReportedAgain() returns (states: seq<Db>, ops: seq<Op>)
    ensures Run(states, ops) && |ops| == 4
    ensures Creates(states, ops, 1, MessageUpdated, 0) && Creates(states, ops, 3, MessageUpdated, 0)
  {
    var a, b := Header(7, "t", "s", "old", 0), Header(7, "t", "s", "new", 0);
    ops := [Sync(Tx([a], map[], false)), Sync(Tx([b], map[], false)), Purge([]), Sync(Tx([a], map[], false))];
    var none := Db(map[], [], 0);
    var row := NewRow(0, a, map[]);
    var first := Db(map[7 := row], [], 1);
    var edited := Refresh(first, b);
    var swept := edited.(events := []);
    states := [none, first, edited, swept, Refresh(swept, a)];
    OneHeader(none, a);
    OneHeader(first, b);
    OneHeader(swept, a);
    assert row.subject == "old" && Refreshed(row, b).subject == "new";
    assert Kept(edited.events, []) == [];
    assert edited.events == [Event(MessageUpdated, 0, "s", "new")];
    assert states[4].events == [Event(MessageUpdated, 0, "s", "old")];
    assert states[2].events[0].messageId == 0 && states[4].events[0].messageId == 0;
  }

  /** A sync of one header. */
  lemma {:induction false} OneHeader(db: Db, m: Header)
    ensures Persisted(db, [m], map[], false) ==
            if m.portalId in db.rows then Refresh(db, m) else Insert(db, m, map[], db.rows != map[])
  {
    assert [m][..0] == [];
    assert Fold(db, [], map[], Loud(db, false)) == Some(db);
  }
}
