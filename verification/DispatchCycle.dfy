/** One dispatch cycle over the event table: claim a batch, group it by user, send each group as a digest or
    event by event, and settle every event as its send went. */
module DispatchCycle {
  import opened Outbox

  /** `message` tells the two notice types, which may be sent as a digest, from all others. */
  datatype Event = Event(user: nat, message: bool, row: Row)

  /** What a claim returns of an event. */
  datatype Ticket = Ticket(id: nat, user: nat, message: bool, attemptsSeen: nat)

  /** How formatting and sending ended: Telegram took the message, it failed, or an exception was raised. */
  datatype Send = Accepted | Refused(failure: Failure) | Raised

  function Settle(c: Config, e: Event, fate: Send): Event {
    e.(row := match fate
              case Accepted => MarkedSent(e.row)
              case Refused(failure) => AfterFailure(c, e.row, failure, e.row.attempts)
              case Raised => Released(e.row))
  }

  /** Event `id` of the table after the cycle: settled if it has a fate, untouched otherwise. */
  function Fated(c: Config, e: Event, id: nat, fates: map<nat, Send>): Event {
    if id in fates then Settle(c, e, fates[id]) else e
  }

  /** The table `after` is `before` with exactly the events of `fates` settled. */
  ghost predicate SettledAs(c: Config, before: seq<Event>, after: seq<Event>, fates: map<nat, Send>) {
    && |after| == |before|
    && (forall id | id in fates :: id < |before|)
    && forall id | 0 <= id < |before| :: after[id] == Fated(c, before[id], id, fates)
  }

  lemma {:induction false} SettledInTurn(c: Config, s0: seq<Event>, s1: seq<Event>, s2: seq<Event>, f: map<nat, Send>,
                                         g: map<nat, Send>)
    requires SettledAs(c, s0, s1, f) && SettledAs(c, s1, s2, g) && f.Keys !! g.Keys
    ensures SettledAs(c, s0, s2, f + g)
  {
  }

  ghost function Deliveries(fates: map<nat, Send>): set<nat> {
    set id | id in fates && fates[id].Accepted?
  }

  lemma {:induction false} DeliveriesAdd(f: map<nat, Send>, g: map<nat, Send>)
    requires f.Keys !! g.Keys
    ensures |Deliveries(f + g)| == |Deliveries(f)| + |Deliveries(g)|
  {
    assert Deliveries(f + g) == Deliveries(f) + Deliveries(g);
  }

  function Ids(group: seq<Ticket>): set<nat> {
    set k | 0 <= k < |group| :: group[k].id
  }

  predicate Distinct(group: seq<Ticket>) {
    forall j, k | 0 <= j < k < |group| :: group[j].id != group[k].id
  }

  /** From index k on, the tickets show the events as the table holds them. */
  predicate Current(events: seq<Event>, group: seq<Ticket>, k: nat) {
    forall j | k <= j < |group| ::
      group[j].id < |events| && events[group[j].id].row.attempts == group[j].attemptsSeen
  }

  function OfUser(claimed: seq<Ticket>, user: nat): seq<Ticket> {
    if claimed == [] then []
    else
      var last := claimed[|claimed| - 1];
      OfUser(claimed[..|claimed| - 1], user) + if last.user == user then [last] else []
  }

  /** The first `batch` eligible events from `from` on, in order of id. */
  function FirstEligible(c: Config, events: seq<Event>, now: int, batch: nat, from: nat): seq<Ticket>
    decreases |events| - from
  {
    if batch == 0 || from >= |events| then []
    else if Eligible(c, events[from].row, now) then
      [TicketOf(events, from)] + FirstEligible(c, events, now, batch - 1, from + 1)
    else FirstEligible(c, events, now, batch, from + 1)
  }

  function TicketOf(events: seq<Event>, id: nat): Ticket
    requires id < |events|
  {
    Ticket(id, events[id].user, events[id].message, events[id].row.attempts)
  }

  predicate InBatch(batch: seq<Ticket>, id: nat) { exists k :: 0 <= k < |batch| && batch[k].id == id }

  /** An eligible event is in the batch, or the batch is full of smaller ids. */
  ghost predicate SkipsNone(c: Config, events: seq<Event>, now: int, batch: nat, from: nat, t: seq<Ticket>) {
    forall id: nat | from <= id < |events| && Eligible(c, events[id].row, now) ::
      InBatch(t, id) || (|t| == batch && forall k | 0 <= k < |t| :: t[k].id < id)
  }

  /** The batch lists eligible events as the table holds them, by increasing id, and passes over no eligible one. */
  lemma {:induction false} FirstEligibleIsSound(c: Config, events: seq<Event>, now: int, batch: nat, from: nat)
    ensures var t := FirstEligible(c, events, now, batch, from);
            && |t| <= batch
            && (forall k | 0 <= k < |t| :: from <= t[k].id < |events| && t[k] == TicketOf(events, t[k].id)
                                           && Eligible(c, events[t[k].id].row, now))
            && (forall j, k | 0 <= j < k < |t| :: t[j].id < t[k].id)
            && SkipsNone(c, events, now, batch, from, t)
    decreases |events| - from
  {
    if batch > 0 && from < |events| {
      var taken := Eligible(c, events[from].row, now);
      FirstEligibleIsSound(c, events, now, if taken then batch - 1 else batch, from + 1);
      if taken {
        OneMoreTaken(c, events, now, batch - 1, from, FirstEligible(c, events, now, batch - 1, from + 1));
      }
    }
  }

  lemma {:induction false} OneMoreTaken(c: Config, events: seq<Event>, now: int, batch: nat, from: nat,
                                        rest: seq<Ticket>)
    requires from < |events| && SkipsNone(c, events, now, batch, from + 1, rest)
    ensures SkipsNone(c, events, now, batch + 1, from, [TicketOf(events, from)] + rest)
  {
    var t := [TicketOf(events, from)] + rest;
    assert t[0].id == from;
    forall id: nat | from < id < |events| && InBatch(rest, id) ensures InBatch(t, id) {
      var k :| 0 <= k < |rest| && rest[k].id == id;
      assert t[k + 1].id == id;
    }
  }

  /** The claimed rows of the batch. */
  ghost predicate ClaimedAs(before: seq<Event>, after: seq<Event>, claimed: seq<Ticket>, now: int) {
    && |after| == |before|
    && forall id | 0 <= id < |before| ::
         after[id] == if id in Ids(claimed) then before[id].(row := Claimed(before[id].row, now)) else before[id]
  }

  class EventTable {
    const config: Config
    var events: seq<Event>

    constructor (config: Config, events: seq<Event>)
      ensures this.config == config && this.events == events
    {
      this.config, this.events := config, events;
    }

    /** `claim_events`: one atomic statement over the table. */
    method ClaimEvents(now: int, batch: nat) returns (claimed: seq<Ticket>)
      modifies this
      ensures claimed == FirstEligible(config, old(events), now, batch, 0)
      ensures ClaimedAs(old(events), events, claimed, now)
    {
      claimed := [];
      for id := 0 to |events|
        invariant |events| == |old(events)| && |claimed| <= batch
        invariant events[id..] == old(events)[id..]
        invariant claimed + FirstEligible(config, old(events), now, batch - |claimed|, id)
                  == FirstEligible(config, old(events), now, batch, 0)
        invariant forall k | 0 <= k < |claimed| :: claimed[k].id < id
        invariant ClaimedAs(old(events), events, claimed, now)
      {
        assert events[id] == events[id..][0] == old(events)[id];
        if |claimed| < batch && Eligible(config, events[id].row, now) {
          ghost var before := claimed;
          claimed := claimed + [TicketOf(events, id)];
          assert Ids(claimed) == Ids(before) + {id} by {
            assert claimed[|before|].id == id;
            forall k | 0 <= k < |before| ensures before[k].id in Ids(claimed) { assert claimed[k].id == before[k].id; }
          }
          events := events[id := events[id].(row := Claimed(events[id].row, now))];
        }
        assert old(events)[id..][1..] == old(events)[id + 1..];
      }
    }

    method MarkEventSent(id: nat)
      requires id < |events|
      modifies this
      ensures SettledAs(config, old(events), events, map[id := Accepted])
    {
      events := events[id := events[id].(row := MarkedSent(events[id].row))];
    }

    method HandleSendFailure(ev: Ticket, failure: Failure) returns (delivered: bool)
      requires ev.id < |events| && events[ev.id].row.attempts == ev.attemptsSeen
      modifies this
      ensures SettledAs(config, old(events), events, map[ev.id := Refused(failure)])
      ensures !delivered
    {
      var row := events[ev.id].row;
      if failure.RetryableFailure? {
        if ev.attemptsSeen >= config.maxAttempts {
          row := MarkedPermanent(row);
        } else {
          row := Released(row);
        }
      } else {
        row := MarkedPermanent(row);
      }
      events := events[ev.id := events[ev.id].(row := row)];
      delivered := false;
    }

    /** An exception releases the claim without a look at the budget. */
    method ReleaseEventClaim(id: nat)
      requires id < |events|
      modifies this
      ensures SettledAs(config, old(events), events, map[id := Raised])
    {
      events := events[id := events[id].(row := Released(events[id].row))];
    }

    method DispatchSingleEvent(ev: Ticket, send: Send) returns (delivered: bool)
      requires ev.id < |events| && events[ev.id].row.attempts == ev.attemptsSeen
      modifies this
      ensures SettledAs(config, old(events), events, map[ev.id := send])
      ensures delivered == send.Accepted?
    {
      match send
      case Accepted => MarkEventSent(ev.id); delivered := true;
      case Refused(failure) => delivered := HandleSendFailure(ev, failure);
      case Raised => ReleaseEventClaim(ev.id); delivered := false;
    }

    /** The same fate for every event of a group. */
    method SettleAll(group: seq<Ticket>, send: Send) returns (ghost fates: map<nat, Send>)
      requires Distinct(group) && Current(events, group, 0)
      modifies this
      ensures fates.Keys == Ids(group) && forall id | id in fates :: fates[id] == send
      ensures SettledAs(config, old(events), events, fates)
    {
      fates := map[];
      for k := 0 to |group|
        invariant Current(events, group, k)
        invariant fates.Keys == Ids(group[..k]) && forall id | id in fates :: fates[id] == send
        invariant SettledAs(config, old(events), events, fates)
      {
        ghost var before := events;
        var _ := DispatchSingleEvent(group[k], send);
        OneMoreSettled(config, old(events), before, events, group, k, fates, send);
        fates := fates[group[k].id := send];
      }
      assert group[..|group|] == group;
    }

    /** A digest: one send, whose outcome every event of the group shares. */
    method SendMessageDigest(group: seq<Ticket>, send: Send) returns (delivered: bool, ghost fates: map<nat, Send>)
      requires Distinct(group) && Current(events, group, 0)
      modifies this
      ensures fates.Keys == Ids(group) && forall id | id in fates :: fates[id] == send
      ensures SettledAs(config, old(events), events, fates)
      ensures delivered == send.Accepted?
    {
      fates := SettleAll(group, send);
      delivered := send.Accepted?;
    }

    /** Event by event, one send each. */
    method SendEach(group: seq<Ticket>, sends: seq<Ticket> -> Send)
      returns (sentCount: nat, ghost fates: map<nat, Send>)
      requires Distinct(group) && Current(events, group, 0)
      modifies this
      ensures fates.Keys == Ids(group) && SettledAs(config, old(events), events, fates)
      ensures EachAsSent(group, fates, sends)
      ensures sentCount == |Deliveries(fates)|
    {
      sentCount, fates := 0, map[];
      assert Deliveries(fates) == {};
      for k := 0 to |group|
        invariant Current(events, group, k)
        invariant fates.Keys == Ids(group[..k]) && SettledAs(config, old(events), events, fates)
        invariant EachAsSent(group[..k], fates, sends)
        invariant sentCount == |Deliveries(fates)|
      {
        ghost var before := events;
        var delivered := DispatchSingleEvent(group[k], sends([group[k]]));
        OneMoreSettled(config, old(events), before, events, group, k, fates, sends([group[k]]));
        OneMoreSent(group, k, fates, sends);
        fates := fates[group[k].id := sends([group[k]])];
        if delivered {
          sentCount := sentCount + 1;
        }
      }
      assert group[..|group|] == group;
    }

    /** The events of one user. */
    method DispatchGroup(group: seq<Ticket>, reachable: bool, sends: seq<Ticket> -> Send)
      returns (sentCount: nat, ghost fates: map<nat, Send>)
      requires Distinct(group) && Current(events, group, 0)
      modifies this
      ensures fates.Keys == Ids(group) && SettledAs(config, old(events), events, fates)
      ensures forall k | 0 <= k < |group| :: group[k].id in fates &&
                fates[group[k].id] == if !reachable then Refused(Orphaned)
                                      else sends(if IsDigest(group) then group else [group[k]])
      ensures sentCount == |Deliveries(fates)|
    {
      sentCount := 0;
      if !reachable {
        fates := SettleAll(group, Refused(Orphaned));
        assert Deliveries(fates) == {};
        return;
      }
      if IsDigest(group) {
        var delivered;
        delivered, fates := SendMessageDigest(group, sends(group));
        assert Deliveries(fates) == if delivered then Ids(group) else {};
        DistinctIdsCount(group);
        if delivered {
          sentCount := |group|;
        }
        return;
      }
      sentCount, fates := SendEach(group, sends);
    }

    /** One group after the other. */
    method DispatchGroups(ghost tickets: seq<Ticket>, groups: map<nat, seq<Ticket>>, order: seq<nat>, users: set<nat>,
                          sends: seq<Ticket> -> Send)
      returns (sentCount: nat, ghost fates: map<nat, Send>)
      requires Grouped(tickets, groups, order) && Distinct(tickets) && Current(events, tickets, 0)
      modifies this
      ensures SettledUpTo(config, old(events), events, tickets, order, users, sends, fates)
      ensures sentCount == |Deliveries(fates)|
    {
      sentCount, fates := 0, map[];
      assert Deliveries(fates) == {};
      for g := 0 to |order|
        invariant SettledUpTo(config, old(events), events, tickets, order[..g], users, sends, fates)
        invariant sentCount == |Deliveries(fates)|
      {
        ghost var before := events;
        var group := groups[order[g]];
        NextGroup(config, old(events), events, tickets, order, g, fates);
        var n, last := DispatchGroup(group, order[g] in users, sends);
        DeliveriesAdd(fates, last);
        GroupSettled(config, old(events), before, events, tickets, order, g, users, sends, fates, last);
        sentCount, fates := sentCount + n, fates + last;
      }
      assert order[..|order|] == order;
    }

    /** `_dispatch_once`, with no database error and no other dispatcher at work. `users` are the users with a
        Telegram account; formatting and sending the events `g` ends as `sends(g)`. */
    method DispatchOnce(now: int, batch: nat, users: set<nat>, sends: seq<Ticket> -> Send)
      returns (sentCount: nat, ghost claimed: seq<Ticket>, ghost fates: map<nat, Send>)
      modifies this
      ensures claimed == FirstEligible(config, old(events), now, batch, 0)
      ensures fates.Keys == Ids(claimed) && AsSent(claimed, users, sends, fates)
      ensures SettledAs(config, old(events), events, fates)
      ensures sentCount == |NewlySent(old(events), events)|
      ensures forall id | id in fates ::
              events[id].row.claimedAt.None? && OneOutcome(old(events)[id].row, events[id].row)
    {
      var tickets := ClaimEvents(now, batch);
      claimed := tickets;
      ghost var afterClaim := events;
      FirstEligibleIsSound(config, old(events), now, batch, 0);
      ClaimedAreCurrent(old(events), afterClaim, tickets, now);
      var groups, order := GroupByUser(tickets);
      sentCount, fates := DispatchGroups(tickets, groups, order, users, sends);
      CycleSettled(config, old(events), afterClaim, events, tickets, order, users, sends, fates, now);
      CycleConserves(config, old(events), events, tickets, fates, now);
    }

    /** The dictionary of groups, filled in the order of the claim. */
    method GroupByUser(tickets: seq<Ticket>) returns (groups: map<nat, seq<Ticket>>, order: seq<nat>)
      ensures Grouped(tickets, groups, order)
    {
      groups, order := map[], [];
      for i := 0 to |tickets|
        invariant Grouped(tickets[..i], groups, order)
      {
        var ev := tickets[i];
        ghost var groups0, order0 := groups, order;
        if ev.user !in groups {
          groups, order := groups[ev.user := []], order + [ev.user];
        }
        groups := groups[ev.user := groups[ev.user] + [ev]];
        GroupedAfter(tickets[..i], groups0, order0, ev, tickets[..i + 1], groups, order);
      }
      assert tickets[..|tickets|] == tickets;
    }
  }

  lemma {:induction false} IdsOfPrefix(group: seq<Ticket>, k: nat)
    requires k < |group|
    ensures Ids(group[..k + 1]) == Ids(group[..k]) + {group[k].id}
    ensures Distinct(group) ==> group[k].id !in Ids(group[..k])
  {
  }

  ghost predicate EachAsSent(group: seq<Ticket>, fates: map<nat, Send>, sends: seq<Ticket> -> Send) {
    forall k | 0 <= k < |group| :: group[k].id in fates && fates[group[k].id] == sends([group[k]])
  }

  lemma {:induction false} OneMoreSent(group: seq<Ticket>, k: nat, fates: map<nat, Send>, sends: seq<Ticket> -> Send)
    requires k < |group| && group[k].id !in fates && EachAsSent(group[..k], fates, sends)
    ensures EachAsSent(group[..k + 1], fates[group[k].id := sends([group[k]])], sends)
  {
  }

  lemma {:induction false} OneMoreSettled(c: Config, s0: seq<Event>, s1: seq<Event>, s2: seq<Event>,
                                          group: seq<Ticket>, k: nat, fates: map<nat, Send>, send: Send)
    requires k < |group| && Distinct(group) && Current(s1, group, k) && fates.Keys == Ids(group[..k])
    requires SettledAs(c, s0, s1, fates) && SettledAs(c, s1, s2, map[group[k].id := send])
    ensures Current(s2, group, k + 1)
    ensures SettledAs(c, s0, s2, fates[group[k].id := send])
    ensures fates[group[k].id := send].Keys == Ids(group[..k + 1])
    ensures group[k].id !in fates
    ensures |Deliveries(fates[group[k].id := send])| == |Deliveries(fates)| + if send.Accepted? then 1 else 0
  {
    IdsOfPrefix(group, k);
    StillCurrent(c, s1, s2, group, k, send);
    OneMoreDelivery(fates, group[k].id, send);
    assert fates[group[k].id := send] == fates + map[group[k].id := send];
    SettledInTurn(c, s0, s1, s2, fates, map[group[k].id := send]);
  }

  lemma {:induction false} StillCurrent(c: Config, s1: seq<Event>, s2: seq<Event>, group: seq<Ticket>, k: nat,
                                        send: Send)
    requires k < |group| && Distinct(group) && Current(s1, group, k)
    requires SettledAs(c, s1, s2, map[group[k].id := send])
    ensures Current(s2, group, k + 1)
  {
  }

  lemma {:induction false} OneMoreDelivery(fates: map<nat, Send>, id: nat, send: Send)
    requires id !in fates
    ensures |Deliveries(fates[id := send])| == |Deliveries(fates)| + if send.Accepted? then 1 else 0
  {
    assert Deliveries(fates[id := send]) == Deliveries(fates) + if send.Accepted? then {id} else {};
  }

  lemma {:induction false} DistinctIdsCount(group: seq<Ticket>)
    requires Distinct(group)
    ensures |Ids(group)| == |group|
  {
    if group != [] {
      var k := |group| - 1;
      DistinctIdsCount(group[..k]);
      IdsOfPrefix(group, k);
      assert group[..k + 1] == group;
    }
  }

  /** The dictionary of groups: one per user, in order of first appearance, each in order of claim. */
  ghost predicate Grouped(claimed: seq<Ticket>, groups: map<nat, seq<Ticket>>, order: seq<nat>) {
    && (forall u :: u in groups <==> u in order)
    && (forall i, j | 0 <= i < j < |order| :: order[i] != order[j])
    && (forall u | u in groups :: groups[u] == OfUser(claimed, u))
    && (forall k | 0 <= k < |claimed| :: claimed[k].user in groups)
  }

  /** Appending a ticket to its user's group, made if need be. */
  lemma {:induction false} GroupedAfter(claimed: seq<Ticket>, groups: map<nat, seq<Ticket>>, order: seq<nat>,
                                        ev: Ticket, claimed': seq<Ticket>, groups': map<nat, seq<Ticket>>,
                                        order': seq<nat>)
    requires Grouped(claimed, groups, order) && claimed' == claimed + [ev]
    requires groups' == groups[ev.user := (if ev.user in groups then groups[ev.user] else []) + [ev]]
    requires order' == if ev.user in groups then order else order + [ev.user]
    ensures Grouped(claimed', groups', order')
  {
    assert claimed'[..|claimed|] == claimed;
    if ev.user !in groups {
      NoTicketsNoGroup(claimed, ev.user);
    }
  }

  lemma {:induction false} NoTicketsNoGroup(claimed: seq<Ticket>, u: nat)
    requires forall k | 0 <= k < |claimed| :: claimed[k].user != u
    ensures OfUser(claimed, u) == []
  {
    if claimed != [] {
      NoTicketsNoGroup(claimed[..|claimed| - 1], u);
    }
  }

  function IdsOfUsers(claimed: seq<Ticket>, users: seq<nat>): set<nat> {
    set k | 0 <= k < |claimed| && claimed[k].user in users :: claimed[k].id
  }

  lemma {:induction false} GroupElements(claimed: seq<Ticket>, u: nat)
    ensures forall k | 0 <= k < |OfUser(claimed, u)| ::
            OfUser(claimed, u)[k] in claimed && OfUser(claimed, u)[k].user == u
    ensures forall t | t in claimed && t.user == u :: t in OfUser(claimed, u)
    ensures Distinct(claimed) ==> Distinct(OfUser(claimed, u))
  {
    if claimed != [] {
      var init, last := claimed[..|claimed| - 1], claimed[|claimed| - 1];
      assert claimed == init + [last];
      GroupElements(init, u);
      forall k | 0 <= k < |OfUser(init, u)| && Distinct(claimed) ensures OfUser(init, u)[k].id != last.id {
        var j :| 0 <= j < |init| && init[j] == OfUser(init, u)[k];
      }
    }
  }

  lemma {:induction false} NextGroup(c: Config, afterClaim: seq<Event>, events: seq<Event>, claimed: seq<Ticket>,
                                     order: seq<nat>, g: nat, fates: map<nat, Send>)
    requires g < |order| && Distinct(claimed) && Current(afterClaim, claimed, 0)
    requires forall i, j | 0 <= i < j < |order| :: order[i] != order[j]
    requires SettledAs(c, afterClaim, events, fates) && fates.Keys == IdsOfUsers(claimed, order[..g])
    ensures var group := OfUser(claimed, order[g]);
            && Distinct(group) && Current(events, group, 0)
            && fates.Keys !! Ids(group)
            && fates.Keys + Ids(group) == IdsOfUsers(claimed, order[..g + 1])
  {
    var u, group := order[g], OfUser(claimed, order[g]);
    GroupElements(claimed, u);
    forall k | 0 <= k < |claimed| && claimed[k].id in fates ensures claimed[k].user != u {
      var j :| 0 <= j < |claimed| && claimed[j].user in order[..g] && claimed[j].id == claimed[k].id;
      assert j == k;
    }
    IdsOfGroup(claimed, u);
    assert order[..g + 1] == order[..g] + [u];
    assert IdsOfUsers(claimed, order[..g + 1]) == IdsOfUsers(claimed, order[..g]) + IdsOfUsers(claimed, [u]);
    GroupIsUntouched(c, afterClaim, events, claimed, u, fates);
  }

  lemma {:induction false} IdsOfGroup(claimed: seq<Ticket>, u: nat)
    ensures Ids(OfUser(claimed, u)) == IdsOfUsers(claimed, [u])
  {
    var group := OfUser(claimed, u);
    GroupElements(claimed, u);
    forall id | id in Ids(group) ensures id in IdsOfUsers(claimed, [u]) {
      var k :| 0 <= k < |group| && group[k].id == id;
      var j :| 0 <= j < |claimed| && claimed[j] == group[k];
    }
    forall id | id in IdsOfUsers(claimed, [u]) ensures id in Ids(group) {
      var j :| 0 <= j < |claimed| && claimed[j].user in [u] && claimed[j].id == id;
      var k :| 0 <= k < |group| && group[k] == claimed[j];
    }
  }

  lemma {:induction false} GroupIsUntouched(c: Config, afterClaim: seq<Event>, events: seq<Event>,
                                            claimed: seq<Ticket>, u: nat, fates: map<nat, Send>)
    requires Distinct(claimed) && Current(afterClaim, claimed, 0) && SettledAs(c, afterClaim, events, fates)
    requires forall k | 0 <= k < |claimed| && claimed[k].id in fates :: claimed[k].user != u
    ensures Current(events, OfUser(claimed, u), 0)
    ensures fates.Keys !! Ids(OfUser(claimed, u))
  {
    var group := OfUser(claimed, u);
    GroupElements(claimed, u);
    forall k | 0 <= k < |group|
      ensures group[k].id < |events| && events[group[k].id].row.attempts == group[k].attemptsSeen &&
              group[k].id !in fates
    {
      var j :| 0 <= j < |claimed| && claimed[j] == group[k];
      assert events[group[k].id] == Fated(c, afterClaim[group[k].id], group[k].id, fates);
    }
  }

  lemma {:induction false} ClaimedAreCurrent(before: seq<Event>, after: seq<Event>, claimed: seq<Ticket>, now: int)
    requires ClaimedAs(before, after, claimed, now)
    requires forall k | 0 <= k < |claimed| :: claimed[k].id < |before| && claimed[k] == TicketOf(before, claimed[k].id)
    ensures Current(after, claimed, 0)
  {
  }

  predicate AllMessages(group: seq<Ticket>) { forall k | 0 <= k < |group| :: group[k].message }

  predicate IsDigest(group: seq<Ticket>) { |group| > 1 && AllMessages(group) }

  /** How the cycle ends for a claimed event: orphaned, decided by its user's digest, or by its own send. */
  function FateOf(claimed: seq<Ticket>, users: set<nat>, sends: seq<Ticket> -> Send, ev: Ticket): Send {
    if ev.user !in users then Refused(Orphaned)
    else
      var group := OfUser(claimed, ev.user);
      sends(if IsDigest(group) then group else [ev])
  }

  ghost predicate AsSent(claimed: seq<Ticket>, users: set<nat>, sends: seq<Ticket> -> Send, fates: map<nat, Send>)
  {
    forall k | 0 <= k < |claimed| && claimed[k].id in fates ::
      fates[claimed[k].id] == FateOf(claimed, users, sends, claimed[k])
  }

  /** The groups of the users `done` are settled as their sends went; all other events are as claimed. */
  ghost predicate SettledUpTo(c: Config, afterClaim: seq<Event>, events: seq<Event>, claimed: seq<Ticket>,
                              done: seq<nat>, users: set<nat>, sends: seq<Ticket> -> Send, fates: map<nat, Send>)
  {
    && SettledAs(c, afterClaim, events, fates)
    && fates.Keys == IdsOfUsers(claimed, done)
    && AsSent(claimed, users, sends, fates)
  }

  lemma {:induction false} TicketInGroup(claimed: seq<Ticket>, u: nat, k: nat) returns (j: nat)
    requires Distinct(claimed) && k < |claimed| && claimed[k].id in Ids(OfUser(claimed, u))
    ensures j < |OfUser(claimed, u)| && OfUser(claimed, u)[j] == claimed[k] && claimed[k].user == u
  {
    GroupElements(claimed, u);
    j :| 0 <= j < |OfUser(claimed, u)| && OfUser(claimed, u)[j].id == claimed[k].id;
    var m :| 0 <= m < |claimed| && claimed[m] == OfUser(claimed, u)[j];
  }

  lemma {:induction false} GroupSettled(c: Config, afterClaim: seq<Event>, s1: seq<Event>, s2: seq<Event>,
                                        claimed: seq<Ticket>, order: seq<nat>, g: nat, users: set<nat>,
                                        sends: seq<Ticket> -> Send, fates: map<nat, Send>, last: map<nat, Send>)
    requires g < |order| && Distinct(claimed)
    requires SettledUpTo(c, afterClaim, s1, claimed, order[..g], users, sends, fates)
    requires last.Keys == Ids(OfUser(claimed, order[g])) && SettledAs(c, s1, s2, last)
    requires var group := OfUser(claimed, order[g]);
             forall k | 0 <= k < |group| :: group[k].id in last &&
               last[group[k].id] == if order[g] !in users then Refused(Orphaned)
                                    else sends(if IsDigest(group) then group else [group[k]])
    requires fates.Keys !! last.Keys && fates.Keys + last.Keys == IdsOfUsers(claimed, order[..g + 1])
    ensures SettledUpTo(c, afterClaim, s2, claimed, order[..g + 1], users, sends, fates + last)
  {
    SettledInTurn(c, afterClaim, s1, s2, fates, last);
    forall k | 0 <= k < |claimed| && claimed[k].id in last
      ensures last[claimed[k].id] == FateOf(claimed, users, sends, claimed[k])
    {
      var j := TicketInGroup(claimed, order[g], k);
    }
  }

  lemma {:induction false} CycleSettled(c: Config, before: seq<Event>, afterClaim: seq<Event>, after: seq<Event>,
                                        claimed: seq<Ticket>, order: seq<nat>, users: set<nat>,
                                        sends: seq<Ticket> -> Send, fates: map<nat, Send>, now: int)
    requires ClaimedAs(before, afterClaim, claimed, now)
    requires SettledUpTo(c, afterClaim, after, claimed, order, users, sends, fates)
    requires forall k | 0 <= k < |claimed| :: claimed[k].user in order
    ensures fates.Keys == Ids(claimed)
    ensures SettledAs(c, before, after, fates)
  {
  }

  /** The row of a settled event, by the ending of its send. */
  predicate IsSettled(c: Config, before: Row, after: Row, fate: Send) {
    && after.claimedAt.None?
    && match fate
       case Accepted => after.sent && after.permanent == before.permanent && after.attempts == before.attempts
       case Refused(RetryableFailure) =>
         if before.attempts >= c.maxAttempts then after.sent && after.permanent && after.attempts == before.attempts
         else
           after.sent == before.sent && after.permanent == before.permanent && after.attempts == before.attempts + 1
       case Refused(_) => after.sent && after.permanent && after.attempts == before.attempts
       case Raised =>
         after.sent == before.sent && after.permanent == before.permanent && after.attempts == before.attempts + 1
  }

  /** A table settled as `fates` say: who cannot be reached fails for good, a retryable failure does within its budget
      only once it is spent, and an exception never does; users and kinds stand, and so does every other event. */
  lemma {:induction false} SettledMeans(
      c: Config, before: seq<Event>, after: seq<Event>, fates: map<nat, Send>, id: nat)
    requires SettledAs(c, before, after, fates) && id < |before|
    ensures id in fates ==> IsSettled(c, before[id].row, after[id].row, fates[id])
    ensures after[id].user == before[id].user && after[id].message == before[id].message
    ensures id !in fates ==> after[id] == before[id]
  {
  }

  /** The group of a user lists exactly the claimed events of that user, in the order of the claim. */
  lemma {:induction false} GroupIs(claimed: seq<Ticket>, u: nat) returns (at: seq<nat>)
    ensures |at| == |OfUser(claimed, u)|
    ensures forall k | 0 <= k < |at| :: at[k] < |claimed| && OfUser(claimed, u)[k] == claimed[at[k]]
    ensures forall j, k | 0 <= j < k < |at| :: at[j] < at[k]
    ensures forall i: nat | i < |claimed| :: i in at <==> claimed[i].user == u
  {
    if claimed == [] {
      at := [];
    } else {
      var n := |claimed| - 1;
      at := GroupIs(claimed[..n], u);
      if claimed[n].user == u { at := at + [n]; }
    }
  }

  /** The user has two claimed events at least. */
  ghost predicate TwoOf(claimed: seq<Ticket>, u: nat) {
    exists i, j :: 0 <= i < j < |claimed| && claimed[i].user == u && claimed[j].user == u
  }

  lemma {:induction false} GroupOfTwo(claimed: seq<Ticket>, u: nat)
    ensures |OfUser(claimed, u)| > 1 <==> TwoOf(claimed, u)
  {
    var at := GroupIs(claimed, u);
    if TwoOf(claimed, u) {
      var i, j :| 0 <= i < j < |claimed| && claimed[i].user == u && claimed[j].user == u;
      assert i in at && j in at;
    }
    if |at| > 1 {
      assert claimed[at[0]].user == u && claimed[at[1]].user == u by { assert at[0] in at && at[1] in at; }
    }
  }

  /** All claimed events of the user are messages. */
  predicate OnlyMessages(claimed: seq<Ticket>, u: nat) {
    forall i | 0 <= i < |claimed| && claimed[i].user == u :: claimed[i].message
  }

  lemma {:induction false} GroupOfMessages(claimed: seq<Ticket>, u: nat)
    ensures AllMessages(OfUser(claimed, u)) <==> OnlyMessages(claimed, u)
  {
    var group := OfUser(claimed, u);
    GroupElements(claimed, u);
    if OnlyMessages(claimed, u) {
      forall k | 0 <= k < |group| ensures group[k].message { assert group[k] in claimed; }
    }
    if AllMessages(group) {
      forall i | 0 <= i < |claimed| && claimed[i].user == u ensures claimed[i].message {
        assert claimed[i] in claimed;
        assert claimed[i] in group;
      }
    }
  }

  /** How the cycle ends for a claimed event: without an account it is orphaned; if the user has several claimed events,
      all of them messages, one digest of all decides; and otherwise its own send does. */
  lemma {:induction false} FateIs(claimed: seq<Ticket>, users: set<nat>, sends: seq<Ticket> -> Send, k: nat)
    requires k < |claimed|
    ensures var u, fate := claimed[k].user, FateOf(claimed, users, sends, claimed[k]);
            if u !in users then fate == Refused(Orphaned)
            else if TwoOf(claimed, u) && OnlyMessages(claimed, u) then fate == sends(OfUser(claimed, u))
            else fate == sends([claimed[k]])
  {
    GroupOfTwo(claimed, claimed[k].user);
    GroupOfMessages(claimed, claimed[k].user);
  }

  /** Delivered, permanently failed, or released with one attempt more: exactly one of the three. */
  predicate OneOutcome(before: Row, after: Row) {
    var delivered := after.sent && !after.permanent && after.attempts == before.attempts;
    var failed := after.sent && after.permanent && after.attempts == before.attempts;
    var released := !after.sent && !after.permanent && after.attempts == before.attempts + 1;
    (delivered && !failed && !released) || (!delivered && failed && !released) || (!delivered && !failed && released)
  }

  /** Events that became sent, and not by permanent failure. */
  ghost function NewlySent(before: seq<Event>, after: seq<Event>): set<nat>
    requires |after| == |before|
  {
    set id: nat | id < |before| && !before[id].row.sent && after[id].row.sent && !after[id].row.permanent
  }

  lemma {:induction false} CycleConserves(c: Config, before: seq<Event>, after: seq<Event>, claimed: seq<Ticket>,
                                          fates: map<nat, Send>, now: int)
    requires SettledAs(c, before, after, fates) && fates.Keys == Ids(claimed)
    requires forall k | 0 <= k < |claimed| :: claimed[k].id < |before| && Eligible(c, before[claimed[k].id].row, now)
    ensures NewlySent(before, after) == Deliveries(fates)
    ensures forall id | id in fates :: after[id].row.claimedAt.None? && OneOutcome(before[id].row, after[id].row)
  {
  }
}
