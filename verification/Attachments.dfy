/** One attachment delivery: how much it may send, download and wait, whatever the portal, Telegram and the other
    workers do. The `World` decides what every call gives; the service counts what it did. */
module Attachments {
  import Lease
  import opened Wrappers

  /** Budgets and times; `interval` and `timeout` are those of the poll loop, and a failure is permanent from
      `permanentAfter` attempts on. */
  datatype Config = Config(floodMax: nat, deliveryMax: nat, interval: nat, timeout: nat, permanentAfter: nat)

  datatype SendOutcome = Sent | Flood | Forbidden | BadFileId | BadRequest | OtherError

  datatype DownloadOutcome = Bytes | NoBytes | DownloadFailed

  /** To the storage channel, directly to the requesting user, or neither. */
  datatype UploadOutcome = ToStorage(fileId: string) | ToUser(fileId: string) | UploadFailed

  datatype Snapshot = Snapshot(status: Lease.Status, fileId: Option<string>)

  /** The outcome of the k-th send, cache read, claim, download and upload, the attempts stored at the k-th mark, and
      the delay before the k-th clock reading. */
  datatype World = World(send: nat -> SendOutcome, read: nat -> Snapshot, claim: nat -> bool,
                         download: nat -> DownloadOutcome,
                         upload: nat -> UploadOutcome, attempts: nat -> nat, lag: nat -> nat)

  datatype Result = Result(delivered: bool, notAvailable: bool, permanent: bool, inProgress: bool)

  function Nothing(): Result { Result(false, false, false, false) }

  // ---------------------------------------------------------------- the send loop

  datatype Ending = Delivered | Limited | Blocked | Rejected | Refused | GaveUp

  /** The sends of one loop: those that were followed by another one, and the last, which decided. */
  datatype Sendings = Sendings(retried: nat, ending: Ending)

  /** What follows, the next send being the k-th. */
  function SendLoop(c: Config, send: nat -> SendOutcome, k: nat, generic: nat, flood: nat): Sendings
    requires flood <= c.floodMax && (generic == 0 || generic < c.deliveryMax)
    decreases MaxSends(c, generic, flood)
  {
    match send(k)
    case Sent => Sendings(0, Delivered)
    case Flood =>
      if flood >= c.floodMax then Sendings(0, Limited) else OneMore(SendLoop(c, send, k + 1, generic, flood + 1))
    case Forbidden => Sendings(0, Blocked)
    case BadFileId => Sendings(0, Rejected)
    case BadRequest => Sendings(0, Refused)
    case OtherError =>
      if generic + 1 >= c.deliveryMax then Sendings(0, GaveUp)
      else OneMore(SendLoop(c, send, k + 1, generic + 1, flood))
  }

  function OneMore(r: Sendings): Sendings { r.(retried := r.retried + 1) }

  /** The two budgets are independent: the floods still to be retried, and the remaining attempts, one at least. */
  function MaxSends(c: Config, generic: nat, flood: nat): nat
    requires flood <= c.floodMax && (generic == 0 || generic < c.deliveryMax)
  {
    c.floodMax - flood + (if c.deliveryMax == 0 then 1 else c.deliveryMax - generic)
  }

  /** A loop never makes more sends than its budgets allow. */
  lemma {:induction false} SendsAreBounded(c: Config, send: nat -> SendOutcome, k: nat, generic: nat, flood: nat)
    requires flood <= c.floodMax && (generic == 0 || generic < c.deliveryMax)
    ensures SendLoop(c, send, k, generic, flood).retried < MaxSends(c, generic, flood)
    decreases MaxSends(c, generic, flood)
  {
    if send(k) == Flood && flood < c.floodMax {
      SendsAreBounded(c, send, k + 1, generic, flood + 1);
    } else if send(k) == OtherError && generic + 1 < c.deliveryMax {
      SendsAreBounded(c, send, k + 1, generic + 1, flood);
    }
  }

  /** Flood waits first, errors then. */
  function Worst(c: Config, k: nat): SendOutcome { if k < c.floodMax then Flood else OtherError }

  /** The bound is met: a chat that rate-limits first and fails then takes every send the budgets allow. */
  lemma {:induction false} BoundIsMet(c: Config, k: nat)
    requires k < MaxSends(c, 0, 0)
    ensures var flood := if k < c.floodMax then k else c.floodMax;
            SendLoop(c, (n: nat) => Worst(c, n), k, k - flood, flood) == Sendings(MaxSends(c, 0, 0) - k - 1, GaveUp)
    decreases MaxSends(c, 0, 0) - k
  {
    if k + 1 < MaxSends(c, 0, 0) { BoundIsMet(c, k + 1); }
  }

  /** How many of the n sends from the k-th on have this outcome. */
  function Among(send: nat -> SendOutcome, k: nat, n: nat, outcome: SendOutcome): nat
    decreases n
  {
    if n == 0 then 0 else (if send(k) == outcome then 1 else 0) + Among(send, k + 1, n - 1, outcome)
  }

  /** A send loop ends as its last send says. */
  predicate EndsWith(e: Ending, last: SendOutcome) {
    && (e == Delivered <==> last == Sent) && (e == Blocked <==> last == Forbidden)
    && (e == Rejected <==> last == BadFileId) && (e == Refused <==> last == BadRequest)
    && (e == Limited <==> last == Flood) && (e == GaveUp <==> last == OtherError)
  }

  /** A send loop from the k-th send on: those retried were floods and other errors, each kind within its budget, and
      the last is of another kind or one for which no budget is left. */
  predicate IsSendLoop(c: Config, send: nat -> SendOutcome, k: nat, generic: nat, flood: nat, r: Sendings) {
    var floods, errors := Among(send, k, r.retried, Flood), Among(send, k, r.retried, OtherError);
    && floods + errors == r.retried && EndsWith(r.ending, send(k + r.retried))
    && flood + floods <= c.floodMax && (generic + errors == 0 || generic + errors < c.deliveryMax)
    && (r.ending == Limited ==> flood + floods == c.floodMax)
    && (r.ending == GaveUp ==> generic + errors + 1 >= c.deliveryMax)
  }

  /** The send loop retries exactly floods and other errors, each within its own budget, and ends as its last send
      says. */
  lemma {:induction false} SendLoopIs(c: Config, send: nat -> SendOutcome, k: nat, generic: nat, flood: nat)
    requires flood <= c.floodMax && (generic == 0 || generic < c.deliveryMax)
    ensures IsSendLoop(c, send, k, generic, flood, SendLoop(c, send, k, generic, flood))
    decreases MaxSends(c, generic, flood)
  {
    if send(k) == Flood && flood < c.floodMax {
      SendLoopIs(c, send, k + 1, generic, flood + 1);
      Prepend(c, send, k, generic, flood, SendLoop(c, send, k + 1, generic, flood + 1));
    } else if send(k) == OtherError && generic + 1 < c.deliveryMax {
      SendLoopIs(c, send, k + 1, generic + 1, flood);
      Prepend(c, send, k, generic, flood, SendLoop(c, send, k + 1, generic + 1, flood));
    }
  }

  lemma {:induction false} Prepend(
      c: Config, send: nat -> SendOutcome, k: nat, generic: nat, flood: nat, rest: Sendings)
    requires || (send(k) == Flood && IsSendLoop(c, send, k + 1, generic, flood + 1, rest))
             || (send(k) == OtherError && IsSendLoop(c, send, k + 1, generic + 1, flood, rest))
    ensures IsSendLoop(c, send, k, generic, flood, OneMore(rest))
  {
    var n := rest.retried;
    assert Among(send, k, n + 1, Flood) == (if send(k) == Flood then 1 else 0) + Among(send, k + 1, n, Flood);
    assert Among(send, k, n + 1, OtherError) ==
        (if send(k) == OtherError then 1 else 0) + Among(send, k + 1, n, OtherError);
  }

  // ---------------------------------------------------------------- one delivery

  /** What the service has done so far. Each counter is also the number of the next call of its kind; `received` are the
      files the user got, `won` the claims won, and `lastFile` the file id sent last. */
  datatype Log = Log(lookups: nat, sends: nat, claims: nat, downloads: nat, uploads: nat, marks: nat,
                     received: nat, won: nat, invalidated: nat, recoveries: nat,
                     lastFile: string, lastMark: Lease.Outcome)

  /** The reading ends a poll loop. */
  predicate Decisive(s: Snapshot) {
    || (s.status == Lease.Available && s.fileId.Some?) || s.status == Lease.NotAvailable
    || s.status == Lease.Retryable || s.status == Lease.Permanent
  }

  function Sends(c: Config, w: World, k: nat): nat { SendLoop(c, w.send, k, 0, 0).retried + 1 }

  function Ends(c: Config, w: World, k: nat): Ending { SendLoop(c, w.send, k, 0, 0).ending }

  /** From `b` to `a` one send loop over the file id ran, its ending is the answer, and nothing else happened. */
  predicate SendsFile(c: Config, w: World, b: Log, a: Log, file: string, r: Result) {
    && a.sends == b.sends + Sends(c, w, b.sends) && a.lastFile == file
    && r == Nothing().(delivered := Ends(c, w, b.sends) == Delivered)
    && a.received == b.received + (if r.delivered then 1 else 0)
    && a.invalidated == b.invalidated + (if Ends(c, w, b.sends) == Rejected then 1 else 0)
    && a == b.(sends := a.sends, received := a.received, invalidated := a.invalidated, lastFile := a.lastFile)
  }

  function MarkedAs(b: Log, outcome: Lease.Outcome): Log { b.(marks := b.marks + 1, lastMark := outcome) }

  /** An acquisition: one download, an upload of what it gave, one mark of what became of them, and then, if the file is
      in the storage channel, a send loop over its file id. */
  predicate Acquired(c: Config, w: World, b: Log, a: Log, r: Result) {
    var failed := Lease.Failed(w.attempts(b.marks) >= c.permanentAfter);
    var d := b.(downloads := b.downloads + 1);
    var u := d.(uploads := b.uploads + 1);
    match w.download(b.downloads)
    case DownloadFailed => a == MarkedAs(d, failed) && r == Nothing()
    case NoBytes => a == MarkedAs(d, Lease.Absent) && r == Nothing().(notAvailable := true)
    case Bytes =>
      match w.upload(b.uploads)
      case UploadFailed => a == MarkedAs(u, failed) && r == Nothing()
      case ToStorage(f) => SendsFile(c, w, MarkedAs(u, Lease.Uploaded(f)), a, f, r)
      case ToUser(f) =>
        a == MarkedAs(u, Lease.Uploaded(f)).(received := b.received + 1) && r == Nothing().(delivered := true)
  }

  /** The answer to a decisive reading. */
  predicate Answered(c: Config, w: World, b: Log, a: Log, s: Snapshot, r: Result)
    requires Decisive(s)
  {
    match s.status
    case Available => SendsFile(c, w, b, a, s.fileId.value, r)
    case NotAvailable => a == b && r == Nothing().(notAvailable := true)
    case Permanent => a == b && r == Nothing().(permanent := true)
    case _ => a == b && r == Nothing()
  }

  /** A poll loop: no reading is decisive, until one is and is answered, or the time is up, and then the row is reported
      in progress. */
  predicate Waited(c: Config, w: World, b: Log, a: Log, elapsed: int, r: Result) {
    && b.lookups <= a.lookups && (forall j | b.lookups <= j < a.lookups - 1 :: !Decisive(w.read(j)))
    && var m := b.(lookups := a.lookups);
       if b.lookups < a.lookups && Decisive(w.read(a.lookups - 1)) then Answered(c, w, m, a, w.read(a.lookups - 1), r)
       else a == m && r == Nothing().(inProgress := true) && elapsed >= c.timeout
  }

  /** One claim: won, and then an acquisition follows, or lost, and then a poll loop. */
  predicate Claimed(c: Config, w: World, b: Log, a: Log, elapsed: int, r: Result) {
    if w.claim(b.claims) then Acquired(c, w, b.(claims := b.claims + 1, won := b.won + 1), a, r)
    else Waited(c, w, b.(claims := b.claims + 1), a, elapsed, r)
  }

  /** The log after a send loop whose file id was rejected, when a recovery starts. */
  function RejectedAt(c: Config, w: World, b: Log, file: string): Log {
    b.(sends := b.sends + Sends(c, w, b.sends), lastFile := file, invalidated := b.invalidated + 1,
       recoveries := b.recoveries + 1)
  }

  /** A cached delivery that may recover: a send loop, and one claim after it exactly if the file id was rejected. */
  predicate Recovered(c: Config, w: World, b: Log, a: Log, elapsed: int, file: string, r: Result) {
    if Ends(c, w, b.sends) == Rejected then Claimed(c, w, RejectedAt(c, w, b, file), a, elapsed, r)
    else SendsFile(c, w, b, a, file, r)
  }

  /** What a delivery may do at most; every claim won is marked, and one file is received exactly if it reports so. */
  predicate Did(c: Config, b: Log, a: Log, r: Result, deliveries: nat, acquisitions: nat, recoveries: nat) {
    && b.sends <= a.sends <= b.sends + deliveries * MaxSends(c, 0, 0)
    && b.downloads <= a.downloads <= b.downloads + acquisitions
    && b.uploads <= a.uploads <= b.uploads + (a.downloads - b.downloads)
    && a.won - b.won == a.marks - b.marks == a.downloads - b.downloads
    && b.recoveries <= a.recoveries <= b.recoveries + recoveries
    && a.received == b.received + (if r.delivered then 1 else 0)
  }

  /** A claim and what follows it: one send budget, and one download exactly if it was won. */
  lemma {:induction false} ClaimedDid(c: Config, w: World, b: Log, a: Log, elapsed: int, r: Result)
    requires Claimed(c, w, b, a, elapsed, r)
    ensures Did(c, b, a, r, 1, 1, 0) && a.claims == b.claims + 1 && a.recoveries == b.recoveries
    ensures a.downloads == b.downloads + (if w.claim(b.claims) then 1 else 0)
    ensures r.inProgress ==> !w.claim(b.claims) && elapsed >= c.timeout && a.sends == b.sends
  {
    if w.claim(b.claims) {
      AcquiredDid(c, w, b.(claims := b.claims + 1, won := b.won + 1), a, r);
    } else {
      SendsAreBounded(c, w.send, b.sends, 0, 0);
    }
  }

  /** A recovery starts, and a claim is made, exactly if the file id was rejected; at least one send is made. */
  lemma {:induction false} RecoveredDid(
      c: Config, w: World, b: Log, a: Log, elapsed: int, file: string, r: Result)
    requires Recovered(c, w, b, a, elapsed, file, r)
    ensures Did(c, b, a, r, 2, 1, 1) && a.sends > b.sends
    ensures var again := if Ends(c, w, b.sends) == Rejected then 1 else 0;
            a.recoveries == b.recoveries + again && a.claims == b.claims + again
    ensures Ends(c, w, b.sends) == Delivered ==> r == Nothing().(delivered := true) && a.downloads == b.downloads
  {
    SendsAreBounded(c, w.send, b.sends, 0, 0);
    if Ends(c, w, b.sends) == Rejected {
      ClaimedDid(c, w, RejectedAt(c, w, b, file), a, elapsed, r);
    }
  }

  lemma {:induction false} AcquiredDid(c: Config, w: World, b: Log, a: Log, r: Result)
    requires Acquired(c, w, b, a, r)
    ensures b.sends <= a.sends <= b.sends + MaxSends(c, 0, 0) && b.uploads <= a.uploads <= b.uploads + 1
    ensures a.downloads == b.downloads + 1 && a.marks == b.marks + 1 && a.won == b.won && a.claims == b.claims
    ensures a.recoveries == b.recoveries && a.received == b.received + (if r.delivered then 1 else 0) && !r.inProgress
  {
    SendsAreBounded(c, w.send, b.sends, 0, 0);
  }

  class AttachmentService {
    const config: Config
    const world: World
    var now: nat
    var clocks: nat
    var log: Log

    constructor (config: Config, world: World)
      ensures this.config == config && this.world == world
    {
      this.config, this.world := config, world;
      now, clocks, log := 0, 0, Log(0, 0, 0, 0, 0, 0, 0, 0, 0, 0, "", Lease.Absent);
    }

    method Clock() returns (t: nat)
      modifies `now, `clocks
      ensures t == now >= old(now)
    {
      now, clocks := now + world.lag(clocks), clocks + 1;
      t := now;
    }

    method ReadCache() returns (s: Snapshot)
      modifies `log
      ensures s == world.read(old(log.lookups)) && log == old(log).(lookups := old(log.lookups) + 1)
    {
      s := world.read(log.lookups);
      log := log.(lookups := log.lookups + 1);
    }

    /** The send loop without a `recover` callback: exactly the sends of `SendLoop`. */
    method SendCached(fileId: string) returns (ending: Ending)
      modifies `log
      ensures ending == Ends(config, world, old(log.sends))
      ensures log == old(log).(sends := old(log.sends) + Sends(config, world, old(log.sends)), lastFile := fileId,
                               received := old(log.received) + (if ending == Delivered then 1 else 0))
    {
      var genericAttempt, floodRetries := 0, 0;
      ghost var total := SendLoop(config, world.send, log.sends, 0, 0);
      log := log.(lastFile := fileId);
      while true
        invariant 0 <= log.sends - old(log.sends) <= total.retried && floodRetries <= config.floodMax
        invariant genericAttempt == 0 || genericAttempt < config.deliveryMax
        invariant SendLoop(config, world.send, log.sends, genericAttempt, floodRetries) ==
            total.(retried := total.retried - (log.sends - old(log.sends)))
        invariant log == old(log).(sends := log.sends, lastFile := fileId)
        decreases MaxSends(config, genericAttempt, floodRetries)
      {
        var outcome := world.send(log.sends);
        log := log.(sends := log.sends + 1);
        match outcome {
          case Sent =>
            log := log.(received := log.received + 1);
            return Delivered;
          case Flood =>
            if floodRetries >= config.floodMax { return Limited; }
            floodRetries := floodRetries + 1;
          case Forbidden => return Blocked;
          case BadFileId => return Rejected;
          case BadRequest => return Refused;
          case OtherError =>
            genericAttempt := genericAttempt + 1;
            if genericAttempt >= config.deliveryMax { return GaveUp; }
        }
      }
    }

    /** A send loop over the file id, and, exactly if the id was rejected and may be recovered, one claim after it. */
    method DeliverCached(fileId: string, recover: bool) returns (r: Result)
      requires config.interval > 0
      modifies this
      ensures now >= old(now)
      ensures if recover then Recovered(config, world, old(log), log, now - old(now), fileId, r)
              else SendsFile(config, world, old(log), log, fileId, r)
      decreases if recover then 2 else 0, 0
    {
      var ending := SendCached(fileId);
      match ending {
        case Delivered => r := Nothing().(delivered := true);
        case Rejected =>
          log := log.(invalidated := log.invalidated + 1);
          if recover {
            log := log.(recoveries := log.recoveries + 1);
            ghost var m := log;
            assert m == RejectedAt(config, world, old(log), fileId);
            r := ClaimOrWaitAndDeliver();
          } else {
            r := Nothing();
          }
        case _ => r := Nothing();
      }
    }

    method ClaimOrWaitAndDeliver() returns (r: Result)
      requires config.interval > 0
      modifies this
      ensures now >= old(now) && Claimed(config, world, old(log), log, now - old(now), r)
      decreases 1, 1
    {
      var claimed := world.claim(log.claims);
      log := log.(claims := log.claims + 1);
      if claimed {
        log := log.(won := log.won + 1);
        r := AcquireAndDeliver();
      } else {
        r := WaitAndDeliver();
      }
    }

    method Mark(outcome: Lease.Outcome)
      modifies `log
      ensures log == MarkedAs(old(log), outcome)
    {
      log := log.(marks := log.marks + 1, lastMark := outcome);
    }

    /** Download, upload, mark, deliver: exactly one mark for the claim, whichever step fails. */
    method AcquireAndDeliver() returns (r: Result)
      requires config.interval > 0
      modifies this
      ensures now >= old(now) && Acquired(config, world, old(log), log, r)
      decreases 1, 0
    {
      var download := world.download(log.downloads);
      log := log.(downloads := log.downloads + 1);
      if download == DownloadFailed {
        Mark(Lease.Failed(world.attempts(log.marks) >= config.permanentAfter));
        return Nothing();
      }
      if download == NoBytes {
        Mark(Lease.Absent);
        return Nothing().(notAvailable := true);
      }
      var upload := world.upload(log.uploads);
      log := log.(uploads := log.uploads + 1);
      if upload == UploadFailed {
        Mark(Lease.Failed(world.attempts(log.marks) >= config.permanentAfter));
        return Nothing();
      }
      Mark(Lease.Uploaded(upload.fileId));
      if upload.ToUser? {
        log := log.(received := log.received + 1);
        return Nothing().(delivered := true);
      }
      r := DeliverCached(upload.fileId, false);
    }

    /** The reading of a poll that ends the loop. */
    method AnswerTo(s: Snapshot) returns (r: Result)
      requires config.interval > 0 && Decisive(s)
      modifies this
      ensures now >= old(now) && Answered(config, world, old(log), log, s, r)
      decreases 0, 1
    {
      if s.status == Lease.Available {
        r := DeliverCached(s.fileId.value, false);
      } else if s.status == Lease.NotAvailable {
        r := Nothing().(notAvailable := true);
      } else {
        r := Nothing().(permanent := s.status == Lease.Permanent);
      }
    }

    /** Poll at once and then every `interval`, until the deadline. Every round but the first moves the clock by the
        interval, so the loop ends: all reads but the last were made before the deadline. */
    method WaitAndDeliver() returns (r: Result)
      requires config.interval > 0
      modifies this
      ensures now >= old(now) && Waited(config, world, old(log), log, now - old(now), r)
      ensures log.lookups == old(log.lookups)
              || Delay(log.lookups - old(log.lookups) - 1, config.interval) < config.timeout
      decreases 1, 0
    {
      var t := Clock();
      ghost var begun := now;
      var deadline := t + config.timeout;
      var pollDelay := 0;
      t := Clock();
      while t < deadline
        invariant t == now >= begun >= old(now) && deadline == begun + config.timeout
        invariant log.lookups >= old(log.lookups) && log == old(log).(lookups := log.lookups)
        invariant pollDelay == if log.lookups == old(log.lookups) then 0 else config.interval
        invariant now >= begun + Delay(log.lookups - old(log.lookups), config.interval)
        invariant log.lookups == old(log.lookups)
                  || Delay(log.lookups - old(log.lookups) - 1, config.interval) < config.timeout
        invariant forall j | old(log.lookups) <= j < log.lookups :: !Decisive(world.read(j))
        decreases deadline - t, config.interval - pollDelay
      {
        now := now + pollDelay;
        pollDelay := config.interval;
        var s := ReadCache();
        if Decisive(s) {
          r := AnswerTo(s);
          return;
        }
        t := Clock();
      }
      return Nothing().(inProgress := true);
    }

    /** The whole delivery. The row read first decides: a row with its file is sent, and claimed exactly if the file id
        was rejected; a row known to be absent or failed for good is answered at once; any other row is claimed. */
    method Deliver(canonicalPath: string) returns (r: Result)
      requires config.interval > 0
      modifies this
      ensures Did(config, old(log), log, r, 2, 1, 1)
      ensures canonicalPath == "" ==> r == Nothing().(permanent := true) && log == old(log)
      ensures canonicalPath != "" ==>
                var s, b := world.read(old(log.lookups)), old(log).(lookups := old(log.lookups) + 1);
                if s.status == Lease.Available && s.fileId.Some? then
                  var again := if Ends(config, world, b.sends) == Rejected then 1 else 0;
                  && Recovered(config, world, b, log, now - old(now), s.fileId.value, r) && log.sends > b.sends
                  && log.recoveries == b.recoveries + again && log.claims == b.claims + again
                else if s.status == Lease.NotAvailable then log == b && r == Nothing().(notAvailable := true)
                else if s.status == Lease.Permanent then log == b && r == Nothing().(permanent := true)
                else
                  && Claimed(config, world, b, log, now - old(now), r)
                  && log.recoveries == b.recoveries && log.claims == b.claims + 1
    {
      if canonicalPath == "" { return Nothing().(permanent := true); }
      var s := ReadCache();
      ghost var b := log;
      if s.status == Lease.Available && s.fileId.Some? {
        r := DeliverCached(s.fileId.value, true);
        RecoveredDid(config, world, b, log, now - old(now), s.fileId.value, r);
        return;
      }
      if s.status == Lease.NotAvailable { return Nothing().(notAvailable := true); }
      if s.status == Lease.Permanent { return Nothing().(permanent := true); }
      r := ClaimOrWaitAndDeliver();
      ClaimedDid(config, world, b, log, now - old(now), r);
    }
  }

  /** The delays a poll loop has asked for by its n-th read. */
  function Delay(n: nat, interval: nat): nat { if n <= 1 then 0 else Delay(n - 1, interval) + interval }

  /** In closed form: a poll loop makes at most timeout / interval + 2 reads. */
  lemma {:induction false} PollsAreBounded(n: nat, interval: nat, timeout: nat)
    requires n > 0 && interval > 0 && Delay(n - 1, interval) < timeout
    ensures n <= timeout / interval + 2
  {
    if n > 2 {
      DelayIs(n - 1, interval);
      assert (n - 2) * interval < timeout;
      Divided(n - 2, interval, timeout);
    }
  }

  lemma {:induction false} DelayIs(n: nat, interval: nat)
    requires n > 0
    ensures Delay(n, interval) == (n - 1) * interval
  {
    if n > 1 {
      DelayIs(n - 1, interval);
      assert (n - 2) * interval + interval == (n - 1) * interval;
    }
  }

  lemma {:induction false} Divided(q: nat, d: nat, x: nat)
    requires d > 0 && q * d <= x
    ensures q <= x / d
  {
    var r := x / d;
    assert x == d * r + x % d;
    assert (r + 1) * d == d * r + d;
    Cancel(q, r + 1, d);
  }

  lemma {:induction false} Cancel(a: nat, b: nat, d: nat)
    requires d > 0 && a * d < b * d
    ensures a < b
  {
  }
}
