/** One question-paper delivery of a service that serves nobody else meanwhile.

    A recovery runs inside the delivery semaphore, and the delivery after an acquisition inside the acquisition
    semaphore, so a request keeps a permit for every level it is nested. The delivery after an acquisition forgets who
    asked: a recovery below it cannot download. `Stuck` is a request that awaits a permit only it could give back. */
module Papers {

  /** `deliveryMax` sends per cached delivery; from the `losses`-th claim on, no rival wins. */
  datatype Config = Config(deliveryMax: nat, losses: nat)

  datatype SendOutcome = Sent | Flood | Forbidden | BadFileId | AccountGone | OtherError

  /** What the download and the upload of a known requester give. Missing credentials leave the claimed row as it is. */
  datatype Acquisition = ToStorage | ToUser | NoPaper | NoCredentials | AcquisitionFailed(permanent: bool)

  /** The last reading of a poll loop. */
  datatype Reading = Available | NotAvailable | Permanent | Retryable | Vanished | StillInProgress

  /** The outcome of the k-th send, claim, acquisition and poll loop; and whether the attempts stored at the k-th
      acquisition exhaust the budget. */
  datatype World = World(send: nat -> SendOutcome, claim: nat -> bool, acquire: nat -> Acquisition,
                         exhausted: nat -> bool, wait: nat -> Reading)

  datatype End = Delivered | Unavailable | PermanentlyFailed | InProgress | Error | Stuck

  datatype SendEnd = WasSent | WasRejected | GaveUp

  function One(b: bool): nat { if b then 1 else 0 }

  function Max(a: nat, b: nat): nat { if a < b then b else a }

  /** How an acquisition ends that raised an error. */
  function FailedEnd(permanent: bool): End { if permanent then PermanentlyFailed else Error }

  /** Every file id is rejected, every download stored, every rival's paper available; rivals win the first n claims. */
  ghost predicate AlwaysRejected(w: World, n: nat) {
    forall k: nat ::
      w.send(k) == BadFileId && (w.claim(k) <==> n <= k) && w.acquire(k) == ToStorage && w.wait(k) == Available
  }

  /** The request starts with a claim. */
  predicate Claimable(status: Reading, hasFile: bool) {
    (status == Available && !hasFile) || status == Retryable || status == StillInProgress
  }

  predicate Retried(outcome: SendOutcome) { outcome == Flood || outcome == OtherError }

  /** How many sends follow, the k-th being the next: floods and other errors are retried while there are attempts. */
  function Attempts(c: Config, send: nat -> SendOutcome, k: nat, attempt: nat): nat
    decreases c.deliveryMax - attempt
  {
    if attempt >= c.deliveryMax then 0
    else if Retried(send(k)) then 1 + Attempts(c, send, k + 1, attempt + 1)
    else 1
  }

  /** Every attempt but the last was a flood or another error, and the last is of another kind or uses up the budget. */
  lemma {:induction false} AttemptsAre(c: Config, send: nat -> SendOutcome, k: nat, attempt: nat)
    requires attempt < c.deliveryMax
    ensures 1 <= Attempts(c, send, k, attempt) <= c.deliveryMax - attempt
    ensures forall j | k <= j < k + Attempts(c, send, k, attempt) - 1 :: send(j) == Flood || send(j) == OtherError
    ensures var last := send(k + Attempts(c, send, k, attempt) - 1);
            last == Flood || last == OtherError ==> Attempts(c, send, k, attempt) == c.deliveryMax - attempt
    decreases c.deliveryMax - attempt
  {
    if Retried(send(k)) && attempt + 1 < c.deliveryMax {
      AttemptsAre(c, send, k + 1, attempt + 1);
    }
  }

  class QPaperService {
    const config: Config
    const world: World
    /** Free permits of the two semaphores. */
    var deliveryPermits: nat
    var acquirePermits: nat
    var sends: nat
    var claims: nat
    var acquisitions: nat
    var waits: nat
    /** Portal downloads attempted, file ids rejected, files the user received, claims won and lost, marks made, and
        claims left unmarked because the requester had no usable credentials. */
    ghost var downloads: nat
    ghost var rejected: nat
    ghost var received: nat
    ghost var won: nat
    ghost var lost: nat
    ghost var marked: nat
    ghost var abandoned: nat

    constructor (config: Config, world: World, deliveryPermits: nat, acquirePermits: nat)
      ensures this.config == config && this.world == world
      ensures this.deliveryPermits == deliveryPermits && this.acquirePermits == acquirePermits
    {
      this.config, this.world := config, world;
      this.deliveryPermits, this.acquirePermits := deliveryPermits, acquirePermits;
      sends, claims, acquisitions, waits := 0, 0, 0, 0;
      downloads, rejected, received, won, lost, marked, abandoned := 0, 0, 0, 0, 0, 0, 0;
    }

    ghost predicate RivalsGiveUp()
    {
      forall k: nat | config.losses <= k :: world.claim(k)
    }

    /** Every file id is rejected, and a rejected file id is not retried: at least one send is attempted. */
    ghost predicate Rejecting()
    {
      AlwaysRejected(world, config.losses) && config.deliveryMax > 0
    }

    /** The claims that rivals will still win. */
    ghost function ToLose(): nat
      reads `claims
    {
      if claims < config.losses then config.losses - claims else 0
    }

    /** What a call may have done, at `depth` nested deliveries at most: every permit is back unless it is stuck; every
        delivery kept its send budget and rejected one file id at most; a known requester downloads once at most, and
        an unknown one not at all; the user received one file exactly if the call reports so; and every claim won is
        marked or abandoned, but for one if it is stuck. `entered` claims were counted just before the call. */
    twostate predicate Did(end: End, depth: nat, requester: bool, entered: nat)
      reads this
    {
      && (end != Stuck ==> deliveryPermits == old(deliveryPermits) && acquirePermits == old(acquirePermits))
      && old(sends) <= sends <= old(sends) + depth * Max(1, config.deliveryMax)
      && old(rejected) <= rejected <= old(rejected) + depth
      && old(downloads) <= downloads <= old(downloads) + One(requester)
      && received == old(received) + One(end == Delivered)
      && entered + claims - old(claims) == (won - old(won)) + (lost - old(lost))
      && old(lost) <= lost && old(won) <= won
      && old(claims) <= claims && old(abandoned) <= abandoned && old(marked) <= marked
      && 0 <= (won - old(won)) - (marked - old(marked)) - (abandoned - old(abandoned)) <= One(end == Stuck)
    }

    /** The attempts of one cached delivery; the last of them decides. */
    method SendAttempts() returns (end: SendEnd)
      modifies `sends, `rejected, `received
      ensures sends == old(sends) + Attempts(config, world.send, old(sends), 0) <= old(sends) + config.deliveryMax
      ensures rejected == old(rejected) + One(end == WasRejected)
      ensures received == old(received) + One(end == WasSent)
      ensures config.deliveryMax == 0 ==> sends == old(sends) && end == GaveUp
      ensures config.deliveryMax > 0 ==>
                && sends > old(sends) && (end == WasSent <==> world.send(sends - 1) == Sent)
                && (end == WasRejected <==> world.send(sends - 1) == BadFileId)
    {
      for attempt := 0 to config.deliveryMax
        invariant sends == old(sends) + attempt && rejected == old(rejected) && received == old(received)
        invariant attempt > 0 ==> Retried(world.send(sends - 1))
        invariant Attempts(config, world.send, old(sends), 0) ==
            attempt + Attempts(config, world.send, sends, attempt)
      {
        var outcome := world.send(sends);
        sends := sends + 1;
        match outcome {
          case Sent =>
            received := received + 1;
            return WasSent;
          case BadFileId =>
            rejected := rejected + 1;
            return WasRejected;
          case Forbidden => return GaveUp;
          case AccountGone => return GaveUp;
          case Flood => if attempt + 1 >= config.deliveryMax { return GaveUp; }
          case OtherError => if attempt + 1 >= config.deliveryMax { return GaveUp; }
        }
      }
      return GaveUp;
    }

    /** A cached delivery that got its permit, by the last of its sends: a delivery, a claim, or an error. */
    twostate predicate SentAs(end: End)
      reads this
    {
      var n := Attempts(config, world.send, old(sends), 0);
      if n > 0 && world.send(old(sends) + n - 1) == BadFileId then claims > old(claims)
      else
        && claims == old(claims) && sends == old(sends) + n
        && end == if n > 0 && world.send(old(sends) + n - 1) == Sent then Delivered else Error
    }

    /** A delivery that is stuck has used up its delivery permits through lost claims, but for one level that a known
        requester reaches by its own acquisition, or it lacks the acquisition permits of a recovery: two for a known
        requester, one for an unknown one. If every file id is rejected, it is stuck exactly if the delivery permits
        are no more than the claims it will lose and that level, or the acquisition permits too few; otherwise it
        gives up after one rejection for each level. */
    method DeliverCached(requester: bool) returns (end: End)
      requires RivalsGiveUp()
      modifies this
      ensures Did(end, old(deliveryPermits), requester, 0)
      ensures if old(deliveryPermits) == 0 then end == Stuck && claims == old(claims) && sends == old(sends)
              else SentAs(end)
      ensures end == Stuck ==>
                old(deliveryPermits) <= lost - old(lost) + One(requester) || old(acquirePermits) <= One(requester)
      ensures Rejecting() ==>
                && (end == Stuck <==>
                      old(deliveryPermits) <= old(ToLose()) + One(requester) || old(acquirePermits) <= One(requester))
                && (end != Stuck ==> rejected == old(rejected) + 1 + old(ToLose()) + One(requester))
                && end in {PermanentlyFailed, Error, Stuck}
      decreases deliveryPermits, 0, 0
    {
      if deliveryPermits == 0 { return Stuck; }
      deliveryPermits := deliveryPermits - 1;
      var sent := SendAttempts();
      match sent {
        case WasSent => end := Delivered;
        case GaveUp => end := Error;
        case WasRejected => end := ClaimOrWaitAndDeliver(requester);
      }
      OneMoreLevel(old(deliveryPermits) - 1, Max(1, config.deliveryMax));
      if end != Stuck {
        deliveryPermits := deliveryPermits + 1;
      }
    }

    /** The same for a recovery, or a cold request: it starts one level below a cached delivery. */
    method ClaimOrWaitAndDeliver(requester: bool) returns (end: End)
      requires RivalsGiveUp()
      modifies this
      ensures Did(end, old(deliveryPermits), requester, 0) && claims > old(claims)
      ensures end == Stuck ==>
                old(deliveryPermits) + 1 <= lost - old(lost) + One(requester) || old(acquirePermits) <= One(requester)
      ensures Rejecting() ==>
                && (end == Stuck <==>
                      || old(deliveryPermits) + 1 <= old(ToLose()) + One(requester)
                      || old(acquirePermits) <= One(requester))
                && (end != Stuck ==> rejected == old(rejected) + old(ToLose()) + One(requester))
                && end in {PermanentlyFailed, Error, Stuck}
      decreases deliveryPermits, ToLose(), 3
    {
      var claimed := world.claim(claims);
      claims := claims + 1;
      if claimed {
        end := AcquireAndDeliver(requester);
      } else {
        lost := lost + 1;
        end := WaitAndDeliver(requester);
      }
    }

    /** An acquisition without a requester takes its permit, fails and marks. */
    method AcquireAndDeliver(requester: bool) returns (end: End)
      requires RivalsGiveUp()
      modifies this
      ensures Did(end, old(deliveryPermits), requester, 1)
      ensures old(acquirePermits) == 0 ==> end == Stuck && Did(end, 0, false, 1)
      ensures old(acquirePermits) > 0 && !requester ==>
                && end == FailedEnd(world.exhausted(old(acquisitions))) && marked == old(marked) + 1
                && Did(end, 0, false, 1)
      ensures old(acquirePermits) > 0 && requester ==> EndsAsAcquired(end)
      ensures end == Stuck ==>
                old(deliveryPermits) + 1 <= lost - old(lost) + One(requester) || old(acquirePermits) <= One(requester)
      ensures Rejecting() && config.losses <= old(claims) ==>
                && (end == Stuck <==>
                      old(deliveryPermits) + 1 <= One(requester) || old(acquirePermits) <= One(requester))
                && (end != Stuck ==> rejected == old(rejected) + One(requester))
                && end in {PermanentlyFailed, Error, Stuck}
      decreases deliveryPermits, 0, 2
    {
      if acquirePermits == 0 {
        won := won + 1;
        return Stuck;
      }
      acquirePermits := acquirePermits - 1;
      if requester {
        end := DownloadAndDeliver();
      } else {
        end := FailedEnd(world.exhausted(acquisitions));
        acquisitions, won, marked := acquisitions + 1, won + 1, marked + 1;
      }
      if end != Stuck {
        acquirePermits := acquirePermits + 1;
      }
    }

    /** What the next acquisition of a known requester ends with, and the mark it makes. */
    twostate predicate EndsAsAcquired(end: End)
      reads this
    {
      var k := old(acquisitions);
      match world.acquire(k)
      case ToStorage => marked > old(marked)
      case ToUser => end == Delivered && marked == old(marked) + 1
      case NoPaper => end == Unavailable && marked == old(marked) + 1
      case NoCredentials => end == Error && marked == old(marked) && abandoned == old(abandoned) + 1
      case AcquisitionFailed(permanent) =>
        end == FailedEnd(permanent || world.exhausted(k)) && marked == old(marked) + 1
    }

    /** Inside the acquisition semaphore, with a known requester. The delivery after an upload to the storage channel
        has no requester any more. */
    method DownloadAndDeliver() returns (end: End)
      requires RivalsGiveUp()
      modifies this
      ensures Did(end, old(deliveryPermits), true, 1) && EndsAsAcquired(end)
      ensures end == Stuck ==> old(deliveryPermits) <= lost - old(lost) || old(acquirePermits) == 0
      ensures Rejecting() && config.losses <= old(claims) ==>
                && (end == Stuck <==> old(deliveryPermits) == 0 || old(acquirePermits) == 0)
                && (end != Stuck ==> rejected == old(rejected) + 1)
                && end in {PermanentlyFailed, Error, Stuck}
      decreases deliveryPermits, 0, 1
    {
      var k := acquisitions;
      assert deliveryPermits * Max(1, config.deliveryMax) >= 0;
      acquisitions, won := acquisitions + 1, won + 1;
      var outcome := world.acquire(k);
      if outcome == NoCredentials {
        abandoned := abandoned + 1;
        return Error;
      }
      downloads, marked := downloads + 1, marked + 1;
      match outcome {
        case ToStorage => end := DeliverCached(false);
        case ToUser =>
          received := received + 1;
          end := Delivered;
        case NoPaper => end := Unavailable;
        case AcquisitionFailed(permanent) => end := FailedEnd(permanent || world.exhausted(k));
      }
    }

    /** The end of a poll loop: what appeared is delivered, a failed rival is challenged again, and every other reading
        is the answer. The requester is kept. */
    method WaitAndDeliver(requester: bool) returns (end: End)
      requires RivalsGiveUp() && 0 < claims <= config.losses
      modifies this
      ensures Did(end, old(deliveryPermits), requester, 0)
      ensures var reading := world.wait(old(waits));
              && (reading.NotAvailable? ==> end == Unavailable) && (reading.Permanent? ==> end == PermanentlyFailed)
              && (reading.Vanished? ==> end == Error) && (reading.StillInProgress? ==> end == InProgress)
              && (!reading.Available? && !reading.Retryable? ==> Did(end, 0, false, 0) && claims == old(claims))
              && (reading.Available? ==> if old(deliveryPermits) == 0 then end == Stuck && claims == old(claims)
                                         else SentAs(end))
              && (reading.Retryable? ==> claims > old(claims))
      ensures end == Stuck ==>
                old(deliveryPermits) <= lost - old(lost) + One(requester) || old(acquirePermits) <= One(requester)
      ensures Rejecting() ==>
                && (end == Stuck <==>
                      old(deliveryPermits) <= old(ToLose()) + One(requester) || old(acquirePermits) <= One(requester))
                && (end != Stuck ==> rejected == old(rejected) + 1 + old(ToLose()) + One(requester))
                && end in {PermanentlyFailed, Error, Stuck}
      decreases deliveryPermits, ToLose(), 4
    {
      var reading := world.wait(waits);
      waits := waits + 1;
      match reading {
        case Available => end := DeliverCached(requester);
        case Retryable => end := ClaimOrWaitAndDeliver(requester);
        case NotAvailable => end := Unavailable;
        case Permanent => end := PermanentlyFailed;
        case Vanished => end := Error;
        case StillInProgress => end := InProgress;
      }
    }

    /** The whole delivery, by the status read first. */
    method Deliver(status: Reading, hasFile: bool, requester: bool) returns (end: End)
      requires RivalsGiveUp()
      modifies this
      ensures Did(end, old(deliveryPermits), requester, 0)
      ensures status == NotAvailable ==> end == Unavailable && Did(end, 0, false, 0) && claims == old(claims)
      ensures status == Permanent ==> end == PermanentlyFailed && Did(end, 0, false, 0) && claims == old(claims)
      ensures status == Vanished ==> end == Error && Did(end, 0, false, 0) && claims == old(claims)
      ensures status == Available && hasFile ==> if old(deliveryPermits) == 0 then end == Stuck else SentAs(end)
      ensures Claimable(status, hasFile) ==> claims > old(claims)
      ensures end == Stuck ==>
                old(deliveryPermits) <= lost - old(lost) + One(requester) || old(acquirePermits) <= One(requester)
      ensures Rejecting() && ((status == Available && hasFile) || Claimable(status, hasFile)) ==>
                && (end == Stuck <==>
                      || old(deliveryPermits) + One(Claimable(status, hasFile)) <= old(ToLose()) + One(requester)
                      || old(acquirePermits) <= One(requester))
                && end in {PermanentlyFailed, Error, Stuck}
    {
      if status == Vanished {
        end := Error;
      } else if status == Available && hasFile {
        end := DeliverCached(requester);
      } else if status == NotAvailable {
        end := Unavailable;
      } else if status == Permanent {
        end := PermanentlyFailed;
      } else {
        end := ClaimOrWaitAndDeliver(requester);
      }
    }
  }

  lemma {:induction false} OneMoreLevel(depth: nat, budget: nat)
    ensures (depth + 1) * budget == depth * budget + budget
  {
  }
}
