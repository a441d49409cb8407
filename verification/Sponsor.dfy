/** The gasless sponsor as a machine: submissions reserved under caps, run once
    each through leased channels, and settled by the submitter or the resolver.

    Assumptions built into the steps: ERROR and TRY_AGAIN_LATER leave a
    transaction unqueued; RPC answers are truthful. */
module Sponsor {
  import opened Common
  import opened Ledger
  import opened FeeBump
  import opened SponsorTable

  /** How long after its last write to the record a submitter may write the hash of
      a transaction: its first within `preparing`, a further one within `sending`.
      staleAfter is when the resolver takes a record up; covers says that the range
      RPC answers from always covers the transaction looked up. */
  datatype Config = Config(
    validity: nat, ledgerTime: nat, staleAfter: nat, preparing: nat, sending: nat, covers: bool,
    cap: nat, leases: nat, feeRetries: nat, tryAgain: nat, limits: Limits)
  {
    predicate Positive() { CapFits(cap) && limits.Positive() }

    /** No hash is written to a record that may have been listed. */
    predicate Patient() { preparing <= staleAfter && sending <= staleAfter }
  }

  /** The constants of the code, in milliseconds. A submitter waits for a channel
      before each hash, and between two hashes it may sleep through five resends;
      `before` and `between` are the time its calls take beside that. */
  function Deployed(cap: nat, limits: Limits, before: nat, between: nat): Config {
    var ledgerTime, pollTimeout, leaseWait := 5_000, 60_000, 10_000;
    var preparing, sending := leaseWait + before, 5 * ledgerTime + leaseWait + between;
    Config(120_000, ledgerTime, pollTimeout + 30_000, preparing, sending, true, cap, 3, 2, 5, limits)
  }

  /** How an attempt was rejected by sendTransaction, TRY_AGAIN_LATER included. */
  datatype SendReply = Queued | TryLater | BadSeq | FeeTooLow | Refused | Broken(reached: bool)

  datatype PollReply = SeenOk(charged: Option<nat>) | SeenFailed(charged: Option<nat>) | Unseen

  datatype Phase =
    | Stopped
    | Leasing(inclusion: nat, lease: nat)
    | Sealing(inclusion: nat, lease: nat, bump: nat, source: string, sequence: int, until: int)
    | Sending(inclusion: nat, lease: nat, bump: nat, tx: Tx, tries: nat)
    | Polling(tx: Tx)
    | Finishing(outcome: Outcome)

  /** One request: its record, the submitter's progress, when the submitter last
      wrote the record, the record as resolvers have listed it, and the outcomes
      they have decided on from that. */
  datatype Slot = Slot(
    rec: Rec, call: string, resource: nat, phase: Phase, beat: int, listed: set<Rec>, decided: set<Outcome>)
  {
    /** The latest moment at which the submitter, if it lives, writes its next hash. */
    function Deadline(cfg: Config): int { beat + if rec.hash.None? then cfg.preparing else cfg.sending }
  }

  datatype State = State(now: int, chain: Chain, slots: seq<Slot>)

  const INITIAL: State := State(0, EMPTY_CHAIN, [])

  function Records(slots: seq<Slot>): (t: Table)
    ensures |t| == |slots| && forall i :: 0 <= i < |t| ==> t[i] == slots[i].rec
  {
    seq(|slots|, i requires 0 <= i < |slots| => slots[i].rec)
  }

  const REJECTED: Outcome := Outcome(Rejected, None, None)

  datatype Action =
    | Lease(source: string, sequence: int, until: int) | NoLease
    | Seal(fate: Fate)
    | Send(reply: SendReply) | Cancel
    | Poll(seen: PollReply)
    | Finish(fate: Fate)

  /** One call by the submitter: attempt, send, poll and finish. */
  ghost function Submit(cfg: Config, now: int, c: Chain, s: Slot, a: Action): Option<(Slot, Chain)> {
    match (s.phase, a)
    case (Leasing(inclusion, lease), NoLease) => Some((s.(phase := Finishing(REJECTED)), c))
    case (Leasing(inclusion, lease), Lease(source, sequence, until)) =>
      if until > now + cfg.validity then None
        else Some((s.(phase := Sealing(inclusion, lease, 0, source, sequence, until)), c))
    case (Sealing(inclusion, lease, bump, source, sequence, until), Seal(fate)) =>
      var bid := BidOf(inclusion, s.resource);
      if bid.None? then Some((s.(phase := Finishing(REJECTED)), c))
      else
        var tx := Tx(Invoke(s.call), source, sequence, bid.value, until);
        var wrote := if fate.Applied() then s.(rec := Hashed(s.rec, tx, now), beat := now) else s;
        Some((wrote.(phase := if fate == Kept then Sending(inclusion, lease, bump, tx, 0) else Finishing(REJECTED)), c))
    case (Sending(inclusion, lease, bump, tx, tries), Cancel) =>
      if tries == 0 then None else Some((s.(phase := Finishing(REJECTED)), c))
    case (Sending(inclusion, lease, bump, tx, tries), Send(reply)) =>
      (match reply
       case Queued => Some((s.(phase := Polling(tx)), Accept(c, tx, s.rec.id)))
       case Broken(reached) =>
         Some((s.(phase := Finishing(Outcome(Unconfirmed, Some(tx), None))), if reached then Accept(c, tx, s.rec.id)
           else c))
       case TryLater =>
         Some((s.(phase := if tries < cfg.tryAgain then Sending(inclusion, lease, bump, tx, tries + 1)
           else Finishing(REJECTED)), c))
       case BadSeq =>
         Some((s.(phase := if lease + 1 < cfg.leases then Leasing(inclusion, lease + 1) else Finishing(REJECTED)), c))
       case FeeTooLow =>
         Some((s.(phase := if bump < cfg.feeRetries && inclusion * 2 <= cfg.cap
                           then Sealing(inclusion * 2, lease, bump + 1, tx.source, tx.sequence, tx.maxTime)
                           else Finishing(REJECTED)), c))
       case Refused => Some((s.(phase := Finishing(REJECTED)), c)))
    case (Polling(tx), Poll(seen)) =>
      (match seen
       case SeenOk(charged) =>
         if !LandedAs(c, tx, true, charged) then None
           else Some((s.(phase := Finishing(Outcome(Success, Some(tx), charged))), c))
       case SeenFailed(charged) =>
         if !LandedAs(c, tx, false, charged) then None
           else Some((s.(phase := Finishing(Outcome(Failed, Some(tx), charged))), c))
       case Unseen => Some((s.(phase := Finishing(Outcome(Unconfirmed, Some(tx), None))), c)))
    case (Finishing(outcome), Finish(fate)) =>
      Some(((if fate.Applied() then s.(rec := Finished(s.rec, outcome, now), beat := now) else s).(phase := Stopped),
        c))
    case _ => None
  }

  /** The call commits a SetHash. */
  predicate Hashes(s: Slot, a: Action) {
    s.phase.Sealing? && a.Seal? && a.fate.Applied() && BidOf(s.phase.inclusion, s.resource).Some?
  }

  /** A truthful result: what landed, and the fee it was charged if readable. */
  predicate LandedAs(c: Chain, tx: Tx, ok: bool, charged: Option<nat>) {
    && tx in c.landed && c.landed[tx].ok == ok
    && (charged.Some? ==> charged.value == c.landed[tx].charged)
  }

  datatype Answer = Found(ok: bool, charged: Option<nat>) | NotFound(oldest: int, latest: int) | NoAnswer

  ghost predicate Truthful(cfg: Config, now: int, c: Chain, tx: Tx, a: Answer) {
    match a
    case Found(ok, charged) => LandedAs(c, tx, ok, charged)
    case NotFound(oldest, latest) =>
      && latest <= c.closed && (tx in c.landed ==> !(oldest <= c.landed[tx].at <= latest))
      && (cfg.covers ==>
            oldest <= tx.maxTime - cfg.validity && (now > tx.maxTime + cfg.ledgerTime ==> latest >= tx.maxTime))
    case NoAnswer => true
  }

  /** The resolver's decision on a record as listed; None leaves it for the next
      tick. */
  function Resolve(cfg: Config, now: int, r: Rec, a: Answer): Option<Outcome> {
    if r.hash.None? then Some(REJECTED)
    else match a
      case NoAnswer => None
      case NotFound(_, _) =>
        if now - r.updatedAt > cfg.validity + cfg.ledgerTime then Some(Outcome(Rejected, r.hash, None)) else None
      case Found(ok, charged) => Some(Outcome(if ok then Success else Failed, r.hash, charged))
  }

  datatype Event =
    | Elapse(to: int)
    | CloseLedger(at: int, landings: map<Tx, Landing>)
    | Request(res: Reservation, call: string, resource: nat, p90: Option<int>, at: int)
    | SubmitterDoes(i: nat, action: Action)
    | SubmitterDies(i: nat)
    | List(i: nat)                               // Tick's query returns the record
    | Decide(i: nat, snap: Rec, answer: Answer)  // resolve, on the record as listed
    | Settle(i: nat, outcome: Outcome, fate: Fate)

  /** The next state, or None if the event cannot happen here. */
  ghost function Apply(cfg: Config, s: State, e: Event): Option<State> {
    match e
    case Elapse(to) => if to < s.now then None else Some(s.(now := to))
    case CloseLedger(at, landings) =>
      if !CanClose(cfg.validity, s.chain, at, landings) then None else Some(s.(chain := Close(s.chain, at, landings)))
    case Request(res, call, resource, p90, at) =>
      if res.maxFee != MaxBid(cfg.cap, resource) || at > s.now then None
      else if Judge(Records(s.slots), res, cfg.limits, at) != Created then Some(s)
      else Some(s.(slots := s.slots + [NewSlot(cfg, res, call, resource, p90, at)]))
    case SubmitterDoes(i, action) =>
      if i >= |s.slots| || (Hashes(s.slots[i], action) && s.now > s.slots[i].Deadline(cfg)) then None
      else
        var next := Submit(cfg, s.now, s.chain, s.slots[i], action);
        if next.None? then None else Some(s.(slots := s.slots[i := next.value.0], chain := next.value.1))
    case SubmitterDies(i) =>
      if i >= |s.slots| then None else Some(s.(slots := s.slots[i := s.slots[i].(phase := Stopped)]))
    case List(i) =>
      if i >= |s.slots| || !s.slots[i].rec.InFlight() || !(s.slots[i].rec.updatedAt < s.now - cfg.staleAfter) then None
      else Some(s.(slots := s.slots[i := Listed(s.slots[i])]))
    case Decide(i, snap, answer) =>
      if i >= |s.slots| || snap !in s.slots[i].listed then None
      else if snap.hash.Some? && !Truthful(cfg, s.now, s.chain, snap.hash.value, answer) then None
      else
        var o := Resolve(cfg, s.now, snap, answer);
        Some(if o.None? then s else s.(slots := s.slots[i := Decided(s.slots[i], o.value)]))
    case Settle(i, o, fate) =>
      if i >= |s.slots| || o !in s.slots[i].decided then None
      else Some(if !fate.Applied() then s else s.(slots := s.slots[i := Settled(s.slots[i], o, s.now)]))
  }

  function NewSlot(cfg: Config, res: Reservation, call: string, resource: nat, p90: Option<int>, at: int): Slot {
    Slot(NewRec(res, at), call, resource, Leasing(InclusionFee(p90, cfg.cap), 0), at, {}, {})
  }

  function Listed(s: Slot): Slot { s.(listed := s.listed + {s.rec}) }

  function Decided(s: Slot, o: Outcome): Slot { s.(decided := s.decided + {o}) }

  /** Finish, on the record as it now stands. */
  function Settled(s: Slot, o: Outcome, now: int): Slot { s.(rec := Finished(s.rec, o, now)) }

  ghost function Run(cfg: Config, s: State, events: seq<Event>): Option<State>
    decreases |events|
  {
    if events == [] then Some(s)
    else
      var t := Apply(cfg, s, events[0]);
      if t.None? then None else Run(cfg, t.value, events[1..])
  }

  ghost predicate Reachable(cfg: Config, s: State) {
    exists events :: Run(cfg, INITIAL, events) == Some(s)
  }
}
