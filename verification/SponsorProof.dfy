/** The invariants behind the gasless sponsor's guarantees, and that every step
    keeps them: one that needs nothing of the resolver's timing, and one for a
    patient resolver. */
module SponsorProof {
  import opened Common
  import opened Ledger
  import opened FeeBump
  import opened SponsorTable
  import opened Sponsor

  // ---- What holds whatever the resolver does ----

  /** Nothing was ever queued for this request. */
  ghost predicate Unsent(c: Chain, id: string) {
    forall tx :: tx in c.queued ==> c.queued[tx] != id
  }

  /** At most one transaction was ever queued for this request. */
  ghost predicate AtMostOne(c: Chain, id: string) {
    forall a, b :: a in c.queued && b in c.queued && c.queued[a] == id && c.queued[b] == id ==> a == b
  }

  predicate Unsending(p: Phase) { p.Leasing? || p.Sealing? || p.Sending? }

  function InclusionOf(p: Phase): nat
    requires Unsending(p)
  {
    match p
    case Leasing(inclusion, _) => inclusion
    case Sealing(inclusion, _, _, _, _, _) => inclusion
    case Sending(inclusion, _, _, _, _) => inclusion
  }

  /** A bid, or an outcome, within the reservation. */
  predicate TxFits(r: Rec, tx: Tx) { tx.fee <= r.reserved }

  predicate OutcomeFits(r: Rec, o: Outcome) {
    && (o.hash.Some? ==> TxFits(r, o.hash.value))
    && (o.charged.Some? ==> o.status.Final() && o.charged.value <= r.reserved)
  }

  predicate PhaseFits(cfg: Config, r: Rec, p: Phase) {
    && (Unsending(p) ==> InclusionOf(p) <= cfg.cap)
    && (p.Sending? ==> TxFits(r, p.tx)) && (p.Polling? ==> TxFits(r, p.tx))
    && (p.Finishing? ==> OutcomeFits(r, p.outcome))
  }

  /** Every bid and every charge is within the reservation, and a request not yet
      sending has nothing queued. */
  ghost predicate SlotFits(cfg: Config, c: Chain, s: Slot) {
    && s.rec.reserved == MaxBid(cfg.cap, s.resource) && PhaseFits(cfg, s.rec, s.phase)
    && (s.rec.hash.Some? ==> TxFits(s.rec, s.rec.hash.value))
    && (!s.rec.status.Final() ==> s.rec.charged == None)
    && (forall snap :: snap in s.listed && snap.hash.Some? ==> TxFits(s.rec, snap.hash.value))
    && (forall o :: o in s.decided ==> OutcomeFits(s.rec, o))
    && (Unsending(s.phase) ==> Unsent(c, s.rec.id)) && AtMostOne(c, s.rec.id)
  }

  ghost predicate HasId(slots: seq<Slot>, id: string) {
    exists i :: 0 <= i < |slots| && slots[i].rec.id == id
  }

  ghost predicate SlotsFit(cfg: Config, c: Chain, slots: seq<Slot>) {
    forall i {:trigger SlotFits(cfg, c, slots[i])} :: 0 <= i < |slots| ==> SlotFits(cfg, c, slots[i])
  }

  ghost predicate Base(cfg: Config, s: State) {
    && ChainOk(cfg.validity, s.chain)
    && CapsOk(Records(s.slots), cfg.limits)
    && (forall tx :: tx in s.chain.queued ==> HasId(s.slots, s.chain.queued[tx]))
    && SlotsFit(cfg, s.chain, s.slots)
  }

  lemma ChargeFits(cfg: Config, c: Chain, r: Rec, tx: Tx, ok: bool, charged: Option<nat>)
    requires ChainOk(cfg.validity, c) && LandedAs(c, tx, ok, charged) && TxFits(r, tx)
    ensures charged.Some? ==> charged.value <= r.reserved
  {
    assert LandingOk(cfg.validity, c.closed, tx, c.landed[tx]);
  }

  /** What one call did to its slot and the network. */
  ghost predicate Moved(cfg: Config, c: Chain, s: Slot, d: Chain, t: Slot) {
    && SlotFits(cfg, d, t) && Lighter(s.rec, t.rec)
    && (d == c || (s.phase.Sending? && d == Accept(c, s.phase.tx, s.rec.id)))
  }

  lemma SealMoves(cfg: Config, now: int, c: Chain, s: Slot, a: Action)
    requires cfg.Positive() && SlotFits(cfg, c, s) && s.phase.Sealing? && Submit(cfg, now, c, s, a).Some?
    ensures Moved(cfg, c, s, Submit(cfg, now, c, s, a).value.1, Submit(cfg, now, c, s, a).value.0)
  {
    if BidOf(s.phase.inclusion, s.resource).Some? { BidWithinReservation(s.phase.inclusion, cfg.cap, s.resource); }
  }

  lemma SendMoves(cfg: Config, now: int, c: Chain, s: Slot, a: Action)
    requires cfg.Positive() && SlotFits(cfg, c, s) && s.phase.Sending? && Submit(cfg, now, c, s, a).Some?
    ensures Moved(cfg, c, s, Submit(cfg, now, c, s, a).value.1, Submit(cfg, now, c, s, a).value.0)
  {
  }

  lemma PollMoves(cfg: Config, now: int, c: Chain, s: Slot, a: Action)
    requires cfg.Positive() && ChainOk(cfg.validity, c) && SlotFits(cfg, c, s)
    requires s.phase.Polling? && Submit(cfg, now, c, s, a).Some?
    ensures Moved(cfg, c, s, Submit(cfg, now, c, s, a).value.1, Submit(cfg, now, c, s, a).value.0)
  {
    match a.seen
    case SeenOk(charged) => ChargeFits(cfg, c, s.rec, s.phase.tx, true, charged);
    case SeenFailed(charged) => ChargeFits(cfg, c, s.rec, s.phase.tx, false, charged);
    case Unseen =>
  }

  /** One call by the submitter keeps every bid within the reservation and sends
      at most the first transaction of its request. */
  lemma SubmitFits(cfg: Config, now: int, c: Chain, s: Slot, a: Action)
    requires cfg.Positive() && ChainOk(cfg.validity, c) && SlotFits(cfg, c, s) && Submit(cfg, now, c, s, a).Some?
    ensures Moved(cfg, c, s, Submit(cfg, now, c, s, a).value.1, Submit(cfg, now, c, s, a).value.0)
  {
    match s.phase
    case Leasing(_, _) =>
    case Sealing(_, _, _, _, _, _) => SealMoves(cfg, now, c, s, a);
    case Sending(_, _, _, _, _) => SendMoves(cfg, now, c, s, a);
    case Polling(_) => PollMoves(cfg, now, c, s, a);
    case Finishing(_) =>
  }

  lemma OthersFit(cfg: Config, c: Chain, s: Slot, tx: Tx, id: string)
    requires SlotFits(cfg, c, s) && s.rec.id != id
    ensures SlotFits(cfg, Accept(c, tx, id), s)
  {
  }

  lemma CapsKeep(cfg: Config, slots: seq<Slot>, i: nat, t: Slot)
    requires CapsOk(Records(slots), cfg.limits) && i < |slots| && Lighter(slots[i].rec, t.rec)
    ensures CapsOk(Records(slots[i := t]), cfg.limits)
  {
    assert Records(slots[i := t]) == Records(slots)[i := t.rec];
    UpdateKeepsCaps(Records(slots), cfg.limits, i, t.rec);
  }

  lemma StillHasId(slots: seq<Slot>, i: nat, t: Slot, id: string)
    requires i < |slots| && t.rec.id == slots[i].rec.id && HasId(slots, id)
    ensures HasId(slots[i := t], id)
  {
    var j :| 0 <= j < |slots| && slots[j].rec.id == id;
    assert slots[i := t][j].rec.id == id;
  }

  /** What a send for request `id` did to the network, if there was one. */
  ghost predicate Sent(c: Chain, d: Chain, id: string) {
    d == c || exists tx :: d == Accept(c, tx, id)
  }

  /** A slot replaced in order, with its send if there was one. */
  lemma SlotBase(cfg: Config, s: State, i: nat, t: Slot, d: Chain)
    requires Base(cfg, s) && i < |s.slots| && Lighter(s.slots[i].rec, t.rec)
    requires SlotFits(cfg, d, t) && Sent(s.chain, d, t.rec.id)
    ensures Base(cfg, s.(slots := s.slots[i := t], chain := d))
  {
    var slots := s.slots[i := t];
    CapsKeep(cfg, s.slots, i, t);
    assert slots[i] == t;
    if d != s.chain {
      var tx :| d == Accept(s.chain, tx, t.rec.id);
      AcceptKeeps(cfg.validity, s.chain, tx, t.rec.id);
    }
    forall tx | tx in d.queued ensures HasId(slots, d.queued[tx]) {
      if tx in s.chain.queued { StillHasId(s.slots, i, t, s.chain.queued[tx]); }
    }
    forall j | 0 <= j < |slots| ensures SlotFits(cfg, d, slots[j]) {
      if j != i { OtherFits(cfg, s, i, j, d); }
    }
  }

  lemma OtherFits(cfg: Config, s: State, i: nat, j: nat, d: Chain)
    requires Base(cfg, s) && i < |s.slots| && j < |s.slots| && i != j && Sent(s.chain, d, s.slots[i].rec.id)
    ensures SlotFits(cfg, d, s.slots[j])
  {
    assert SlotFits(cfg, s.chain, s.slots[j]);
    assert Records(s.slots)[i].id != Records(s.slots)[j].id;
    if d != s.chain {
      var tx :| d == Accept(s.chain, tx, s.slots[i].rec.id);
      OthersFit(cfg, s.chain, s.slots[j], tx, s.slots[i].rec.id);
    }
  }

  lemma NewId(cfg: Config, s: State, id: string)
    requires Base(cfg, s) && Find(Records(s.slots), id) == -1
    ensures Unsent(s.chain, id)
  {
    forall tx | tx in s.chain.queued ensures s.chain.queued[tx] != id {
      var j :| 0 <= j < |s.slots| && s.slots[j].rec.id == s.chain.queued[tx];
      assert Records(s.slots)[j].id != id;
    }
  }

  lemma RequestBase(cfg: Config, s: State, e: Event)
    requires e.Request? && cfg.Positive() && Base(cfg, s) && Apply(cfg, s, e).Some?
    ensures Base(cfg, Apply(cfg, s, e).value)
  {
    if Judge(Records(s.slots), e.res, cfg.limits, e.at) == Created {
      var slot := NewSlot(cfg, e.res, e.call, e.resource, e.p90, e.at);
      var slots := s.slots + [slot];
      ReserveKeepsCaps(Records(s.slots), e.res, cfg.limits, e.at);
      assert Records(slots) == Records(s.slots) + [slot.rec];
      NewId(cfg, s, e.res.id);
      forall tx | tx in s.chain.queued ensures HasId(slots, s.chain.queued[tx]) {
        var j :| 0 <= j < |s.slots| && s.slots[j].rec.id == s.chain.queued[tx];
        assert slots[j].rec.id == s.chain.queued[tx];
      }
      forall j | 0 <= j < |slots| ensures SlotFits(cfg, s.chain, slots[j]) {
        if j < |s.slots| { assert SlotFits(cfg, s.chain, s.slots[j]); }
      }
    }
  }

  lemma DecideBase(cfg: Config, s: State, i: nat, snap: Rec, answer: Answer)
    requires Base(cfg, s) && Apply(cfg, s, Decide(i, snap, answer)).Some?
    ensures Base(cfg, Apply(cfg, s, Decide(i, snap, answer)).value)
  {
    var slot := s.slots[i];
    assert SlotFits(cfg, s.chain, slot);
    var o := Resolve(cfg, s.now, snap, answer);
    if o.Some? {
      if snap.hash.Some? && answer.Found? {
        ChargeFits(cfg, s.chain, slot.rec, snap.hash.value, answer.ok, answer.charged);
      }
      SlotBase(cfg, s, i, Decided(slot, o.value), s.chain);
    }
  }

  /** Every event keeps the bids, charges and caps in order. */
  lemma StepBase(cfg: Config, s: State, e: Event)
    requires cfg.Positive() && Base(cfg, s) && Apply(cfg, s, e).Some?
    ensures Base(cfg, Apply(cfg, s, e).value)
  {
    match e
    case Elapse(_) =>
    case CloseLedger(at, landings) => CloseBase(cfg, s, at, landings);
    case Request(_, _, _, _, _) => RequestBase(cfg, s, e);
    case SubmitterDoes(i, action) =>
      assert SlotFits(cfg, s.chain, s.slots[i]);
      SubmitFits(cfg, s.now, s.chain, s.slots[i], action);
      var next := Submit(cfg, s.now, s.chain, s.slots[i], action).value;
      SlotBase(cfg, s, i, next.0, next.1);
    case SubmitterDies(i) =>
      assert SlotFits(cfg, s.chain, s.slots[i]);
      SlotBase(cfg, s, i, s.slots[i].(phase := Stopped), s.chain);
    case List(i) =>
      assert SlotFits(cfg, s.chain, s.slots[i]);
      SlotBase(cfg, s, i, Listed(s.slots[i]), s.chain);
    case Decide(i, snap, answer) => DecideBase(cfg, s, i, snap, answer);
    case Settle(i, o, fate) =>
      assert SlotFits(cfg, s.chain, s.slots[i]);
      if fate.Applied() { SlotBase(cfg, s, i, Settled(s.slots[i], o, s.now), s.chain); }
  }

  lemma CloseBase(cfg: Config, s: State, at: int, landings: map<Tx, Landing>)
    requires Base(cfg, s) && CanClose(cfg.validity, s.chain, at, landings)
    ensures Base(cfg, s.(chain := Close(s.chain, at, landings)))
  {
    CloseKeeps(cfg.validity, s.chain, at, landings);
    forall i | 0 <= i < |s.slots| ensures SlotFits(cfg, Close(s.chain, at, landings), s.slots[i]) {
      assert SlotFits(cfg, s.chain, s.slots[i]);
    }
  }

  // ---- What a patient resolver adds ----

  /** The only transaction queued for a request is the one on its record. */
  ghost predicate OnlyHash(c: Chain, r: Rec) {
    forall tx :: tx in c.queued && c.queued[tx] == r.id ==> r.hash == Some(tx)
  }

  /** Nothing queued for this request landed, and nothing can any more. */
  ghost predicate Dead(c: Chain, id: string) {
    forall tx :: tx in c.queued && c.queued[tx] == id ==> tx !in c.landed && tx.maxTime <= c.closed
  }

  /** The record's hash expires within the validity of its last write. */
  predicate HashExpires(cfg: Config, r: Rec) {
    r.hash.Some? ==> r.hash.value.maxTime <= r.updatedAt + cfg.validity
  }

  /** If RPC's answers cover what is looked up, nothing of the request landed or can. */
  ghost predicate Gone(cfg: Config, c: Chain, id: string) { cfg.covers ==> Dead(c, id) }

  /** On the same proviso, what is on the record can no longer land. */
  predicate Expired(cfg: Config, c: Chain, r: Rec) {
    cfg.covers && r.hash.Some? ==> r.hash.value.maxTime <= c.closed
  }

  ghost predicate RecOk(cfg: Config, now: int, c: Chain, r: Rec) {
    && r.updatedAt <= now && HashExpires(cfg, r) && OnlyHash(c, r)
    && (r.status == Rejected ==> Gone(cfg, c, r.id))
    && (r.status == Success ==> r.hash.Some? && LandedAs(c, r.hash.value, true, r.charged))
    && (r.status == Failed ==> r.hash.Some? && LandedAs(c, r.hash.value, false, r.charged))
  }

  /** The outcome is true of the record. */
  ghost predicate OutcomeOk(cfg: Config, c: Chain, r: Rec, o: Outcome) {
    && (o.hash.Some? ==> r.hash == o.hash)
    && match o.status
       case Pending => false
       case Unconfirmed => true
       case Rejected => Gone(cfg, c, r.id)
       case Success => o.hash.Some? && LandedAs(c, o.hash.value, true, o.charged)
       case Failed => o.hash.Some? && LandedAs(c, o.hash.value, false, o.charged)
  }

  /** What a submitter relies on at each call, whatever resolvers did meanwhile. */
  ghost predicate PhaseOk(cfg: Config, now: int, c: Chain, s: Slot) {
    match s.phase
    case Sealing(_, _, _, _, _, until) => until <= now + cfg.validity
    case Sending(_, _, _, tx, _) => s.rec.hash == Some(tx)
    case Polling(tx) => s.rec.hash == Some(tx)
    case Finishing(outcome) => OutcomeOk(cfg, c, s.rec, outcome)
    case _ => true
  }

  /** The submitter may yet write a hash to the record. */
  predicate Alive(cfg: Config, now: int, s: Slot) { Unsending(s.phase) && now <= s.Deadline(cfg) }

  /** Until then it has its record to itself. What resolvers listed bears the hash
      the record still has, and what they decided is true of it; a rejection that
      finds the submitter at work finds its transaction expired. */
  ghost predicate SlotOk(cfg: Config, now: int, c: Chain, s: Slot) {
    && RecOk(cfg, now, c, s.rec) && PhaseOk(cfg, now, c, s)
    && (Alive(cfg, now, s) ==>
          s.rec.status == Pending && s.rec.updatedAt == s.beat && s.listed == {} && s.decided == {})
    && (forall snap :: snap in s.listed ==> snap.hash == s.rec.hash && HashExpires(cfg, snap))
    && (forall o :: o in s.decided ==>
          OutcomeOk(cfg, c, s.rec, o) && (o.status == Rejected ==> Expired(cfg, c, s.rec)))
    && (s.rec.status == Rejected && s.phase != Stopped ==> Expired(cfg, c, s.rec))
  }

  ghost predicate SlotsOk(cfg: Config, now: int, c: Chain, slots: seq<Slot>) {
    forall i {:trigger SlotOk(cfg, now, c, slots[i])} :: 0 <= i < |slots| ==> SlotOk(cfg, now, c, slots[i])
  }

  ghost predicate Inv(cfg: Config, s: State) { Base(cfg, s) && SlotsOk(cfg, s.now, s.chain, s.slots) }

  lemma FinishedOk(cfg: Config, now: int, c: Chain, r: Rec, o: Outcome)
    requires RecOk(cfg, now, c, r) && OutcomeOk(cfg, c, r, o) && (!r.status.Final() ==> r.charged == None)
    ensures RecOk(cfg, now, c, Finished(r, o, now))
  {
  }

  lemma SealOk(cfg: Config, now: int, c: Chain, s: Slot, a: Action)
    requires SlotFits(cfg, c, s) && SlotOk(cfg, now, c, s) && s.phase.Sealing?
    requires Submit(cfg, now, c, s, a).Some? && (Hashes(s, a) ==> Alive(cfg, now, s))
    ensures SlotOk(cfg, now, Submit(cfg, now, c, s, a).value.1, Submit(cfg, now, c, s, a).value.0)
  {
  }

  /** The first send of a request, its transaction on the record: a rejected one
      can only send what has expired. */
  lemma SentOk(cfg: Config, now: int, c: Chain, r: Rec, tx: Tx)
    requires ChainOk(cfg.validity, c) && RecOk(cfg, now, c, r) && Unsent(c, r.id) && r.hash == Some(tx)
    ensures var d := Accept(c, tx, r.id);
            && OnlyHash(d, r) && (Expired(cfg, c, r) ==> Gone(cfg, d, r.id))
            && (r.status == Rejected && Expired(cfg, c, r) ==> RecOk(cfg, now, d, r))
            && (r.status != Rejected ==> RecOk(cfg, now, d, r))
  {
  }

  lemma AcceptedOk(cfg: Config, now: int, c: Chain, s: Slot, next: Phase)
    requires ChainOk(cfg.validity, c) && SlotFits(cfg, c, s) && SlotOk(cfg, now, c, s) && s.phase.Sending?
    requires next == Polling(s.phase.tx) || next == Finishing(Outcome(Unconfirmed, Some(s.phase.tx), None))
    ensures SlotOk(cfg, now, Accept(c, s.phase.tx, s.rec.id), s.(phase := next))
  {
    SentOk(cfg, now, c, s.rec, s.phase.tx);
  }

  lemma SendOk(cfg: Config, now: int, c: Chain, s: Slot, a: Action)
    requires ChainOk(cfg.validity, c) && SlotFits(cfg, c, s) && SlotOk(cfg, now, c, s) && s.phase.Sending?
    requires Submit(cfg, now, c, s, a).Some? && (Hashes(s, a) ==> Alive(cfg, now, s))
    ensures SlotOk(cfg, now, Submit(cfg, now, c, s, a).value.1, Submit(cfg, now, c, s, a).value.0)
  {
    var tx := s.phase.tx;
    if a.Send? && a.reply.Queued? {
      AcceptedOk(cfg, now, c, s, Polling(tx));
    } else if a == Send(Broken(true)) {
      AcceptedOk(cfg, now, c, s, Finishing(Outcome(Unconfirmed, Some(tx), None)));
    } else {
      assert Submit(cfg, now, c, s, a).value.1 == c;
    }
  }

  lemma FinishOk(cfg: Config, now: int, c: Chain, s: Slot, a: Action)
    requires SlotFits(cfg, c, s) && SlotOk(cfg, now, c, s) && s.phase.Finishing?
    requires Submit(cfg, now, c, s, a).Some? && (Hashes(s, a) ==> Alive(cfg, now, s))
    ensures SlotOk(cfg, now, Submit(cfg, now, c, s, a).value.1, Submit(cfg, now, c, s, a).value.0)
  {
    FinishedOk(cfg, now, c, s.rec, s.phase.outcome);
  }

  /** One call by a submitter keeps its record true, if it writes no hash after its
      deadline. */
  lemma SubmitOk(cfg: Config, now: int, c: Chain, s: Slot, a: Action)
    requires ChainOk(cfg.validity, c) && SlotFits(cfg, c, s) && SlotOk(cfg, now, c, s)
    requires Submit(cfg, now, c, s, a).Some? && (Hashes(s, a) ==> now <= s.Deadline(cfg))
    ensures SlotOk(cfg, now, Submit(cfg, now, c, s, a).value.1, Submit(cfg, now, c, s, a).value.0)
  {
    match s.phase
    case Leasing(_, _) =>
    case Sealing(_, _, _, _, _, _) => SealOk(cfg, now, c, s, a);
    case Sending(_, _, _, _, _) => SendOk(cfg, now, c, s, a);
    case Polling(_) =>
    case Finishing(_) => FinishOk(cfg, now, c, s, a);
  }

  /** Other requests' sends and closing ledgers leave a slot in order. */
  lemma OthersKeep(cfg: Config, now: int, c: Chain, s: Slot, tx: Tx, id: string)
    requires SlotOk(cfg, now, c, s) && s.rec.id != id
    ensures SlotOk(cfg, now, Accept(c, tx, id), s)
  {
    assert Dead(c, s.rec.id) ==> Dead(Accept(c, tx, id), s.rec.id);
  }

  lemma LedgerKeeps(cfg: Config, now: int, c: Chain, s: Slot, at: int, landings: map<Tx, Landing>)
    requires ChainOk(cfg.validity, c) && SlotOk(cfg, now, c, s) && CanClose(cfg.validity, c, at, landings)
    ensures SlotOk(cfg, now, Close(c, at, landings), s)
  {
    var d := Close(c, at, landings);
    forall tx | tx in d.queued && d.queued[tx] == s.rec.id && Dead(c, s.rec.id)
      ensures tx !in d.landed && tx.maxTime <= d.closed
    {
      assert tx in landings ==> LandingOk(cfg.validity, at, tx, landings[tx]);
    }
    assert Dead(c, s.rec.id) ==> Dead(d, s.rec.id);
  }

  /** A slot replaced in order, with its send if there was one. */
  lemma SlotKeeps(cfg: Config, s: State, i: nat, t: Slot, d: Chain)
    requires Inv(cfg, s) && i < |s.slots| && t.rec.id == s.slots[i].rec.id
    requires SlotOk(cfg, s.now, d, t) && Sent(s.chain, d, t.rec.id)
    ensures SlotsOk(cfg, s.now, d, s.slots[i := t])
  {
    forall j | 0 <= j < |s.slots| && j != i ensures SlotOk(cfg, s.now, d, s.slots[j]) {
      assert SlotOk(cfg, s.now, s.chain, s.slots[j]);
      assert Records(s.slots)[i].id != Records(s.slots)[j].id;
      if d != s.chain {
        var tx :| d == Accept(s.chain, tx, t.rec.id);
        OthersKeep(cfg, s.now, s.chain, s.slots[j], tx, t.rec.id);
      }
    }
  }

  /** No submitter will write another hash to a stale record. */
  lemma ListOk(cfg: Config, now: int, c: Chain, s: Slot)
    requires cfg.Patient() && SlotOk(cfg, now, c, s) && s.rec.updatedAt < now - cfg.staleAfter
    ensures !Alive(cfg, now, s) && SlotOk(cfg, now, c, Listed(s))
  {
  }

  /** What the resolver decides from the record as listed is true of the record
      as it stands. */
  lemma DecideOk(cfg: Config, now: int, c: Chain, s: Slot, snap: Rec, answer: Answer)
    requires ChainOk(cfg.validity, c) && SlotOk(cfg, now, c, s) && snap in s.listed
    requires snap.hash.Some? ==> Sponsor.Truthful(cfg, now, c, snap.hash.value, answer)
    requires Resolve(cfg, now, snap, answer).Some?
    ensures OutcomeOk(cfg, c, s.rec, Resolve(cfg, now, snap, answer).value)
    ensures SlotOk(cfg, now, c, Decided(s, Resolve(cfg, now, snap, answer).value))
  {
    if snap.hash.Some? {
      var tx := snap.hash.value;
      assert tx in c.landed ==> LandingOk(cfg.validity, c.closed, tx, c.landed[tx]);
    }
  }

  lemma SettleOk(cfg: Config, now: int, c: Chain, s: Slot, o: Outcome)
    requires SlotFits(cfg, c, s) && SlotOk(cfg, now, c, s) && o in s.decided
    ensures SlotOk(cfg, now, c, Settled(s, o, now))
  {
    FinishedOk(cfg, now, c, s.rec, o);
  }

  lemma RequestOk(cfg: Config, s: State, e: Event)
    requires e.Request? && cfg.Positive() && Inv(cfg, s) && Apply(cfg, s, e).Some?
    ensures var t := Apply(cfg, s, e).value; SlotsOk(cfg, t.now, t.chain, t.slots)
  {
    if Judge(Records(s.slots), e.res, cfg.limits, e.at) == Created {
      NewId(cfg, s, e.res.id);
      var t := Apply(cfg, s, e).value;
      forall j | 0 <= j < |t.slots| ensures SlotOk(cfg, s.now, s.chain, t.slots[j]) {
        if j < |s.slots| { assert SlotOk(cfg, s.now, s.chain, s.slots[j]); }
      }
    }
  }

  lemma ResolverOk(cfg: Config, s: State, e: Event)
    requires (e.List? || e.Decide? || e.Settle?) && cfg.Patient() && Inv(cfg, s) && Apply(cfg, s, e).Some?
    ensures var t := Apply(cfg, s, e).value; SlotsOk(cfg, t.now, t.chain, t.slots)
  {
    var slot := s.slots[e.i];
    assert SlotOk(cfg, s.now, s.chain, slot) && SlotFits(cfg, s.chain, slot);
    match e
    case List(i) =>
      ListOk(cfg, s.now, s.chain, slot);
      SlotKeeps(cfg, s, i, Listed(slot), s.chain);
    case Decide(i, snap, answer) =>
      var o := Resolve(cfg, s.now, snap, answer);
      if o.Some? {
        DecideOk(cfg, s.now, s.chain, slot, snap, answer);
        SlotKeeps(cfg, s, i, Decided(slot, o.value), s.chain);
      }
    case Settle(i, o, fate) =>
      if fate.Applied() {
        SettleOk(cfg, s.now, s.chain, slot, o);
        SlotKeeps(cfg, s, i, Settled(slot, o, s.now), s.chain);
      }
  }

  lemma SubmitterOk(cfg: Config, s: State, i: nat, action: Action)
    requires cfg.Positive() && Inv(cfg, s) && Apply(cfg, s, SubmitterDoes(i, action)).Some?
    ensures var t := Apply(cfg, s, SubmitterDoes(i, action)).value; SlotsOk(cfg, t.now, t.chain, t.slots)
  {
    var slot := s.slots[i];
    assert SlotOk(cfg, s.now, s.chain, slot) && SlotFits(cfg, s.chain, slot);
    SubmitFits(cfg, s.now, s.chain, slot, action);
    SubmitOk(cfg, s.now, s.chain, slot, action);
    var next := Submit(cfg, s.now, s.chain, slot, action).value;
    SlotKeeps(cfg, s, i, next.0, next.1);
  }

  lemma WorldOk(cfg: Config, s: State, e: Event)
    requires (e.Elapse? || e.CloseLedger? || e.SubmitterDies?) && Inv(cfg, s) && Apply(cfg, s, e).Some?
    ensures var t := Apply(cfg, s, e).value; SlotsOk(cfg, t.now, t.chain, t.slots)
  {
    var t := Apply(cfg, s, e).value;
    forall i | 0 <= i < |t.slots| ensures SlotOk(cfg, t.now, t.chain, t.slots[i]) {
      assert SlotOk(cfg, s.now, s.chain, s.slots[i]);
      if e.CloseLedger? { LedgerKeeps(cfg, s.now, s.chain, s.slots[i], e.at, e.landings); }
    }
  }

  /** With a patient resolver every event keeps the records true as well. */
  lemma StepKeeps(cfg: Config, s: State, e: Event)
    requires cfg.Positive() && cfg.Patient() && Inv(cfg, s) && Apply(cfg, s, e).Some?
    ensures Inv(cfg, Apply(cfg, s, e).value)
  {
    StepBase(cfg, s, e);
    match e
    case Request(_, _, _, _, _) => RequestOk(cfg, s, e);
    case SubmitterDoes(i, action) => SubmitterOk(cfg, s, i, action);
    case List(_) => ResolverOk(cfg, s, e);
    case Decide(_, _, _) => ResolverOk(cfg, s, e);
    case Settle(_, _, _) => ResolverOk(cfg, s, e);
    case _ => WorldOk(cfg, s, e);
  }
}
