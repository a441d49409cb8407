/** The submitter's own control flow against the sponsor machine: every path
    through Run, over fresh leases, fee doublings and TRY_AGAIN_LATER, makes only
    calls the machine allows and ends by recording an outcome. */
module Submitter {
  import opened Common
  import opened Ledger
  import opened FeeBump
  import opened SponsorTable
  import opened Sponsor
  import opened SponsorTheorems

  /** The world at one call: the chain and the record as they stand, whatever
      resolvers have done to it, and the call's answer. */
  datatype World = World(
    now: int, chain: Chain, rec: Rec, listed: set<Rec>, decided: set<Outcome>, leased: bool, source: string,
    sequence: int,
    fate: Fate, send: SendReply, cancelled: bool, heard: bool, readable: bool)

  function Seen(s: Slot, w: World): Slot { s.(rec := w.rec, listed := w.listed, decided := w.decided) }

  ghost function Step(cfg: Config, s: Slot, w: World, a: Action): Option<(Slot, Chain)> {
    Submit(cfg, w.now, w.chain, Seen(s, w), a)
  }

  ghost function Path(cfg: Config, slot: Slot, calls: seq<(World, Action)>): Option<Slot> {
    if calls == [] then Some(slot)
    else
      var s := Path(cfg, slot, calls[..|calls| - 1]);
      var (w, a) := calls[|calls| - 1];
      if s.None? || Step(cfg, s.value, w, a).None? then None else Some(Step(cfg, s.value, w, a).value.0)
  }

  lemma PathAppend(cfg: Config, slot: Slot, calls: seq<(World, Action)>, w: World, a: Action)
    requires Path(cfg, slot, calls).Some? && Step(cfg, Path(cfg, slot, calls).value, w, a).Some?
    ensures Path(cfg, slot, calls + [(w, a)]) == Some(Step(cfg, Path(cfg, slot, calls).value, w, a).value.0)
  {
    assert (calls + [(w, a)])[..|calls|] == calls;
  }

  /** A call of a path is an event of the sponsor in any state with that world: the
      next state is reachable if this one is. */
  lemma CallIsEvent(cfg: Config, s: State, i: nat, slot: Slot, w: World, a: Action)
    requires i < |s.slots| && w.now == s.now && w.chain == s.chain && s.slots[i] == Seen(slot, w)
    requires Hashes(s.slots[i], a) ==> s.now <= s.slots[i].Deadline(cfg)
    ensures var next, p := Apply(cfg, s, SubmitterDoes(i, a)), Step(cfg, slot, w, a);
            && (next.Some? <==> p.Some?)
            && (next.Some? ==> next.value.slots[i] == p.value.0 && next.value.chain == p.value.1)
            && (next.Some? && Reachable(cfg, s) ==> Reachable(cfg, next.value))
  {
    if Reachable(cfg, s) && Apply(cfg, s, SubmitterDoes(i, a)).Some? { var _ := Take(cfg, s, SubmitterDoes(i, a)); }
  }

  // ---- What a submitter hears ----

  /** The call is the one the world's answers make. */
  ghost predicate Heard(cfg: Config, second: nat, phase: Phase, w: World, a: Action) {
    match phase
    case Stopped => false
    case Leasing(_, _) =>
      0 < second
      && a == if w.leased then Lease(w.source, w.sequence, (w.now + cfg.validity) / second * second) else NoLease
    case Sealing(_, _, _, _, _, _) => a == Seal(w.fate)
    case Sending(_, _, _, _, tries) => a == if tries > 0 && w.cancelled then Cancel else Send(w.send)
    case Polling(tx) =>
      a == Poll(
        if !w.heard || tx !in w.chain.landed then Unseen
        else if w.chain.landed[tx].ok then SeenOk(ReadCharge(w, tx)) else SeenFailed(ReadCharge(w, tx)))
    case Finishing(_) => a == Finish(w.fate)
  }

  /** The fee charged, if the result could be read. */
  function ReadCharge(w: World, tx: Tx): Option<nat>
    requires tx in w.chain.landed
  {
    if w.readable && w.chain.landed[tx].charged >= 0 then Some(w.chain.landed[tx].charged) else None
  }

  /** The calls a submitter made, one in each world in turn, each the one its
      world's answers make, and its slot before and after every one. */
  ghost predicate Trace(cfg: Config, second: nat, world: nat -> World, slots: seq<Slot>, actions: seq<Action>) {
    && |slots| == |actions| + 1
    && (forall i {:trigger actions[i]} :: 0 <= i < |actions| ==>
          && Heard(cfg, second, slots[i].phase, world(i), actions[i])
          && Step(cfg, slots[i], world(i), actions[i]).Some?
          && Step(cfg, slots[i], world(i), actions[i]).value.0 == slots[i + 1])
  }

  function Calls(world: nat -> World, actions: seq<Action>): seq<(World, Action)> {
    seq(|actions|, i requires 0 <= i < |actions| => (world(i), actions[i]))
  }

  lemma TraceIsPath(cfg: Config, second: nat, world: nat -> World, slots: seq<Slot>, actions: seq<Action>)
    requires Trace(cfg, second, world, slots, actions)
    ensures Path(cfg, slots[0], Calls(world, actions)) == Some(slots[|actions|])
  {
    TraceIsPathTo(cfg, second, world, slots, actions, |actions|);
    assert Calls(world, actions)[..|actions|] == Calls(world, actions);
  }

  lemma {:induction false} TraceIsPathTo(
    cfg: Config, second: nat, world: nat -> World, slots: seq<Slot>, actions: seq<Action>, n: nat)
    requires Trace(cfg, second, world, slots, actions) && n <= |actions|
    ensures Path(cfg, slots[0], Calls(world, actions)[..n]) == Some(slots[n])
  {
    var calls := Calls(world, actions);
    if n > 0 {
      TraceIsPathTo(cfg, second, world, slots, actions, n - 1);
      assert calls[..n] == calls[..n - 1] + [(world(n - 1), actions[n - 1])];
      PathAppend(cfg, slots[0], calls[..n - 1], world(n - 1), actions[n - 1]);
    }
  }

  /** What the worlds answer decides a submitter's every call. */
  lemma {:induction false} WorldsDecide(
    cfg: Config, second: nat, world: nat -> World, s: seq<Slot>, a: seq<Action>, t: seq<Slot>, b: seq<Action>, n: nat)
    requires Trace(cfg, second, world, s, a) && Trace(cfg, second, world, t, b) && s[0] == t[0]
    requires n <= |a| && n <= |b|
    ensures (forall i :: 0 <= i < n ==> a[i] == b[i]) && (forall i :: 0 <= i <= n ==> s[i] == t[i])
    decreases n
  {
    if n > 0 {
      WorldsDecide(cfg, second, world, s, a, t, b, n - 1);
      assert Heard(cfg, second, s[n - 1].phase, world(n - 1), a[n - 1]);
      assert Heard(cfg, second, t[n - 1].phase, world(n - 1), b[n - 1]);
    }
  }

  lemma TraceMore(cfg: Config, second: nat, world: nat -> World, slots: seq<Slot>, actions: seq<Action>, a: Action)
    requires Trace(cfg, second, world, slots, actions)
    requires Heard(cfg, second, slots[|actions|].phase, world(|actions|), a)
    requires Step(cfg, slots[|actions|], world(|actions|), a).Some?
    ensures Trace(cfg, second, world, slots + [Step(cfg, slots[|actions|], world(|actions|), a).value.0], actions + [a])
  {
  }

  // ---- The bids of a run ----

  predicate Rejection(reply: SendReply) { reply == SendReply.BadSeq || reply == SendReply.FeeTooLow }

  /** The first bid is at `start`; after a fee refused as too low the next bids twice
      the inclusion fee, after a stale sequence number the same; only the last may
      have been answered in any other way, and it is within the reservation. */
  ghost predicate Fair(start: nat, cap: nat, resource: nat, bids: seq<int>, replies: seq<SendReply>) {
    && |bids| == |replies| && (bids != [] ==> bids[0] == 2 * start + resource)
    && (forall i, j :: 0 <= i < |bids| - 1 && j == i + 1 ==> Follows(resource, bids[i], replies[i], bids[j]))
    && (bids != [] ==> bids[|bids| - 1] <= MaxBid(cap, resource))
  }

  predicate Follows(resource: nat, bid: int, reply: SendReply, next: int) {
    || (reply == FeeTooLow && next - resource == 2 * (bid - resource))
    || (reply == SendReply.BadSeq && next == bid)
  }

  /** `inclusion` is what is bid next. */
  ghost predicate InTurn(
    start: nat, cap: nat, resource: nat, bids: seq<int>, replies: seq<SendReply>, inclusion: nat) {
    && Fair(start, cap, resource, bids, replies) && inclusion <= cap
    && if bids == [] then inclusion == start
       else Follows(resource, bids[|bids| - 1], replies[|bids| - 1], 2 * inclusion + resource)
  }

  lemma BidAdded(
    start: nat, cap: nat, resource: nat, inclusion: nat, bids: seq<int>, replies: seq<SendReply>, bid: int,
    reply: SendReply)
    requires CapFits(cap) && InTurn(start, cap, resource, bids, replies, inclusion)
    requires BidOf(inclusion, resource) == Some(bid)
    ensures bid == 2 * inclusion + resource && Fair(start, cap, resource, bids + [bid], replies + [reply])
    ensures reply == FeeTooLow && 2 * inclusion <= cap ==>
              InTurn(start, cap, resource, bids + [bid], replies + [reply], 2 * inclusion)
    ensures reply == SendReply.BadSeq ==> InTurn(start, cap, resource, bids + [bid], replies + [reply], inclusion)
  {
    BidWithinReservation(inclusion, cap, resource);
  }

  /** The last n bids were all refused as too low. */
  ghost predicate TooLow(replies: seq<SendReply>, n: nat) {
    n <= |replies| && forall i :: |replies| - n <= i < |replies| ==> replies[i] == FeeTooLow
  }

  lemma TooLowMore(replies: seq<SendReply>, n: nat)
    requires TooLow(replies, n)
    ensures TooLow(replies + [FeeTooLow], n + 1)
  {
  }

  lemma {:induction false} BidsRise(
    start: nat, cap: nat, resource: nat, bids: seq<int>, replies: seq<SendReply>, i: nat, j: nat)
    requires Fair(start, cap, resource, bids, replies) && i <= j < |bids|
    ensures resource <= bids[i] <= bids[j]
    decreases i + j
  {
    if i < j {
      BidsRise(start, cap, resource, bids, replies, i, j - 1);
      assert Follows(resource, bids[j - 1], replies[j - 1], bids[j]);
    } else if 0 < i {
      BidsRise(start, cap, resource, bids, replies, i - 1, i - 1);
      assert Follows(resource, bids[i - 1], replies[i - 1], bids[i]);
    }
  }

  /** Over a whole run bids never fall, none is above the reservation, and all but
      the last were rejected for their fee or their sequence number. */
  lemma FairBids(start: nat, cap: nat, resource: nat, bids: seq<int>, replies: seq<SendReply>)
    requires Fair(start, cap, resource, bids, replies)
    ensures forall i :: 0 <= i < |bids| ==> 0 <= bids[i] <= MaxBid(cap, resource)
    ensures forall i, j :: 0 <= i <= j < |bids| ==> bids[i] <= bids[j]
    ensures forall i :: 0 <= i < |bids| - 1 ==> Rejection(replies[i])
  {
    forall i, j | 0 <= i <= j < |bids| ensures bids[i] <= bids[j] {
      BidsRise(start, cap, resource, bids, replies, i, j);
    }
    forall i | 0 <= i < |bids| ensures 0 <= bids[i] <= MaxBid(cap, resource) {
      BidsRise(start, cap, resource, bids, replies, i, |bids| - 1);
    }
    forall i | 0 <= i < |bids| - 1 ensures Rejection(replies[i]) {
      assert Follows(resource, bids[i], replies[i], bids[i + 1]);
    }
  }

  /** Where a submitter goes from the end of its resend loop. TryLater: given up. */
  function AfterSend(cfg: Config, inclusion: nat, lease: nat, bump: nat, tx: Tx, reply: SendReply): Phase {
    match reply
    case Queued => Polling(tx)
    case Broken(_) => Finishing(Outcome(Unconfirmed, Some(tx), None))
    case BadSeq => if lease + 1 < cfg.leases then Leasing(inclusion, lease + 1) else Finishing(REJECTED)
    case FeeTooLow =>
      if bump < cfg.feeRetries && inclusion * 2 <= cfg.cap
      then Sealing(inclusion * 2, lease, bump + 1, tx.source, tx.sequence, tx.maxTime)
      else Finishing(REJECTED)
    case _ => Finishing(REJECTED)
  }

  /** What came of one transaction: never sent, or sent with this reply. */
  datatype Tried = NotSent | Replied(tx: Tx, reply: SendReply)

  class Runner {
    const cfg: Config
    const second: nat
    const call: string
    const resource: nat
    const world: nat -> World
    const start: nat
    var rec: Rec
    var made: nat
    /** What was bid in each transaction sent, and how the send ended. */
    var bids: seq<int>
    var replies: seq<SendReply>
    ghost const first: Slot
    ghost var slot: Slot
    ghost var slots: seq<Slot>
    ghost var actions: seq<Action>
    /** How many leases were taken. */
    ghost var taken: nat

    ghost predicate Valid() reads this {
      && Trace(cfg, second, world, slots, actions) && |actions| == made && 0 < second
      && slots[0] == first && slots[made] == slot
      && slot.rec == rec && slot.call == call && slot.resource == resource
    }

    constructor (
      cfg: Config, second: nat, world: nat -> World, rec: Rec, call: string, resource: nat, inclusion: nat,
      ghost beat: int)
      requires 0 < second
      ensures Valid() && first == slot == Slot(rec, call, resource, Leasing(inclusion, 0), beat, {}, {})
      ensures this.cfg == cfg && this.second == second && this.world == world && this.rec == rec
              && made == 0 && taken == 0
              && bids == [] && replies == [] && start == inclusion && this.resource == resource
    {
      this.cfg, this.second, this.world, this.rec, made := cfg, second, world, rec, 0;
      this.call, this.resource, this.start := call, resource, inclusion;
      var begun := Slot(rec, call, resource, Leasing(inclusion, 0), beat, {}, {});
      this.first, this.slot, slots, actions := begun, begun, [begun], [];
      taken := 0;
      bids, replies := [], [];
    }

    /** Every bid so far was at the fee its turn asks for. */
    ghost predicate FeesOk() reads this { Fair(start, cfg.cap, resource, bids, replies) }

    ghost predicate NextFee(inclusion: nat) reads this {
      CapFits(cfg.cap) && InTurn(start, cfg.cap, resource, bids, replies, inclusion)
    }

    ghost function Taken(a: Action): Option<(Slot, Chain)> reads this {
      Step(cfg, slot, world(made), a)
    }

    /** Make the call `a`, which leaves the record as `to`. */
    method Do(ghost a: Action, to: Rec)
      requires Valid() && Taken(a).Some? && Taken(a).value.0.rec == to && Heard(cfg, second, slot.phase, world(made), a)
      modifies this`rec, this`made, this`slot, this`slots, this`actions, this`taken
      ensures Valid() && rec == to && slot == old(Taken(a)).value.0 && made == old(made) + 1
      ensures taken == old(taken) + if a.Lease? then 1 else 0
    {
      taken := taken + if a.Lease? then 1 else 0;
      TraceMore(cfg, second, world, slots, actions, a);
      slot := Taken(a).value.0;
      slots, actions := slots + [slot], actions + [a];
      rec := to;
      made := made + 1;
    }

    /** finish: the outcome is stored on a record that is not final yet, or the
        store call fails. */
    method Conclude(o: Outcome)
      requires Valid() && slot.phase == Finishing(o)
      modifies this`rec, this`made, this`slot, this`slots, this`actions, this`taken
      ensures Valid() && slot.phase == Stopped && made == old(made) + 1 && taken == old(taken)
      ensures var w := world(old(made));
              if !w.fate.Applied() || w.rec.status.Final() then rec == w.rec
              else
                && rec.status == o.status && rec.hash == (if o.hash.None? then w.rec.hash else o.hash)
                && rec.charged == (if o.charged.None? then w.rec.charged else o.charged)
    {
      var w := world(made);
      Do(Finish(w.fate), if w.fate.Applied() then Finished(w.rec, o, w.now) else w.rec);
    }

    /** send, again on TRY_AGAIN_LATER. TryLater: given up as busy. */
    method SendTransaction(ghost inclusion: nat, ghost lease: nat, ghost bump: nat, tx: Tx) returns (reply: SendReply)
      requires Valid() && slot.phase == Sending(inclusion, lease, bump, tx, 0)
      modifies this`rec, this`made, this`slot, this`slots, this`actions, this`taken
      ensures Valid()
      ensures slot.phase == AfterSend(cfg, inclusion, lease, bump, tx, reply)
      ensures reply != TryLater ==> old(made) < made && reply == world(made - 1).send
      ensures forall i :: old(made) <= i < made - 1 ==> world(i).send == TryLater
      ensures reply == TryLater ==>
                (old(made) < made && world(made - 1).cancelled) || made == old(made) + cfg.tryAgain + 1
      ensures taken == old(taken)
    {
      for tries := 0 to cfg.tryAgain + 1
        invariant Valid() && made == old(made) + tries && taken == old(taken)
        invariant slot.phase == if tries <= cfg.tryAgain then Sending(inclusion, lease, bump, tx, tries)
                  else Finishing(REJECTED)
        invariant forall i :: old(made) <= i < made ==> world(i).send == TryLater
      {
        if tries > 0 && world(made).cancelled {
          Do(Cancel, world(made).rec);
          return TryLater;
        }
        reply := world(made).send;
        Do(Send(reply), world(made).rec);
        if reply != TryLater {
          return;
        }
      }
      reply := TryLater;
    }

    method PollResult(tx: Tx) returns (o: Outcome)
      requires Valid() && slot.phase == Polling(tx)
      modifies this`rec, this`made, this`slot, this`slots, this`actions, this`taken
      ensures Valid() && slot.phase == Finishing(o) && taken == old(taken)
      ensures o.status == Success || o.status == Failed <==>
              world(old(made)).heard && tx in world(old(made)).chain.landed
      ensures o.status == Success || o.status == Failed ==>
              LandedAs(world(old(made)).chain, tx, o.status == Success, o.charged) && o.hash == Some(tx)
      ensures o.status == Success || o.status == Failed || o == Outcome(Unconfirmed, Some(tx), None)
    {
      var w := world(made);
      if !w.heard || tx !in w.chain.landed {
        Do(Poll(Unseen), world(made).rec);
        return Outcome(Unconfirmed, Some(tx), None);
      }
      var charged := ReadCharge(w, tx);
      if w.chain.landed[tx].ok {
        Do(Poll(SeenOk(charged)), world(made).rec);
        o := Outcome(Success, Some(tx), charged);
      } else {
        Do(Poll(SeenFailed(charged)), world(made).rec);
        o := Outcome(Failed, Some(tx), charged);
      }
    }

    method Note(inclusion: nat, bid: int, reply: SendReply)
      requires NextFee(inclusion) && BidOf(inclusion, resource) == Some(bid)
      modifies this`bids, this`replies
      ensures bids == old(bids) + [bid] && replies == old(replies) + [reply] && FeesOk()
      ensures bid == 2 * inclusion + resource
      ensures reply == FeeTooLow && 2 * inclusion <= cfg.cap ==> NextFee(2 * inclusion)
      ensures reply == SendReply.BadSeq ==> NextFee(inclusion)
    {
      BidAdded(start, cfg.cap, resource, inclusion, bids, replies, bid, reply);
      bids, replies := bids + [bid], replies + [reply];
    }

    /** One transaction at one inclusion fee: sealed, its hash recorded, sent. */
    method Try(
      inclusion: nat, ghost lease: nat, ghost bump: nat, source: string, sequence: int, until: int) returns (r: Tried)
      requires Valid() && slot.phase == Sealing(inclusion, lease, bump, source, sequence, until)
               && NextFee(inclusion)
      modifies this
      ensures Valid() && FeesOk() && taken == old(taken)
      ensures if r.NotSent? then bids == old(bids) && replies == old(replies)
              else bids == old(bids) + [2 * inclusion + resource] && replies == old(replies) + [r.reply]
      ensures r.Replied? && r.reply == FeeTooLow && 2 * inclusion <= cfg.cap ==> NextFee(2 * inclusion)
      ensures r.Replied? && r.reply == SendReply.BadSeq ==> NextFee(inclusion)
      ensures r.NotSent? ==> slot.phase == Finishing(REJECTED)
      ensures r.Replied? ==> slot.phase == AfterSend(cfg, inclusion, lease, bump, r.tx, r.reply)
      ensures r.Replied? ==> r.tx == Tx(Invoke(call), source, sequence, 2 * inclusion + resource, until)
    {
      var bid := BidOf(inclusion, resource);
      var w := world(made);
      if bid.None? {
        Do(Seal(w.fate), world(made).rec);
        return NotSent;
      }
      var tx := Tx(Invoke(call), source, sequence, bid.value, until);
      Do(Seal(w.fate), if w.fate.Applied() then Hashed(w.rec, tx, w.now) else w.rec);
      if w.fate != Kept {
        return NotSent;
      }
      var reply := SendTransaction(inclusion, lease, bump, tx);
      Note(inclusion, bid.value, reply);
      r := Replied(tx, reply);
    }

    /** The fee loop of one lease. `end` is what came of the last transaction, if any
        was to be sent. */
    method BidUp(inclusion: nat, ghost lease: nat, source: string, sequence: int, until: int)
      returns (o: Outcome, retry: bool, next: nat, ghost end: Tried)
      requires Valid() && slot.phase == Sealing(inclusion, lease, 0, source, sequence, until) && NextFee(inclusion)
      modifies this
      ensures Valid() && old(bids) <= bids && |bids| <= |old(bids)| + cfg.feeRetries + 1 && taken == old(taken)
      ensures FeesOk() && (retry ==> NextFee(next))
      ensures slot.phase == if retry && lease + 1 < cfg.leases then Leasing(next, lease + 1) else Finishing(o)
      ensures (retry <==> end.Replied? && end.reply == SendReply.BadSeq) && EndsWith(end, o)
      ensures end.Replied? ==> end.tx == Tx(Invoke(call), source, sequence, end.tx.fee, until)
    {
      o, retry, next, end := REJECTED, false, inclusion, NotSent;
      var bump := 0;
      while true
        invariant Valid() && slot.phase == Sealing(next, lease, bump, source, sequence, until)
        invariant taken == old(taken) && o == REJECTED && !retry && end == NotSent && bump <= cfg.feeRetries
        invariant NextFee(next) && old(bids) <= bids && |bids| <= |old(bids)| + bump && TooLow(replies, bump)
        decreases cfg.feeRetries - bump
      {
        ghost var before := replies;
        var r := Try(next, lease, bump, source, sequence, until);
        if r.NotSent? {
          return;
        }
        end := r;
        match r.reply
        case Queued =>
          o := PollResult(r.tx);
          return;
        case Broken(_) =>
          o := Outcome(Unconfirmed, Some(r.tx), None);
          return;
        case BadSeq =>
          retry := true;
          return;
        case FeeTooLow =>
          TooLowMore(before, bump);
          if !(bump < cfg.feeRetries && next * 2 <= cfg.cap) {
            return;
          }
          next := next * 2;
          bump := bump + 1;
          end := NotSent;
        case _ => return;
      }
    }

    /** attempt: one lease. `retry` asks for a fresh one, at the fee reached. */
    method Attempt(inclusion: nat, ghost lease: nat)
      returns (o: Outcome, retry: bool, next: nat, ghost end: Tried)
      requires Valid() && slot.phase == Leasing(inclusion, lease) && NextFee(inclusion)
      modifies this
      ensures Valid() && old(bids) <= bids && |bids| <= |old(bids)| + cfg.feeRetries + 1
      ensures FeesOk() && (retry ==> NextFee(next))
      ensures slot.phase == if retry && lease + 1 < cfg.leases then Leasing(next, lease + 1) else Finishing(o)
      ensures taken <= old(taken) + 1 && (retry ==> taken == old(taken) + 1)
      ensures (retry <==> end.Replied? && end.reply == SendReply.BadSeq) && EndsWith(end, o)
      ensures end.Replied? ==> OnLease(world(old(made)), end.tx)
    {
      var w := world(made);
      if !w.leased {
        Do(NoLease, world(made).rec);
        o, retry, next, end := REJECTED, false, inclusion, NotSent;
        return;
      }
      var until := (w.now + cfg.validity) / second * second;
      SecondsCut(w.now + cfg.validity, second);
      Do(Lease(w.source, w.sequence, until), world(made).rec);
      o, retry, next, end := BidUp(inclusion, lease, w.source, w.sequence, until);
    }

    /** The transaction is built on the lease, and expires at the validity from then,
        cut to a whole second. */
    predicate OnLease(w: World, tx: Tx) {
      && tx.source == w.source && tx.sequence == w.sequence && tx.body == Invoke(call)
      && tx.maxTime <= w.now + cfg.validity < tx.maxTime + second
    }

    /** How an attempt ends: a transaction accepted is reported as the poll saw it,
        one that may have been as unconfirmed, under its hash; after anything else
        nothing was charged, and a fee refused as too low has then been doubled as
        often as allowed in this lease, or cannot be doubled within the cap. */
    ghost predicate EndsWith(end: Tried, o: Outcome) reads this {
      match end
      case NotSent => o == REJECTED
      case Replied(tx, reply) =>
        && 0 < |bids| == |replies| && replies[|bids| - 1] == reply && bids[|bids| - 1] == tx.fee
        && (reply == Queued ==> o.status in {Success, Failed, Unconfirmed} && o.hash == Some(tx))
        && (reply.Broken? ==> o == Outcome(Unconfirmed, Some(tx), None))
        && (reply != Queued && !reply.Broken? ==> o == REJECTED)
        && (reply == FeeTooLow ==> TooLow(replies, cfg.feeRetries + 1) || tx.fee - resource > cfg.cap)
    }

    /** Run: at most `leases` attempts, then one outcome. Over all of them every
        bid stays within the reservation, and only the last can have been queued. */
    method Run() returns (o: Outcome, ghost end: Tried)
      requires Valid() && 0 < cfg.leases && slot.phase == Leasing(start, 0)
      requires CapFits(cfg.cap) && start <= cfg.cap && bids == [] && replies == [] && taken == 0
      modifies this
      ensures Valid() && slot.phase == Stopped
      ensures FeesOk() && |bids| <= cfg.leases * (cfg.feeRetries + 1)
      ensures EndsWith(end, o) && 0 < made
      ensures end.Replied? && end.reply == SendReply.BadSeq ==> taken == cfg.leases
      ensures rec.status.Final() || rec.status == o.status || world(made - 1).fate == Lost
    {
      var inclusion := start;
      o, end := REJECTED, NotSent;
      for lease := 0 to cfg.leases
        invariant Valid() && slot.phase == if lease < cfg.leases then Leasing(inclusion, lease) else Finishing(REJECTED)
        invariant NextFee(inclusion) && |bids| <= lease * (cfg.feeRetries + 1) && taken == lease
        invariant (0 < lease ==> EndsWith(end, REJECTED))
      {
        var retry;
        o, retry, inclusion, end := Attempt(inclusion, lease);
        MoreLeases(lease, cfg.leases, cfg.feeRetries + 1);
        if !retry {
          Conclude(o);
          return;
        }
      }
      o := REJECTED;
      Conclude(o);
    }
  }

  lemma SecondsCut(t: int, second: nat)
    requires 0 < second
    ensures t / second * second <= t < t / second * second + second
  {
  }

  lemma MoreLeases(lease: nat, leases: nat, each: nat)
    requires lease < leases
    ensures lease * each + each == (lease + 1) * each <= leases * each
  {
  }
}
