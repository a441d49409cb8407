/** What the gasless sponsor guarantees, in every run. */
module SponsorTheorems {
  import opened Common
  import opened Ledger
  import opened FeeBump
  import opened SponsorTable
  import opened Sponsor
  import opened SponsorProof

  // ---- Runs ----

  lemma {:induction false} RunBase(cfg: Config, s: State, events: seq<Event>)
    requires cfg.Positive() && Base(cfg, s) && Run(cfg, s, events).Some?
    ensures Base(cfg, Run(cfg, s, events).value)
    decreases |events|
  {
    if events != [] {
      StepBase(cfg, s, events[0]);
      RunBase(cfg, Apply(cfg, s, events[0]).value, events[1..]);
    }
  }

  lemma ReachableBase(cfg: Config, s: State)
    requires cfg.Positive() && Reachable(cfg, s)
    ensures Base(cfg, s)
  {
    var events :| Run(cfg, INITIAL, events) == Some(s);
    RunBase(cfg, INITIAL, events);
  }

  lemma {:induction false} RunKeeps(cfg: Config, s: State, events: seq<Event>)
    requires cfg.Positive() && cfg.Patient() && Inv(cfg, s) && Run(cfg, s, events).Some?
    ensures Inv(cfg, Run(cfg, s, events).value)
    decreases |events|
  {
    if events != [] {
      StepKeeps(cfg, s, events[0]);
      RunKeeps(cfg, Apply(cfg, s, events[0]).value, events[1..]);
    }
  }

  lemma ReachableKeeps(cfg: Config, s: State)
    requires cfg.Positive() && cfg.Patient() && Reachable(cfg, s)
    ensures Inv(cfg, s)
  {
    var events :| Run(cfg, INITIAL, events) == Some(s);
    RunKeeps(cfg, INITIAL, events);
  }

  lemma {:induction false} RunAppend(cfg: Config, s: State, events: seq<Event>, e: Event)
    requires Run(cfg, s, events).Some?
    ensures Run(cfg, s, events + [e]) == Apply(cfg, Run(cfg, s, events).value, e)
    decreases |events|
  {
    if events == [] {
      assert events + [e] == [e];
      assert [e][1..] == [];
    } else {
      assert (events + [e])[1..] == events[1..] + [e];
      RunAppend(cfg, Apply(cfg, s, events[0]).value, events[1..], e);
    }
  }

  lemma Take(cfg: Config, s: State, e: Event) returns (t: State)
    requires Reachable(cfg, s) && Apply(cfg, s, e).Some?
    ensures Reachable(cfg, t) && t == Apply(cfg, s, e).value
  {
    t := Apply(cfg, s, e).value;
    var events :| Run(cfg, INITIAL, events) == Some(s);
    RunAppend(cfg, INITIAL, events, e);
    assert Run(cfg, INITIAL, events + [e]) == Some(t);
  }

  // ---- Whatever the resolver does ----

  /** However often fees are raised and leases retried, at most one transaction
      of a request ever enters the network's queue, so at most one can land. */
  lemma OneTransactionPerRequest(cfg: Config, s: State, a: Tx, b: Tx)
    requires cfg.Positive() && Reachable(cfg, s)
    requires a in s.chain.queued && b in s.chain.queued && s.chain.queued[a] == s.chain.queued[b]
    ensures a == b
  {
    ReachableBase(cfg, s);
    assert HasId(s.slots, s.chain.queued[a]);
    var i :| 0 <= i < |s.slots| && s.slots[i].rec.id == s.chain.queued[a];
    assert SlotFits(cfg, s.chain, s.slots[i]);
  }

  /** A request keeps its slot, a final record never changes, and a submitter
      that stopped never runs again. Needs no assumption on the resolver. */
  lemma {:induction false} RunsOnceAndStaysFinal(cfg: Config, s: State, events: seq<Event>, i: nat)
    requires i < |s.slots| && Run(cfg, s, events).Some?
    ensures var t := Run(cfg, s, events).value;
            && i < |t.slots| && t.slots[i].rec.id == s.slots[i].rec.id
            && (s.slots[i].rec.status.Final() ==> t.slots[i].rec == s.slots[i].rec)
            && (s.slots[i].phase == Stopped ==> t.slots[i].phase == Stopped)
    decreases |events|
  {
    if events != [] {
      StepFinal(cfg, s, events[0], i);
      RunsOnceAndStaysFinal(cfg, Apply(cfg, s, events[0]).value, events[1..], i);
    }
  }

  lemma StepFinal(cfg: Config, s: State, e: Event, i: nat)
    requires i < |s.slots| && Apply(cfg, s, e).Some?
    ensures var t := Apply(cfg, s, e).value;
            && i < |t.slots| && t.slots[i].rec.id == s.slots[i].rec.id
            && (s.slots[i].rec.status.Final() ==> t.slots[i].rec == s.slots[i].rec)
            && (s.slots[i].phase == Stopped ==> t.slots[i].phase == Stopped)
  {
  }

  /** One request_id, one slot: a repeat never starts a second run. */
  lemma OneRunPerRequestId(cfg: Config, s: State, i: nat, j: nat)
    requires cfg.Positive() && Reachable(cfg, s)
    requires i < |s.slots| && j < |s.slots| && s.slots[i].rec.id == s.slots[j].rec.id
    ensures i == j
  {
    ReachableBase(cfg, s);
    var t := Records(s.slots);
    assert t[i].id == t[j].id;
  }

  /** The caps, in every reachable state and for every rolling window. */
  lemma CapsHold(cfg: Config, s: State, w: string, end: int)
    requires cfg.Positive() && Reachable(cfg, s)
    ensures var t := Records(s.slots); var lim := cfg.limits;
            && Total(t, SponsoredCount(w)) <= lim.maxTx
            && Total(t, SponsoredSpend(w)) <= lim.maxPerWallet
            && Total(t, SpendBetween(end - lim.day, end)) <= lim.maxPerDay
            && Total(t, InFlightOf(w)) <= lim.maxInFlight
            && Total(t, FailuresBetween(w, end - lim.window, end)) <= lim.maxFailures + lim.maxInFlight - 1
  {
    ReachableBase(cfg, s);
    CapsBound(Records(s.slots), cfg.limits, w, end);
  }

  // ---- With a patient resolver ----

  /** Statuses tell the truth: a rejected request has no landed transaction and
      never will; success and failed name a transaction that landed so. */
  ghost predicate Honest(s: State) {
    forall i :: 0 <= i < |s.slots| ==>
      var r := s.slots[i].rec;
      && (r.status == Rejected ==> Dead(s.chain, r.id))
      && (r.status == Success ==> r.hash.Some? && LandedAs(s.chain, r.hash.value, true, r.charged))
      && (r.status == Failed ==> r.hash.Some? && LandedAs(s.chain, r.hash.value, false, r.charged))
  }

  lemma StatusesAreHonest(cfg: Config, s: State)
    requires cfg.Positive() && cfg.Patient() && cfg.covers && Reachable(cfg, s)
    ensures Honest(s)
  {
    ReachableKeeps(cfg, s);
    forall i | 0 <= i < |s.slots| ensures RecOk(cfg, s.now, s.chain, s.slots[i].rec) {
      assert SlotOk(cfg, s.now, s.chain, s.slots[i]);
    }
  }

  /** Every transaction the network accepted is on the record of its request. */
  ghost predicate Accounted(s: State) {
    forall tx :: tx in s.chain.queued ==> OnRecord(s.slots, s.chain.queued[tx], tx)
  }

  ghost predicate OnRecord(slots: seq<Slot>, id: string, tx: Tx) {
    exists i :: 0 <= i < |slots| && slots[i].rec.id == id && slots[i].rec.hash == Some(tx)
  }

  lemma RecordsAccount(cfg: Config, s: State)
    requires cfg.Positive() && cfg.Patient() && Reachable(cfg, s)
    ensures Accounted(s)
  {
    ReachableKeeps(cfg, s);
    forall tx | tx in s.chain.queued ensures OnRecord(s.slots, s.chain.queued[tx], tx) {
      var i :| 0 <= i < |s.slots| && s.slots[i].rec.id == s.chain.queued[tx];
      assert SlotOk(cfg, s.now, s.chain, s.slots[i]);
    }
  }

  /** The network charged for this transaction of the request. */
  predicate Cost(c: Chain, id: string, tx: Tx) {
    tx in c.queued && c.queued[tx] == id && tx in c.landed && 0 <= c.landed[tx].charged
  }

  /** What the network took for one request: by OneTransactionPerRequest there is
      at most one such transaction. */
  ghost function Taken(c: Chain, id: string): nat {
    if exists tx :: Cost(c, id, tx) then
      var tx :| Cost(c, id, tx);
      c.landed[tx].charged
    else 0
  }

  /** What it took for the sponsored requests a spend query is about, rejected
      ones included. */
  ghost function TakenFor(c: Chain, t: Table, q: Query): nat {
    if t == [] then 0
    else TakenFor(c, t[..|t| - 1], q) + if Matches(q, t[|t| - 1]) then Taken(c, t[|t| - 1].id) else 0
  }

  predicate Matches(q: Query, r: Rec) {
    match q
    case SponsoredSpend(w) => r.mode == Sponsored && r.wallet == w
    case SpendBetween(after, upTo) => r.mode == Sponsored && after < r.createdAt <= upTo
    case _ => false
  }

  /** A record that tells the truth within its reservation. */
  ghost predicate Priced(cfg: Config, now: int, c: Chain, r: Rec) {
    && RecOk(cfg, now, c, r) && (r.hash.Some? ==> TxFits(r, r.hash.value))
    && (!r.status.Final() ==> r.charged == None)
  }

  lemma TakenWithinSpend(cfg: Config, now: int, c: Chain, r: Rec, q: Query)
    requires cfg.covers && ChainOk(cfg.validity, c) && Priced(cfg, now, c, r) && Matches(q, r)
    ensures Taken(c, r.id) <= Weight(q, r)
  {
    if exists tx :: Cost(c, r.id, tx) {
      forall tx | Cost(c, r.id, tx) ensures r.hash == Some(tx) && c.landed[tx].charged <= r.reserved {
        assert LandingOk(cfg.validity, c.closed, tx, c.landed[tx]);
      }
    }
  }

  lemma {:induction false} TakenWithinTotal(cfg: Config, now: int, c: Chain, t: Table, q: Query)
    requires cfg.covers && ChainOk(cfg.validity, c) && forall r :: r in t ==> Priced(cfg, now, c, r)
    ensures TakenFor(c, t, q) <= Total(t, q)
  {
    if t != [] {
      var last := t[|t| - 1];
      assert last in t;
      if Matches(q, last) { TakenWithinSpend(cfg, now, c, last, q); }
      TakenWithinTotal(cfg, now, c, t[..|t| - 1], q);
    }
  }

  /** The money itself: what the network charged the funder for one wallet's
      sponsored requests, ever, and for all wallets' requests of any rolling
      day, stays within the caps. */
  lemma ChargedWithinCaps(cfg: Config, s: State, w: string, end: int)
    requires cfg.Positive() && cfg.Patient() && cfg.covers && Reachable(cfg, s)
    ensures TakenFor(s.chain, Records(s.slots), SponsoredSpend(w)) <= cfg.limits.maxPerWallet
    ensures TakenFor(s.chain, Records(s.slots), SpendBetween(end - cfg.limits.day, end)) <= cfg.limits.maxPerDay
  {
    ReachableKeeps(cfg, s);
    var t := Records(s.slots);
    forall r | r in t ensures Priced(cfg, s.now, s.chain, r) {
      var i :| 0 <= i < |t| && t[i] == r;
      assert SlotOk(cfg, s.now, s.chain, s.slots[i]) && SlotFits(cfg, s.chain, s.slots[i]);
    }
    CapsHold(cfg, s, w, end);
    TakenWithinTotal(cfg, s.now, s.chain, t, SponsoredSpend(w));
    TakenWithinTotal(cfg, s.now, s.chain, t, SpendBetween(end - cfg.limits.day, end));
  }

  // ---- What "not found" proves ----

  /** The range of ledgers RPC answers from covers every ledger tx can land in. */
  predicate Covers(validity: nat, tx: Tx, oldest: int, latest: int) {
    oldest <= tx.maxTime - validity && tx.maxTime <= latest
  }

  /** A network in which RPC, holding [oldest, latest], does not find tx. */
  ghost predicate NotThere(validity: nat, c: Chain, tx: Tx, oldest: int, latest: int) {
    ChainOk(validity, c) && latest <= c.closed && (tx in c.landed ==> !(oldest <= c.landed[tx].at <= latest))
  }

  /** tx did not land and never will. */
  predicate Lapsed(c: Chain, tx: Tx) { tx !in c.landed && (tx in c.queued ==> tx.maxTime <= c.closed) }

  /** The resolver rejects on "not found" without looking at RPC's range. In every
      network consistent with the answer that is right if and only if the range
      covers the transaction. */
  lemma RejectRightIffCovered(validity: nat, tx: Tx, oldest: int, latest: int)
    ensures (forall c :: NotThere(validity, c, tx, oldest, latest) ==> Lapsed(c, tx)) <==>
            Covers(validity, tx, oldest, latest)
  {
    if Covers(validity, tx, oldest, latest) {
      forall c | NotThere(validity, c, tx, oldest, latest) ensures Lapsed(c, tx) {
        assert tx in c.landed ==> LandingOk(validity, c.closed, tx, c.landed[tx]);
      }
    } else {
      var at := tx.maxTime - validity;
      var c := if latest < tx.maxTime then Chain(latest, map[tx := ""], map[])
               else Chain(latest, map[tx := ""], map[tx := Landing(at, true, 0)]);
      assert tx in c.landed ==> LandingOk(validity, c.closed, tx, c.landed[tx]);
      assert NotThere(validity, c, tx, oldest, latest) && !Lapsed(c, tx);
    }
  }
}
