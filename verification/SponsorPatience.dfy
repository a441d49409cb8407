/** Exactly when the sponsor's records can be trusted. The resolver decides from
    the record as it was listed and writes it as it then stands, so no submitter
    may write a hash to a record once it is listed; and it rejects on a "not
    found" whatever range RPC answers from. */
module SponsorPatience {
  import opened Common
  import opened Ledger
  import opened FeeBump
  import opened SponsorTable
  import opened Sponsor
  import opened SponsorProof
  import opened SponsorTheorems

  /** Room for one request, a cap the minimum fee fits under, and a second lease. */
  predicate Usable(cfg: Config) {
    && cfg.Positive() && MIN_BASE_FEE <= cfg.cap && 0 < cfg.limits.maxTx && 2 <= cfg.leases
    && 2 * cfg.cap <= cfg.limits.maxPerWallet && 2 * cfg.cap <= cfg.limits.maxPerDay
  }

  const BID: nat := 2 * MIN_BASE_FEE

  function Ask(cfg: Config, n: nat): Reservation { Reservation(seq(n, _ => 'r'), "", "w", Sponsored, 2 * cfg.cap) }

  function Sealed(sequence: int, until: int): Tx { Tx(Invoke("call"), "channel", sequence, BID, until) }

  /** A request of the wallet, rejected although the network charged for it, with
      its transaction on the record or not. */
  ghost predicate Mistaken(cfg: Config, c: Chain, r: Rec, n: nat, named: bool) {
    && r.id == Ask(cfg, n).id && r.wallet == "w" && r.mode == Sponsored && r.status == Rejected
    && exists tx :: Cost(c, r.id, tx) && c.landed[tx].charged == BID && (r.hash == Some(tx) <==> named)
  }

  /** n requests, all of them mistaken. */
  ghost predicate Ruin(cfg: Config, s: State, n: nat, named: bool) {
    && Reachable(cfg, s) && |s.slots| == n && s.chain.closed <= s.now + cfg.validity
    && (forall tx :: tx in s.chain.queued ==> tx.sequence < 2 * n)
    && (forall i :: 0 <= i < n ==> Mistaken(cfg, s.chain, s.slots[i].rec, i, named))
  }

  // ---- One more request ----

  lemma {:induction false} NothingCounted(t: Table, q: Query)
    requires forall r :: r in t ==> r.mode == Sponsored && r.status == Rejected
    ensures Total(t, q) == 0
  {
    if t != [] {
      assert t[|t| - 1] in t;
      NothingCounted(t[..|t| - 1], q);
    }
  }

  lemma Admits(cfg: Config, s: State, n: nat, named: bool)
    requires Usable(cfg) && Ruin(cfg, s, n, named)
    ensures Judge(Records(s.slots), Ask(cfg, n), cfg.limits, s.now) == Created
  {
    var t := Records(s.slots);
    forall i | 0 <= i < |t| ensures |t[i].id| == i && t[i].mode == Sponsored && t[i].status == Rejected {
      assert Mistaken(cfg, s.chain, s.slots[i].rec, i, named);
    }
    NothingCounted(t, SponsoredCount("w"));
    NothingCounted(t, SponsoredSpend("w"));
    NothingCounted(t, SpendSince(s.now - cfg.limits.day));
  }

  /** The state moved on for slot n alone, with nothing new landed. */
  ghost predicate Beside(s: State, t: State, n: nat) {
    && |t.slots| == n + 1 && |s.slots| == n && s.now <= t.now
    && (forall i :: 0 <= i < n ==> t.slots[i] == s.slots[i])
    && t.chain.closed == s.chain.closed && t.chain.landed == s.chain.landed
  }

  lemma Reserve(cfg: Config, s: State, n: nat, named: bool) returns (t: State)
    requires Usable(cfg) && Ruin(cfg, s, n, named)
    ensures Reachable(cfg, t) && Beside(s, t, n) && t.now == s.now && t.chain == s.chain
    ensures t.slots[n] == NewSlot(cfg, Ask(cfg, n), "call", 0, None, s.now)
  {
    Admits(cfg, s, n, named);
    t := Take(cfg, s, Request(Ask(cfg, n), "call", 0, None, s.now));
  }

  /** A live submitter leases a channel, records its transaction and sends it. */
  lemma Sends(cfg: Config, s: State, n: nat, tx: Tx) returns (t: State)
    requires Usable(cfg) && Reachable(cfg, s) && |s.slots| == n + 1 && s.now <= s.slots[n].Deadline(cfg)
    requires var slot := s.slots[n];
             slot.phase.Leasing? && slot.phase.inclusion == MIN_BASE_FEE && slot.call == "call" && slot.resource == 0
    requires tx == Sealed(tx.sequence, s.now + cfg.validity) && tx !in s.chain.queued
    ensures Reachable(cfg, t) && t.now == s.now && t.chain == Accept(s.chain, tx, s.slots[n].rec.id)
    ensures var slot := s.slots[n];
            t.slots == s.slots[n := slot.(rec := Hashed(slot.rec, tx, s.now), phase := Polling(tx), beat := s.now)]
  {
    SingleOperationBid(MIN_BASE_FEE, 0);
    t := Take(cfg, s, SubmitterDoes(n, Lease("channel", tx.sequence, tx.maxTime)));
    t := Take(cfg, t, SubmitterDoes(n, Seal(Kept)));
    t := Take(cfg, t, SubmitterDoes(n, Send(Queued)));
  }

  // ---- Listed before its hash ----

  /** The record is rejected, and its submitter is about to lease a channel. */
  lemma RejectsUnhashed(cfg: Config, s: State, n: nat, named: bool) returns (t: State)
    requires Usable(cfg) && Ruin(cfg, s, n, named) && cfg.staleAfter < cfg.preparing
    ensures Reachable(cfg, t) && Beside(s, t, n) && t.now == s.now + cfg.staleAfter + 1 && t.chain == s.chain
    ensures var slot := t.slots[n];
            && slot.rec == Finished(NewRec(Ask(cfg, n), s.now), REJECTED, t.now)
            && slot.phase == Leasing(MIN_BASE_FEE, 0) && slot.call == "call" && slot.resource == 0 && slot.beat == s.now
  {
    t := Reserve(cfg, s, n, named);
    t := Take(cfg, t, Elapse(s.now + cfg.staleAfter + 1));
    t := Take(cfg, t, List(n));
    t := Take(cfg, t, Decide(n, NewRec(Ask(cfg, n), s.now), NoAnswer));
    t := Take(cfg, t, Settle(n, REJECTED, Kept));
  }

  // ---- Listed while it was sending ----

  /** The first transaction is recorded, and the record listed before its send
      comes back with a bad sequence number. */
  lemma ListsHashed(cfg: Config, s: State, n: nat, named: bool, tx: Tx) returns (t: State)
    requires Usable(cfg) && Ruin(cfg, s, n, named) && cfg.staleAfter < cfg.sending
             && tx == Sealed(2 * n, s.chain.closed)
    ensures Reachable(cfg, t) && Beside(s, t, n) && t.now == s.now + cfg.staleAfter + 1 && t.chain == s.chain
    ensures var slot := t.slots[n]; var rec := Hashed(NewRec(Ask(cfg, n), s.now), tx, s.now);
            && slot.rec == rec && slot.listed == {rec} && slot.decided == {}
            && slot.phase == Leasing(MIN_BASE_FEE, 1) && slot.call == "call" && slot.resource == 0 && slot.beat == s.now
  {
    SingleOperationBid(MIN_BASE_FEE, 0);
    t := Reserve(cfg, s, n, named);
    t := Take(cfg, t, SubmitterDoes(n, Lease("channel", 2 * n, s.chain.closed)));
    t := Take(cfg, t, SubmitterDoes(n, Seal(Kept)));
    t := Take(cfg, t, Elapse(s.now + cfg.staleAfter + 1));
    t := Take(cfg, t, List(n));
    t := Take(cfg, t, SubmitterDoes(n, Send(SendReply.BadSeq)));
  }

  /** The resolver gets to the record once its first transaction has expired, and
      rejects it, whatever the record says by then. */
  lemma RejectsListed(cfg: Config, s: State, n: nat, first: Rec) returns (t: State)
    requires Reachable(cfg, s) && n < |s.slots| && first in s.slots[n].listed && first.hash.Some?
    requires first.hash.value.maxTime == s.chain.closed && first.hash.value !in s.chain.landed
    requires !s.slots[n].rec.status.Final()
    ensures Reachable(cfg, t) && s.now <= t.now && t.chain == s.chain && |t.slots| == |s.slots|
    ensures forall i :: 0 <= i < |s.slots| && i != n ==> t.slots[i] == s.slots[i]
    ensures t.slots[n].rec == Finished(s.slots[n].rec, Outcome(Rejected, first.hash, None), t.now)
  {
    var expired := first.updatedAt + cfg.validity + cfg.ledgerTime + 1;
    t := Take(cfg, s, Elapse(if expired <= s.now then s.now else expired));
    var answer := Answer.NotFound(s.chain.closed - cfg.validity, s.chain.closed);
    t := Take(cfg, t, Decide(n, first, answer));
    t := Take(cfg, t, Settle(n, Outcome(Rejected, first.hash, None), Kept));
  }

  // ---- The mistake ----

  lemma Lands(cfg: Config, s: State, u: State, n: nat, named: bool, tx: Tx) returns (t: State)
    requires Ruin(cfg, s, n, named) && Reachable(cfg, u) && Beside(s, u, n)
    requires u.chain.queued == s.chain.queued[tx := Ask(cfg, n).id] && tx !in s.chain.queued && tx.sequence < 2 * n + 2
    requires !named && tx.fee == BID && s.chain.closed < tx.maxTime <= u.now + cfg.validity && tx !in s.chain.landed
    requires var r := u.slots[n].rec;
             && r.id == Ask(cfg, n).id && r.wallet == "w" && r.mode == Sponsored && r.status == Rejected
             && r.hash != Some(tx)
    ensures Ruin(cfg, t, n + 1, named)
  {
    var landings := map[tx := Landing(tx.maxTime, true, BID)];
    assert CanClose(cfg.validity, u.chain, tx.maxTime, landings);
    t := Take(cfg, u, CloseLedger(tx.maxTime, landings));
    forall i | 0 <= i < n + 1 ensures Mistaken(cfg, t.chain, t.slots[i].rec, i, named) {
      if i == n {
        assert Cost(t.chain, Ask(cfg, n).id, tx);
      } else {
        assert Mistaken(cfg, s.chain, s.slots[i].rec, i, named);
        var old' :| Cost(s.chain, s.slots[i].rec.id, old') && s.chain.landed[old'].charged == BID
                    && (s.slots[i].rec.hash == Some(old') <==> named);
        assert Cost(t.chain, t.slots[i].rec.id, old');
      }
    }
  }

  lemma MistakeUnhashed(cfg: Config, s: State, n: nat, named: bool) returns (t: State)
    requires Usable(cfg) && !named && Ruin(cfg, s, n, named) && cfg.staleAfter < cfg.preparing
    ensures Ruin(cfg, t, n + 1, named)
  {
    ReachableBase(cfg, s);
    t := RejectsUnhashed(cfg, s, n, named);
    var tx := Sealed(2 * n + 1, t.now + cfg.validity);
    t := Sends(cfg, t, n, tx);
    t := Lands(cfg, s, t, n, named, tx);
  }

  lemma MistakeHashed(cfg: Config, s: State, n: nat, named: bool) returns (t: State)
    requires Usable(cfg) && !named && Ruin(cfg, s, n, named) && cfg.staleAfter < cfg.sending
    ensures Ruin(cfg, t, n + 1, named)
  {
    ReachableBase(cfg, s);
    var first := Sealed(2 * n, s.chain.closed);
    t := ListsHashed(cfg, s, n, named, first);
    var tx := Sealed(2 * n + 1, t.now + cfg.validity);
    t := Sends(cfg, t, n, tx);
    t := RejectsListed(cfg, t, n, Hashed(NewRec(Ask(cfg, n), s.now), first, s.now));
    t := Lands(cfg, s, t, n, named, tx);
  }

  // ---- Looked up outside RPC's range ----

  /** A transaction lands, and RPC answers from ledgers that do not include it. */
  lemma MistakeUncovered(cfg: Config, s: State, n: nat, named: bool) returns (t: State)
    requires Usable(cfg) && named && Ruin(cfg, s, n, named) && !cfg.covers
    ensures Ruin(cfg, t, n + 1, named)
  {
    ReachableBase(cfg, s);
    t := SentAndLanded(cfg, s, n, named);
    var tx := Sealed(2 * n, s.now + cfg.validity + 1);
    t := RejectsLanded(cfg, t, n, tx);
    StillMistaken(cfg, s, t, n, named, tx);
  }

  lemma RejectsLanded(cfg: Config, s: State, n: nat, tx: Tx) returns (t: State)
    requires !cfg.covers && Reachable(cfg, s) && n < |s.slots| && s.slots[n].rec.status == Pending
    requires s.slots[n].rec.hash == Some(tx) && s.slots[n].rec.updatedAt == s.now && s.chain.closed == tx.maxTime
    requires tx in s.chain.landed ==> s.chain.landed[tx].at == tx.maxTime
    ensures Reachable(cfg, t) && s.now <= t.now && t.chain == s.chain && |t.slots| == |s.slots|
    ensures forall i :: 0 <= i < |s.slots| && i != n ==> t.slots[i] == s.slots[i]
    ensures t.slots[n].rec == Finished(s.slots[n].rec, Outcome(Rejected, Some(tx), None), t.now)
  {
    var rec := s.slots[n].rec;
    var long := if cfg.staleAfter <= cfg.validity + cfg.ledgerTime then cfg.validity + cfg.ledgerTime
      else cfg.staleAfter;
    t := Take(cfg, s, Elapse(s.now + long + 1));
    t := Take(cfg, t, List(n));
    t := Take(cfg, t, Decide(n, rec, Answer.NotFound(tx.maxTime + 1, tx.maxTime)));
    t := Take(cfg, t, Settle(n, Outcome(Rejected, Some(tx), None), Kept));
  }

  lemma SentAndLanded(cfg: Config, s: State, n: nat, named: bool) returns (t: State)
    requires Usable(cfg) && Ruin(cfg, s, n, named)
    ensures var tx := Sealed(2 * n, s.now + cfg.validity + 1);
            && Reachable(cfg, t) && |t.slots| == n + 1 && t.now == s.now + 1
            && (forall i :: 0 <= i < n ==> t.slots[i] == s.slots[i])
            && t.slots[n].rec == Hashed(NewRec(Ask(cfg, n), t.now), tx, t.now) && t.slots[n].listed == {}
            && t.chain.closed == tx.maxTime && t.chain.queued == s.chain.queued[tx := Ask(cfg, n).id]
            && t.chain.landed == s.chain.landed[tx := Landing(tx.maxTime, true, BID)]
  {
    ReachableBase(cfg, s);
    var tx := Sealed(2 * n, s.now + cfg.validity + 1);
    t := Take(cfg, s, Elapse(s.now + 1));
    RuinStays(cfg, s, t, n, named);
    t := Reserve(cfg, t, n, named);
    t := Sends(cfg, t, n, tx);
    t := LandsAt(cfg, t, tx);
  }

  lemma LandsAt(cfg: Config, s: State, tx: Tx) returns (t: State)
    requires Reachable(cfg, s) && tx in s.chain.queued && tx !in s.chain.landed && s.chain.closed < tx.maxTime
             && tx.fee == BID
    ensures Reachable(cfg, t) && t.now == s.now && t.slots == s.slots && t.chain.queued == s.chain.queued
    ensures t.chain.closed == tx.maxTime && t.chain.landed == s.chain.landed[tx := Landing(tx.maxTime, true, BID)]
  {
    var landings := map[tx := Landing(tx.maxTime, true, BID)];
    assert CanClose(cfg.validity, s.chain, tx.maxTime, landings);
    t := Take(cfg, s, CloseLedger(tx.maxTime, landings));
    assert t.chain.landed == s.chain.landed[tx := Landing(tx.maxTime, true, BID)];
  }

  lemma RuinStays(cfg: Config, s: State, t: State, n: nat, named: bool)
    requires Ruin(cfg, s, n, named) && Reachable(cfg, t) && t == s.(now := t.now) && s.now <= t.now
    ensures Ruin(cfg, t, n, named)
  {
    forall i | 0 <= i < n ensures Mistaken(cfg, t.chain, t.slots[i].rec, i, named) {
      assert Mistaken(cfg, s.chain, s.slots[i].rec, i, named);
    }
  }

  lemma StillMistaken(cfg: Config, s: State, t: State, n: nat, named: bool, tx: Tx)
    requires named && Ruin(cfg, s, n, named) && Reachable(cfg, t) && |t.slots| == n + 1
    requires tx !in s.chain.queued && tx.sequence == 2 * n && ChainOk(cfg.validity, s.chain)
    requires t.chain.queued == s.chain.queued[tx := Ask(cfg, n).id] && t.chain.closed <= t.now + cfg.validity
    requires t.chain.landed == s.chain.landed[tx := Landing(tx.maxTime, true, BID)]
    requires forall i :: 0 <= i < n ==> t.slots[i] == s.slots[i]
    requires var r := t.slots[n].rec;
             && r.id == Ask(cfg, n).id && r.wallet == "w" && r.mode == Sponsored && r.status == Rejected
             && r.hash == Some(tx)
    ensures Ruin(cfg, t, n + 1, named)
  {
    forall i | 0 <= i < n + 1 ensures Mistaken(cfg, t.chain, t.slots[i].rec, i, named) {
      if i == n {
        assert Cost(t.chain, Ask(cfg, n).id, tx);
      } else {
        assert Mistaken(cfg, s.chain, s.slots[i].rec, i, named);
        var was :| Cost(s.chain, s.slots[i].rec.id, was) && s.chain.landed[was].charged == BID
                   && (s.slots[i].rec.hash == Some(was) <==> named);
        assert Cost(t.chain, t.slots[i].rec.id, was);
      }
    }
  }

  // ---- Mistakes add up ----

  /** Without patience or coverage the mistake is made as often as you like; without
      patience its transaction is on no record. */
  lemma {:induction false} MistakesAddUp(cfg: Config, n: nat) returns (s: State)
    requires Usable(cfg) && !(cfg.Patient() && cfg.covers)
    ensures Ruin(cfg, s, n, cfg.Patient())
  {
    if n == 0 {
      assert Run(cfg, INITIAL, []) == Some(INITIAL);
      s := INITIAL;
    } else {
      s := MistakesAddUp(cfg, n - 1);
      if cfg.Patient() {
        s := MistakeUncovered(cfg, s, n - 1, true);
      } else if cfg.staleAfter < cfg.preparing {
        s := MistakeUnhashed(cfg, s, n - 1, false);
      } else {
        s := MistakeHashed(cfg, s, n - 1, false);
      }
    }
  }

  lemma OneMistake(cfg: Config, s: State, named: bool)
    requires Usable(cfg) && Ruin(cfg, s, 1, named)
    ensures !Honest(s) && (!named ==> !Accounted(s))
  {
    var r := s.slots[0].rec;
    assert Mistaken(cfg, s.chain, r, 0, named);
    var tx :| Cost(s.chain, r.id, tx) && s.chain.landed[tx].charged == BID && (r.hash == Some(tx) <==> named);
    assert !Dead(s.chain, r.id);
    assert !named ==> !OnRecord(s.slots, r.id, tx);
  }

  lemma {:induction false} MistakesCost(cfg: Config, c: Chain, t: Table, named: bool)
    requires forall i :: 0 <= i < |t| ==> Mistaken(cfg, c, t[i], i, named) && AtMostOne(c, t[i].id)
    ensures TakenFor(c, t, SponsoredSpend("w")) == BID * |t|
  {
    if t != [] {
      var r := t[|t| - 1];
      assert Mistaken(cfg, c, r, |t| - 1, named);
      assert Taken(c, r.id) == BID;
      MistakesCost(cfg, c, t[..|t| - 1], named);
    }
  }

  // ---- The exact conditions ----

  /** Statuses are honest in every run if and only if no hash is written to a record
      that may have been listed, and RPC's range covers every lookup. Otherwise a
      request can be rejected whose transaction has landed, or then lands. */
  lemma HonestIff(cfg: Config)
    requires Usable(cfg)
    ensures (forall s :: Reachable(cfg, s) ==> Honest(s)) <==> cfg.Patient() && cfg.covers
  {
    if cfg.Patient() && cfg.covers {
      forall s | Reachable(cfg, s) ensures Honest(s) { StatusesAreHonest(cfg, s); }
    } else {
      var s := MistakesAddUp(cfg, 1);
      OneMistake(cfg, s, cfg.Patient());
    }
  }

  /** Every transaction sent is on its request's record in every run if and only
      if no hash is written to a record that may have been listed, whatever RPC
      covers. Otherwise the resolver can put an older hash back. */
  lemma AccountedIffPatient(cfg: Config)
    requires Usable(cfg)
    ensures (forall s :: Reachable(cfg, s) ==> Accounted(s)) <==> cfg.Patient()
  {
    if cfg.Patient() {
      forall s | Reachable(cfg, s) ensures Accounted(s) { RecordsAccount(cfg, s); }
    } else {
      var s := MistakesAddUp(cfg, 1);
      OneMistake(cfg, s, false);
    }
  }

  ghost predicate WalletWithinCap(cfg: Config, s: State) {
    forall w :: TakenFor(s.chain, Records(s.slots), SponsoredSpend(w)) <= cfg.limits.maxPerWallet
  }

  /** The money: what the network charges for a wallet stays within its cap in every
      run under exactly the same conditions as honesty. Otherwise each mistaken
      rejection frees a reservation that was spent, and there is no bound. */
  lemma WithinCapIff(cfg: Config)
    requires Usable(cfg)
    ensures (forall s :: Reachable(cfg, s) ==> WalletWithinCap(cfg, s)) <==> cfg.Patient() && cfg.covers
  {
    if cfg.Patient() && cfg.covers {
      forall s | Reachable(cfg, s) ensures WalletWithinCap(cfg, s) {
        forall w ensures TakenFor(s.chain, Records(s.slots), SponsoredSpend(w)) <= cfg.limits.maxPerWallet {
          ChargedWithinCaps(cfg, s, w, 0);
        }
      }
    } else {
      var s := Overspends(cfg);
    }
  }

  lemma {:induction false} RuinCosts(cfg: Config, s: State, n: nat, named: bool)
    requires Usable(cfg) && Ruin(cfg, s, n, named)
    ensures TakenFor(s.chain, Records(s.slots), SponsoredSpend("w")) == BID * n
  {
    ReachableBase(cfg, s);
    var t := Records(s.slots);
    forall i | 0 <= i < |t| ensures Mistaken(cfg, s.chain, t[i], i, named) && AtMostOne(s.chain, t[i].id) {
      assert SlotFits(cfg, s.chain, s.slots[i]);
    }
    MistakesCost(cfg, s.chain, t, named);
  }

  lemma Overspends(cfg: Config) returns (s: State)
    requires Usable(cfg) && !(cfg.Patient() && cfg.covers)
    ensures Reachable(cfg, s) && !WalletWithinCap(cfg, s)
  {
    var n := cfg.limits.maxPerWallet + 1;
    s := MistakesAddUp(cfg, n);
    RuinCosts(cfg, s, n, cfg.Patient());
    assert TakenFor(s.chain, Records(s.slots), SponsoredSpend("w")) > cfg.limits.maxPerWallet;
  }

  /** The deployed constants, with RPC covering every lookup: honest in every run
      exactly when the calls before the first hash take at most 80 seconds and those
      between two hashes at most 55, beside the wait for a channel and the resends.
      How long the poll and the last write take does not matter. */
  lemma DeployedIsHonestIff(cap: nat, limits: Limits, before: nat, between: nat)
    requires Usable(Deployed(cap, limits, before, between))
    ensures (forall s :: Reachable(Deployed(cap, limits, before, between), s) ==> Honest(s))
       <==> before <= 80_000 && between <= 55_000
  {
    HonestIff(Deployed(cap, limits, before, between));
  }
}
