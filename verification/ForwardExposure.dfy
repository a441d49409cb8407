/** The bound on a wallet's failed forwards is the best possible: a run of the
    sponsor reaches it exactly. */
module ForwardExposure {
  import opened Common
  import opened Ledger
  import opened FeeBump
  import opened SponsorTable
  import opened Sponsor
  import opened SponsorProof
  import opened SponsorTheorems

  // ---- One wallet's forwards: the first `failed` of them failed, the rest wait ----

  function Asked(cfg: Config, n: nat, w: string): Reservation {
    Reservation(seq(n, _ => 'r'), "", w, Forward, MaxBid(cfg.cap, 0))
  }

  predicate Waiting(cfg: Config, s: Slot, n: nat, w: string) {
    s == NewSlot(cfg, Asked(cfg, n, w), "call", 0, None, 0)
  }

  predicate Lost(cfg: Config, s: Slot, n: nat, w: string) {
    var r := s.rec;
    r.id == Asked(cfg, n, w).id && r.wallet == w && r.mode == Forward && r.createdAt == 0 && r.status == Failed
  }

  ghost predicate Fleet(cfg: Config, w: string, s: State, failed: nat, flying: nat) {
    && s.now == 0 && |s.slots| == failed + flying && s.chain.closed == failed
    && (forall tx :: tx in s.chain.queued || tx in s.chain.landed ==> tx.sequence < failed)
    && (forall i :: 0 <= i < failed ==> Lost(cfg, s.slots[i], i, w))
    && (forall i :: failed <= i < |s.slots| ==> Waiting(cfg, s.slots[i], i, w))
  }

  // ---- Totals ----

  /** Of the first `n` rows the query counts the failed, or those in flight. */
  lemma {:induction false} TotalOf(t: Table, failed: nat, q: Query, ofFailed: bool)
    requires forall i :: 0 <= i < |t| ==> Weight(q, t[i]) == if (i < failed) == ofFailed then 1 else 0
    ensures var count := if failed < |t| then failed else |t|;
            Total(t, q) == if ofFailed then count else |t| - count
  {
    if t != [] { TotalOf(t[..|t| - 1], failed, q, ofFailed); }
  }

  lemma Totals(cfg: Config, w: string, s: State, failed: nat, flying: nat, after: int)
    requires Fleet(cfg, w, s, failed, flying) && after < 0
    ensures Total(Records(s.slots), FailuresSince(w, after)) == failed
    ensures Total(Records(s.slots), FailuresBetween(w, after, 0)) == failed
    ensures Total(Records(s.slots), InFlightOf(w)) == flying
  {
    var t := Records(s.slots);
    forall i | 0 <= i < |t| ensures t[i].status == if i < failed then Failed else Pending {
      assert if i < failed then Lost(cfg, s.slots[i], i, w) else Waiting(cfg, s.slots[i], i, w);
    }
    TotalOf(t, failed, FailuresSince(w, after), true);
    TotalOf(t, failed, FailuresBetween(w, after, 0), true);
    TotalOf(t, failed, InFlightOf(w), false);
  }

  // ---- The two moves ----

  lemma UnusedId(cfg: Config, w: string, s: State, failed: nat, flying: nat)
    requires Fleet(cfg, w, s, failed, flying)
    ensures Find(Records(s.slots), Asked(cfg, failed + flying, w).id) == -1
  {
    var t := Records(s.slots);
    forall i | 0 <= i < |t| ensures |t[i].id| == i {
      assert if i < failed then Lost(cfg, s.slots[i], i, w) else Waiting(cfg, s.slots[i], i, w);
    }
  }

  lemma Admits(cfg: Config, w: string, s: State, failed: nat, flying: nat)
    requires Fits(cfg) && Fleet(cfg, w, s, failed, flying)
    requires failed < cfg.limits.maxFailures && flying < cfg.limits.maxInFlight
    ensures Judge(Records(s.slots), Asked(cfg, failed + flying, w), cfg.limits, 0) == Created
  {
    Totals(cfg, w, s, failed, flying, 0 - cfg.limits.window);
    UnusedId(cfg, w, s, failed, flying);
  }

  lemma OneMore(cfg: Config, w: string, s: State, failed: nat, flying: nat) returns (t: State)
    requires Fits(cfg) && Reachable(cfg, s) && Fleet(cfg, w, s, failed, flying)
    requires failed < cfg.limits.maxFailures && flying < cfg.limits.maxInFlight
    ensures Reachable(cfg, t) && Fleet(cfg, w, t, failed, flying + 1)
  {
    Admits(cfg, w, s, failed, flying);
    t := Take(cfg, s, Request(Asked(cfg, failed + flying, w), "call", 0, None, 0));
  }

  /** The oldest forward in flight is sent, lands as failed, and is recorded. */
  lemma OneFails(cfg: Config, w: string, s: State, failed: nat, flying: nat) returns (t: State)
    requires Fits(cfg) && Reachable(cfg, s) && Fleet(cfg, w, s, failed, flying)
    requires 0 < flying && failed < cfg.validity
    ensures Reachable(cfg, t) && Fleet(cfg, w, t, failed + 1, flying - 1)
  {
    assert Waiting(cfg, s.slots[failed], failed, w);
    var tx := Tx(Invoke("call"), "channel", failed, 2 * MIN_BASE_FEE, cfg.validity);
    var u := Sends(cfg, s, failed, tx);
    t := Lands(cfg, u, failed, tx);
    assert Lost(cfg, t.slots[failed], failed, w);
    assert forall i :: 0 <= i < |s.slots| && i != failed ==> t.slots[i] == s.slots[i];
  }

  lemma Lands(cfg: Config, s: State, i: nat, tx: Tx) returns (t: State)
    requires Reachable(cfg, s) && i < |s.slots| && s.now == 0 && s.slots[i].phase == Polling(tx)
    requires s.slots[i].beat == 0 && s.slots[i].rec.status == Pending && tx.maxTime == cfg.validity
    requires s.chain.closed == i < cfg.validity && tx in s.chain.queued && tx !in s.chain.landed
    ensures Reachable(cfg, t) && t.now == 0 && t.chain.closed == i + 1 && t.chain.queued == s.chain.queued
    ensures t.chain.landed.Keys == s.chain.landed.Keys + {tx} && |t.slots| == |s.slots|
    ensures forall j :: 0 <= j < |s.slots| && j != i ==> t.slots[j] == s.slots[j]
    ensures t.slots[i].rec == Finished(s.slots[i].rec, Outcome(Failed, Some(tx), Some(0)), 0)
  {
    var landings := map[tx := Landing(i + 1, false, 0)];
    assert CanClose(cfg.validity, s.chain, i + 1, landings);
    t := Take(cfg, s, CloseLedger(i + 1, landings));
    t := Take(cfg, t, SubmitterDoes(i, Poll(SeenFailed(Some(0)))));
    t := Take(cfg, t, SubmitterDoes(i, Finish(Kept)));
  }

  lemma Sends(cfg: Config, s: State, i: nat, tx: Tx) returns (t: State)
    requires Fits(cfg) && Reachable(cfg, s) && i < |s.slots| && s.now == 0
    requires var slot := s.slots[i]; slot.call == "call" && slot.resource == 0 && slot.phase == Leasing(MIN_BASE_FEE, 0)
                                     && slot.beat == 0 && slot.rec.status == Pending
    requires tx == Tx(Invoke("call"), "channel", i, 2 * MIN_BASE_FEE, cfg.validity)
    ensures Reachable(cfg, t) && t.now == 0 && t.chain == Accept(s.chain, tx, s.slots[i].rec.id)
    ensures t.slots == s.slots[i := s.slots[i].(rec := Hashed(s.slots[i].rec, tx, 0), phase := Polling(tx))]
  {
    SingleOperationBid(MIN_BASE_FEE, 0);
    t := Take(cfg, s, SubmitterDoes(i, Lease("channel", i, cfg.validity)));
    t := Take(cfg, t, SubmitterDoes(i, Seal(Kept)));
    t := Take(cfg, t, SubmitterDoes(i, Send(Queued)));
  }

  // ---- The order of events that does the most damage ----

  /** The minimum fee fits under the cap, and as many ledgers as the bound counts
      fit into one transaction's validity. */
  predicate Fits(cfg: Config) {
    && cfg.Positive() && MIN_BASE_FEE <= cfg.cap && 0 < cfg.limits.window
    && cfg.limits.maxFailures + cfg.limits.maxInFlight - 1 <= cfg.validity
  }

  /** All failures but one come one by one. */
  lemma {:induction false} OneByOne(cfg: Config, w: string, failed: nat) returns (s: State)
    requires Fits(cfg) && failed < cfg.limits.maxFailures
    ensures Reachable(cfg, s) && Fleet(cfg, w, s, failed, 0)
  {
    if failed == 0 {
      assert Run(cfg, INITIAL, []) == Some(INITIAL);
      s := INITIAL;
    } else {
      s := OneByOne(cfg, w, failed - 1);
      s := OneMore(cfg, w, s, failed - 1, 0);
      s := OneFails(cfg, w, s, failed - 1, 1);
    }
  }

  /** Then as many forwards in flight as fit. */
  lemma {:induction false} Filled(cfg: Config, w: string, failed: nat, flying: nat) returns (s: State)
    requires Fits(cfg) && failed < cfg.limits.maxFailures && flying <= cfg.limits.maxInFlight
    ensures Reachable(cfg, s) && Fleet(cfg, w, s, failed, flying)
  {
    if flying == 0 {
      s := OneByOne(cfg, w, failed);
    } else {
      s := Filled(cfg, w, failed, flying - 1);
      s := OneMore(cfg, w, s, failed, flying - 1);
    }
  }

  /** And those fail too. */
  lemma {:induction false} AllFail(cfg: Config, w: string, from: State, failed: nat, flying: nat) returns (s: State)
    requires Fits(cfg) && Reachable(cfg, from) && Fleet(cfg, w, from, failed, flying) && failed + flying <= cfg.validity
    ensures Reachable(cfg, s) && Fleet(cfg, w, s, failed + flying, 0)
    decreases flying
  {
    s := from;
    if flying > 0 {
      s := OneFails(cfg, w, s, failed, flying);
      s := AllFail(cfg, w, s, failed + 1, flying - 1);
    }
  }

  /** MaxForwardFailures + MaxForwardInFlight - 1 failures of one wallet inside
      one window do happen in a run, so by CapsHold that number is exact. */
  lemma FailureBoundIsMet(cfg: Config, w: string) returns (s: State)
    requires Fits(cfg)
    ensures Reachable(cfg, s)
    ensures var lim := cfg.limits;
            Total(Records(s.slots), FailuresBetween(w, 0 - lim.window, 0)) == lim.maxFailures + lim.maxInFlight - 1
  {
    var n := cfg.limits.maxFailures - 1;
    s := Filled(cfg, w, n, cfg.limits.maxInFlight);
    s := AllFail(cfg, w, s, n, cfg.limits.maxInFlight);
    Totals(cfg, w, s, n + cfg.limits.maxInFlight, 0, 0 - cfg.limits.window);
  }
}
