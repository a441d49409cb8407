/** What the resolver's answers come to, and that no request stays open for good. */
module SponsorOutcomes {
  import opened Common
  import opened Ledger
  import opened FeeBump
  import opened SponsorTable
  import opened Sponsor
  import opened SponsorProof
  import opened SponsorTheorems

  // ---- The submitter ----

  /** A new request starts as a pending record, its submitter about to bid the least
      fee that competes, or the cap. */
  lemma RequestStarts(cfg: Config, s: State, res: Reservation, call: string, resource: nat, p90: Option<int>, at: int)
    requires Judge(Records(s.slots), res, cfg.limits, at) == Created
    requires Apply(cfg, s, Request(res, call, resource, p90, at)).Some?
    ensures var t := Apply(cfg, s, Request(res, call, resource, p90, at)).value; var n := |s.slots|;
            && |t.slots| == n + 1 && t.slots[..n] == s.slots && t.chain == s.chain
            && t.slots[n].rec == Rec(res.id, res.payload, res.wallet, res.mode, res.maxFee, None, Pending, None, at, at)
            && t.slots[n].call == call && t.slots[n].resource == resource
            && t.slots[n].phase.Leasing? && t.slots[n].phase.lease == 0
            && var fee := t.slots[n].phase.inclusion;
               && fee <= cfg.cap && Competes(fee, p90, cfg.cap)
               && forall less: nat :: Competes(less, p90, cfg.cap) ==> fee <= less
  {
    InclusionFeeIsLeast(p90, cfg.cap);
  }

  /** What each reply to a send leads to: a busy network is asked again up to the
      limit, a stale sequence number takes another lease at the same fee while there
      is one, and a fee refused as too low is doubled on the same sequence number
      while the retries and the cap allow. */
  lemma SendGoes(cfg: Config, now: int, c: Chain, s: Slot, reply: SendReply)
    requires s.phase.Sending? && Submit(cfg, now, c, s, Send(reply)).Some?
    ensures var p := s.phase; var (t, d) := Submit(cfg, now, c, s, Send(reply)).value;
            && t == s.(phase := t.phase)
            && d == (if reply == Queued || reply == Broken(true) then Accept(c, p.tx, s.rec.id) else c)
            && (reply == Queued ==> t.phase == Polling(p.tx))
            && (reply.Broken? ==> t.phase == Finishing(Outcome(Unconfirmed, Some(p.tx), None)))
            && (reply == TryLater && p.tries < cfg.tryAgain ==> t.phase == p.(tries := p.tries + 1))
            && (reply == SendReply.BadSeq && p.lease + 1 < cfg.leases ==> t.phase == Leasing(p.inclusion, p.lease + 1))
            && (reply == SendReply.FeeTooLow && p.bump < cfg.feeRetries && 2 * p.inclusion <= cfg.cap ==>
                  t.phase
                  == Sealing(2 * p.inclusion, p.lease, p.bump + 1, p.tx.source, p.tx.sequence, p.tx.maxTime))
            && (t.phase.Finishing? && !reply.Broken? ==> t.phase.outcome == Outcome(Rejected, None, None))
  {
  }

  // ---- The resolver ----

  /** What an answer about the record as listed leaves of the record as it stands,
      once the decision is written: a transaction found is settled at its charge; one
      never recorded, or not found long enough after the last write, is rejected; and
      without an answer, or sooner, the record waits. */
  lemma DecisionSettles(cfg: Config, now: int, listed: Rec, answer: Answer, r: Rec, later: int)
    requires !r.status.Final()
    ensures var o := Resolve(cfg, now, listed, answer);
            var waits := listed.hash.Some?
                         && (answer == NoAnswer
                             || (answer.NotFound? && now <= listed.updatedAt + cfg.validity + cfg.ledgerTime));
            && (o.None? <==> waits)
            && (o.Some? ==>
                  var q := Finished(r, o.value, later);
                  && q.updatedAt == later && q.id == r.id && q.reserved == r.reserved
                  && (if listed.hash.Some? && answer.Found?
                      then
                        && q.status == (if answer.ok then Success else Failed) && q.hash == listed.hash
                        && q.charged == (if answer.charged.None? then r.charged else answer.charged)
                      else
                        q.status == Rejected && q.charged == r.charged
                        && q.hash == (if listed.hash.None? then r.hash else listed.hash)))
  {
  }

  // ---- No request stays open ----

  /** After these, the record can be listed and its transaction looked up. */
  lemma Wait(cfg: Config, s: State, i: nat) returns (t: State)
    requires Reachable(cfg, s) && i < |s.slots| && s.slots[i].rec.InFlight()
    ensures Reachable(cfg, t) && i < |t.slots| && t.slots[i].rec == s.slots[i].rec
    ensures var r := t.slots[i].rec;
            && r.updatedAt < t.now - cfg.staleAfter && t.now > r.updatedAt + cfg.validity + cfg.ledgerTime
            && t.chain.landed == s.chain.landed && (r.hash.Some? ==> r.hash.value.maxTime <= t.chain.closed)
  {
    var r := s.slots[i].rec;
    var age := cfg.staleAfter + cfg.validity + cfg.ledgerTime + 1;
    t := Take(cfg, s, SubmitterDies(i));
    t := Take(cfg, t, Elapse(if r.updatedAt + age < t.now then t.now else r.updatedAt + age));
    var at := t.chain.closed + 1;
    if r.hash.Some? && at < r.hash.value.maxTime { at := r.hash.value.maxTime; }
    t := Take(cfg, t, CloseLedger(at, map[]));
  }

  /** What RPC may then truthfully answer. */
  function TrueAnswer(cfg: Config, c: Chain, r: Rec): Answer {
    if r.hash.None? then NoAnswer
    else
      var tx := r.hash.value;
      if tx !in c.landed then Answer.NotFound(tx.maxTime - cfg.validity, c.closed)
      else if c.landed[tx].charged < 0 then NoAnswer
      else Answer.Found(c.landed[tx].ok, Some(c.landed[tx].charged))
  }

  /** One tick of the resolver, its write kept. */
  lemma Tick(cfg: Config, s: State, i: nat, answer: Answer) returns (t: State)
    requires Reachable(cfg, s) && i < |s.slots| && s.slots[i].rec.InFlight()
    requires s.slots[i].rec.updatedAt < s.now - cfg.staleAfter
    requires var r := s.slots[i].rec;
             && (r.hash.Some? ==> Sponsor.Truthful(cfg, s.now, s.chain, r.hash.value, answer))
             && Resolve(cfg, s.now, r, answer).Some?
    ensures Reachable(cfg, t) && i < |t.slots|
    ensures t.slots[i].rec
            == Finished(s.slots[i].rec, Resolve(cfg, s.now, s.slots[i].rec, answer).value, s.now)
  {
    var r := s.slots[i].rec;
    var o := Resolve(cfg, s.now, r, answer).value;
    t := Take(cfg, s, List(i));
    assert r in t.slots[i].listed && t.slots[i].rec == r;
    t := Take(cfg, t, Decide(i, r, answer));
    assert o in t.slots[i].decided && t.slots[i].rec == r;
    t := Take(cfg, t, Settle(i, o, Kept));
  }

  /** From every reachable state every open request can be brought to its end:
      success or failure at the fee charged if the transaction on its record landed,
      and otherwise a rejection. */
  lemma RequestsCanSettle(cfg: Config, s: State, i: nat) returns (t: State)
    requires cfg.Positive() && Reachable(cfg, s) && i < |s.slots| && s.slots[i].rec.InFlight()
    ensures Reachable(cfg, t) && i < |t.slots| && t.slots[i].rec.id == s.slots[i].rec.id
    ensures var r, q := s.slots[i].rec, t.slots[i].rec;
            if r.hash.Some? && r.hash.value in s.chain.landed then
              var l := s.chain.landed[r.hash.value];
              0 <= l.charged && q.status == (if l.ok then Success else Failed) && q.hash == r.hash
              && q.charged == Some(l.charged as nat)
            else q.status == Rejected
  {
    t := Wait(cfg, s, i);
    var r := t.slots[i].rec;
    ReachableBase(cfg, t);
    if r.hash.Some? && r.hash.value in t.chain.landed {
      assert LandingOk(cfg.validity, t.chain.closed, r.hash.value, t.chain.landed[r.hash.value]);
    }
    t := Tick(cfg, t, i, TrueAnswer(cfg, t.chain, r));
  }
}
