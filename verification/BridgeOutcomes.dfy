/** What each answer comes to: the row it leaves once the statement that follows
    has committed, and the call the worker makes next. Between the answer and the
    statement the rest of the world may have moved on, so the row the statement
    meets is arbitrary. */
module BridgeOutcomes {
  import opened Common
  import opened Ledger
  import opened Resolution
  import opened ForwardTable
  import opened Bridge

  /** The same worker's next call, in a later world. */
  predicate Later(x: Scene, y: Scene) { y.cfg == x.cfg && y.who == x.who && y.key == x.key && y.snap == x.snap }

  /** Queued again, with nothing charged and what is in flight kept. */
  predicate Requeues(r: Row, q: Row) {
    && q.status == PendingRetry && q.retries == r.retries
    && q.submitted == r.submitted && q.forwardTx == r.forwardTx && q.sweep == r.sweep
  }

  /** Closed for good, with nothing charged and what is in flight kept. */
  predicate GivesUp(r: Row, q: Row, why: Note) {
    && q.status == Failed && q.note == why && q.retries == r.retries
    && q.submitted == r.submitted && q.forwardTx == r.forwardTx && q.sweep == r.sweep
  }

  /** One retry charged, what is in flight kept. */
  predicate IsCharged(r: Row, q: Row, to: Status) {
    && q.status == to && q.retries == r.retries + 1
    && q.submitted == r.submitted && q.forwardTx == r.forwardTx && q.sweep == r.sweep
  }

  /** Let go of what was in flight, and nothing else. */
  predicate LetsGo(r: Row, q: Row) { q == r.(submitted := None, updatedAt := q.updatedAt) }

  // ---- A transfer whose outcome was unknown ----

  /** By RPC's clock, or by the local one if RPC reports none, the transfer can
      still land. */
  predicate MayLand(cfg: Config, resp: Response, until: int, now: int) {
    if resp.latest == 0 then now <= until + cfg.grace else resp.latest <= until
  }

  lemma AnswerSettles(x: Scene, y: Scene, v: View, resp: Response, r: Row, c: Chain, fate: Fate)
    requires v.phase.Resolving? && Perform(x, v, Answer(resp)).Some? && Later(x, y)
    requires Perform(y, View(r, Perform(x, v, Answer(resp)).value.phase, c), Write(fate)).Some? && fate.Applied()
    ensures var sub := v.phase.sub;
            var w := Perform(y, View(r, Perform(x, v, Answer(resp)).value.phase, c), Write(fate)).value;
            && (resp.status == FoundOk ==>
                  && w.row.status == (if x.snap.sweep then Swept else Done) && w.row.forwardTx == Some(sub.tx)
                  && w.row.submitted == None && w.row.retries == r.retries && w.phase == Over)
            && (resp.status.FoundFailed? && CodeOf(resp.status.result) == Some(OtherCode) ==>
                  GivesUp(r, w.row, Refused) && w.phase == Over)
            && (resp.status.FoundFailed? && CodeOf(resp.status.result) != Some(OtherCode) ==>
                  LetsGo(r, w.row) && w.phase == if fate == Kept then Deciding else Over)
            && (resp.status == NotFound && MayLand(x.cfg, resp, sub.until, x.now) ==>
                  Requeues(r, w.row) && w.phase == Over)
            && (resp.status == NotFound && !MayLand(x.cfg, resp, sub.until, x.now) ==>
                  if resp.oldest != 0 && resp.oldest > sub.until - x.cfg.validity
                  then GivesUp(r, w.row, Unresolvable) && w.phase == Over
                  else LetsGo(r, w.row) && w.phase == if fate == Kept then Deciding else Over)
  {
  }

  lemma SilenceWaits(x: Scene, y: Scene, v: View, r: Row, c: Chain, fate: Fate)
    requires v.phase.Resolving? && Perform(x, v, NoAnswer).Some? && Later(x, y)
    requires Perform(y, View(r, Perform(x, v, NoAnswer).value.phase, c), Write(fate)).Some? && fate.Applied()
    ensures var w := Perform(y, View(r, Perform(x, v, NoAnswer).value.phase, c), Write(fate)).value;
            Requeues(r, w.row) && w.phase == Over
  {
  }

  // ---- A fault of the submit pipeline ----

  /** Another attempt in the same process: only a watcher's credit has more than
      one, and only what may go differently is tried again. */
  predicate TriesAgain(cfg: Config, who: Actor, goal: Goal, attempt: nat, fault: Fault) {
    who == Watcher && goal.Pay? && attempt + 1 < cfg.attempts && fault != Unconfirmed && fault != Permanent
  }

  /** Every other fault ends in one statement. What may be in flight stays on the
      row. An unknown outcome, a lost race and a recovery account without its
      trustline are queued uncharged; a permanent cause closes the row, charged
      only on a watcher's credit; anything else is charged and queued. */
  lemma FaultSettles(cfg: Config, who: Actor, goal: Goal, attempt: nat, fault: Fault, r: Row, now: int)
    ensures var p := AfterFault(cfg, who, goal, attempt, fault);
            if TriesAgain(cfg, who, goal, attempt, fault) then p == Drafting(goal, attempt + 1)
            else
              && p.Closing?
              && var q := Conclude(r, p.verdict, now);
                 && (fault in {Unconfirmed, Contention} ==> Requeues(r, q))
                 && (fault == AwaitTrustline && goal == Return ==> Requeues(r, q))
                 && (fault == Permanent ==>
                       if who == Watcher && goal.Pay? then IsCharged(r, q, Failed) else GivesUp(r, q, Refused))
                 && (fault in {Transient, FeeTooLow} ==> IsCharged(r, q, PendingRetry))
  {
  }

  /** The fault a rejection by its code is. */
  function FaultOf(result: Result): Fault {
    match CodeOf(result)
    case Some(InsufficientFee) => FeeTooLow
    case Some(BadSeq) => Contention
    case Some(OtherCode) => Permanent
    case _ => Transient
  }

  // ---- A transfer on its way ----

  /** Once recorded, a transfer is what the row says is in flight; a transaction
      another row claims is contention and changes nothing; a write that may be
      lost is transient. */
  lemma RecordGoes(x: Scene, v: View, fee: nat, fate: Fate)
    requires v.phase.Pricing? && Perform(x, v, Record(fee, fate)).Some?
    ensures var p := v.phase;
            var body := if p.goal.Pay? then Credit(p.goal.to, x.snap.pool, x.snap.amount, x.snap.asset)
                        else Recovery(x.snap.pool, x.snap.amount, x.snap.asset);
            var tx := Tx(body, p.source, p.sequence, fee, p.until);
            var w := Perform(x, v, Record(fee, fate)).value;
            && w.chain == v.chain
            && w.row == (if fate == Lost || tx in x.claims then v.row
                         else v.row.(submitted := Some(Submission(tx, p.until)), updatedAt := x.now))
            && (w.phase.Sending? ==>
                  fate == Kept && tx !in x.claims && w.phase == Sending(p.goal, p.attempt, p.bump, tx, 0))
            && (!w.phase.Sending? ==>
                  && (fate != Kept || tx in x.claims)
                  && w.phase == AfterFault(x.cfg, x.who, p.goal, p.attempt,
                                  if fate == Kept then Contention else Transient))
  {
  }

  /** What each reply to sendTransaction leads to. A rejection, once its hash is
      cleared, is the fault its code says, unless a higher fee may still be bid:
      then the same sequence number and max time are used again. */
  lemma SendGoes(x: Scene, y: Scene, v: View, reply: SendReply, r: Row, c: Chain, fate: Fate)
    requires v.phase.Sending? && Perform(x, v, Send(reply)).Some? && Later(x, y)
    ensures var p := v.phase; var m := Perform(x, v, Send(reply)).value;
            && m.row == v.row
            && m.chain == (if reply == Queued || reply == Broken(true) then Accept(v.chain, p.tx, x.key) else v.chain)
            && (reply == Queued ==> m.phase == Polling(p.goal, p.attempt, p.tx))
            && (reply.Broken? ==> m.phase == AfterFault(x.cfg, x.who, p.goal, p.attempt, Unconfirmed))
            && (reply == TryLater && p.tries < x.cfg.tryAgain ==> m.phase == p.(tries := p.tries + 1))
    ensures var p := v.phase; var w := Perform(y, View(r, Perform(x, v, Send(reply)).value.phase, c), Write(fate));
            w.Some? && (reply.Rejected? || (reply == TryLater && p.tries >= x.cfg.tryAgain)) ==>
              var fault := if reply == TryLater then Transient else FaultOf(reply.result);
              && (if fate.Applied() then LetsGo(r, w.value.row) else w.value.row == r)
              && w.value.phase
                 == if fault == FeeTooLow && p.bump < x.cfg.feeRetries
                    then Pricing(p.goal, p.attempt, p.bump + 1, p.tx.maxTime, p.tx.source, p.tx.sequence)
                    else AfterFault(x.cfg, x.who, p.goal, p.attempt, if fault == FeeTooLow then Transient else fault)
  {
  }

  /** What each end of the poll leaves: the landed transfer settles the row; one
      that failed in its ledger is let go of first; one not seen is kept. */
  lemma PollGoes(x: Scene, y: Scene, v: View, seen: PollReply, r: Row, c: Chain, fate: Fate)
    requires v.phase.Polling? && Perform(x, v, Poll(seen)).Some? && Later(x, y)
    ensures seen == Unseen ==>
              Perform(x, v, Poll(seen)).value.phase
              == AfterFault(x.cfg, x.who, v.phase.goal, v.phase.attempt, Unconfirmed)
    ensures var p := v.phase; var w := Perform(y, View(r, Perform(x, v, Poll(seen)).value.phase, c), Write(fate));
            w.Some? && fate.Applied() ==>
              && (seen == SeenOk ==>
                    && w.value.row.status == (if p.goal == Return then Swept else Done)
                    && w.value.row.forwardTx == Some(p.tx) && w.value.row.submitted == None
                    && w.value.row.retries == r.retries && w.value.phase == Over)
              && (seen.SeenFailed? ==>
                    && LetsGo(r, w.value.row)
                    && w.value.phase == AfterFault(x.cfg, x.who, p.goal, p.attempt, FaultOf(seen.result)))
  {
  }

  // ---- Where a deposit goes ----

  /** The routing step: a retry first closes a row at the ceiling, then finishes a
      sweep already decided; either worker returns an asset not accepted, an
      unknown memo and a late landing, waits on a failed lookup, and otherwise
      pays the intent's address. */
  lemma RouteGoes(x: Scene, y: Scene, v: View, reached: bool, r: Row, c: Chain, fate: Fate)
    requires v.phase == Deciding && Perform(x, v, Route(reached)).Some? && Later(x, y)
    ensures var p := Perform(x, v, Route(reached)).value.phase;
            var w := Perform(y, View(r, p, c), Write(fate));
            var known := x.snap.memo in x.intents;
            var closes := x.who == Retrier && x.snap.retries >= x.cfg.maxRetries;
            var finishes := x.who == Retrier && !closes && x.snap.sweep;
            var sweeps := !closes && !finishes
                           && (!x.cfg.Accepts(x.snap.asset)
                               || (reached && !known)
                               || (reached && x.snap.landedAt > x.intents[x.snap.memo].expiresAt));
            && (finishes ==> p == Drafting(Return, 0))
            && (sweeps ==> p == MarkingSweep)
            && (!closes && !finishes && !sweeps && reached ==>
                  p == Drafting(Pay(x.intents[x.snap.memo].cAddress), 0))
            && (w.Some? && fate.Applied() ==>
                  && (closes ==> GivesUp(r, w.value.row, AtCeiling))
                  && (!closes && !finishes && !sweeps && !reached ==> IsCharged(r, w.value.row, PendingRetry)))
  {
  }

  /** A sweep starts only from a decision known to be on the row. */
  lemma SweepGoes(x: Scene, y: Scene, v: View, first: Fate, r: Row, c: Chain, fate: Fate)
    requires v.phase == MarkingSweep && Perform(x, v, Write(first)).Some? && Later(x, y)
    ensures var m := Perform(x, v, Write(first)).value;
            && m.row == (if first.Applied() then v.row.(sweep := true, updatedAt := x.now) else v.row)
            && (m.phase == Drafting(Return, 0) <==> first == Kept)
            && var w := Perform(y, View(r, m.phase, c), Write(fate));
               w.Some? && first != Kept && fate.Applied() ==> IsCharged(r, w.value.row, PendingRetry)
  {
  }
}
