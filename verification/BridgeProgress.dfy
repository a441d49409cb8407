/** No deposit is ever stuck: whatever has happened, the retry worker can still
    bring it to the end its landing calls for. */
module BridgeProgress {
  import opened Common
  import opened Ledger
  import opened Resolution
  import opened ForwardTable
  import opened Bridge
  import opened BridgeProof
  import opened BridgeTheorems

  /** The retry worker is at `phase` with the deposit, its row written in the past. */
  predicate Works(s: State, key: string, snap: Row, row: Row, phase: Phase) {
    && key in s.cells && s.cells[key].retry == Running(snap, phase) && s.cells[key].row == row
    && snap.key == key && row.updatedAt <= s.now
  }

  /** What a call of the retry worker's leaves as it was. */
  predicate Elsewhere(s: State, t: State, key: string) {
    && t.now == s.now && t.intents == s.intents
    && t.cells.Keys == s.cells.Keys && forall k :: k in s.cells && k != key ==> t.cells[k] == s.cells[k]
  }

  lemma Call(cfg: Config, s: State, key: string, snap: Row, row: Row, phase: Phase, a: Action, w: View)
    returns (t: State)
    requires Reachable(cfg, s) && Works(s, key, snap, row, phase)
    requires Perform(At(cfg, s, key, Retrier, snap), View(row, phase, s.chain), a) == Some(w)
    ensures Reachable(cfg, t) && Elsewhere(s, t, key) && t.chain == w.chain
    ensures key in t.cells && t.cells[key].row == w.row
    ensures w.phase != Over ==> t.cells[key].retry == Running(snap, w.phase)
  {
    t := Take(cfg, s, RetryDoes(key, a));
  }

  /** Time passes, and the worker is where it was. */
  lemma Pause(cfg: Config, s: State, key: string, snap: Row, row: Row, phase: Phase, to: int) returns (t: State)
    requires Reachable(cfg, s) && Works(s, key, snap, row, phase) && s.now <= to
    ensures Reachable(cfg, t) && t == s.(now := to) && Works(t, key, snap, row, phase)
  {
    t := Take(cfg, s, Elapse(to));
  }

  /** The phases that write, and the row each writes when its statement is kept. */
  function Writes(row: Row, phase: Phase, now: int): Option<(Row, Phase)> {
    match phase
    case MarkingSweep => Some((row.MarkedSweep(now), Drafting(Return, 0)))
    case Forgetting(Resume) => Some((row.Cleared(now), Deciding))
    case Closing(verdict) => Some((Conclude(row, verdict, now), Over))
    case _ => None
  }

  lemma Put(cfg: Config, s: State, key: string, snap: Row, row: Row, phase: Phase) returns (t: State)
    requires Reachable(cfg, s) && Works(s, key, snap, row, phase) && Writes(row, phase, s.now + 1).Some?
    ensures var to := Writes(row, phase, s.now + 1).value;
            && Reachable(cfg, t) && Elsewhere(s.(now := s.now + 1), t, key) && t.chain == s.chain
            && key in t.cells && t.cells[key].row == to.0
            && (to.1 != Over ==> Works(t, key, snap, to.0, to.1))
  {
    var to := Writes(row, phase, s.now + 1).value;
    t := Pause(cfg, s, key, snap, row, phase, s.now + 1);
    t := Call(cfg, t, key, snap, row, phase, Write(Kept), View(to.0, to.1, t.chain));
  }

  // ---- Taking the deposit up ----

  /** After a crash and a long enough silence the retry worker can take up any row
      that is not final, and what was in flight has either landed or expired. */
  lemma TakeUp(cfg: Config, s: State, key: string) returns (t: State, row: Row)
    requires cfg.Ok() && 0 < cfg.batch && Reachable(cfg, s) && key in s.cells && !s.cells[key].row.status.Final()
    ensures Reachable(cfg, t) && Works(t, key, s.cells[key].row, row, FirstPhase(s.cells[key].row))
    ensures row == s.cells[key].row.(updatedAt := row.updatedAt)
    ensures t.intents == s.intents && t.chain.queued == s.chain.queued && t.chain.landed == s.chain.landed
    ensures row.submitted.Some? ==>
              row.submitted.value.until < t.chain.closed && row.submitted.value.until == row.submitted.value.tx.maxTime
    ensures 0 < t.chain.closed
  {
    ReachableKeeps(cfg, s);
    var r := s.cells[key].row;
    assert CellOk(cfg, s.now, s.intents, s.chain, key, s.cells[key]);
    t := Take(cfg, s, Crash);
    t := Close(cfg, t, if r.submitted.Some? then r.submitted.value.until else 0);
    t := Take(cfg, t, Elapse(t.now + cfg.cutoff + 1));
    t := Fetch(cfg, t, key, r);
    row := t.cells[key].row;
  }

  /** The row is fetched and taken up, with nobody else at work. */
  lemma Fetch(cfg: Config, s: State, key: string, r: Row) returns (t: State)
    requires 0 < cfg.batch && Reachable(cfg, s) && key in s.cells && s.cells[key] == Cell(r, NoJob, None, Idle)
    requires s.busy == None && forall k :: k in s.cells ==> s.cells[k].ticket == None
    requires !r.status.Final() && r.updatedAt < s.now - cfg.cutoff && r.key == key
    ensures Reachable(cfg, t) && t.now == s.now && t.intents == s.intents && t.chain == s.chain && key in t.cells
    ensures Works(t, key, r, t.cells[key].row, FirstPhase(r))
    ensures t.cells[key].row == r.(updatedAt := t.cells[key].row.updatedAt)
  {
    t := Take(cfg, s, Tick({key}));
    assert t.cells[key] == Fetched(s.cells[key]);
    t := Take(cfg, t, PickUp(key, Kept));
  }

  lemma Close(cfg: Config, s: State, past: int) returns (t: State)
    requires Reachable(cfg, s)
    ensures Reachable(cfg, t) && t == s.(chain := t.chain) && past < t.chain.closed && 0 < t.chain.closed
    ensures t.chain.queued == s.chain.queued && t.chain.landed == s.chain.landed
  {
    var at := s.chain.closed + 1;
    if at <= past { at := past + 1; }
    if at <= 0 { at := 1; }
    t := Take(cfg, s, CloseLedger(at, map[]));
    assert t.chain.landed == s.chain.landed;
  }

  // ---- Resolving what was in flight ----

  /** A true answer once the transfer has landed or expired. */
  function TrueAnswer(validity: nat, c: Chain, sub: Submission): Response {
    var oldest := sub.until - validity;
    Response(if sub.tx !in c.landed then NotFound else if c.landed[sub.tx].ok then FoundOk else FoundFailed(Unreadable),
             if oldest == 0 then -1 else oldest, c.closed)
  }

  lemma TrueAnswerOk(validity: nat, grace: nat, now: int, c: Chain, sub: Submission)
    requires sub.until < c.closed && 0 < c.closed
    ensures var resp := TrueAnswer(validity, c, sub);
            && Truthful(c, sub.tx, resp) && ReportsRange(resp)
            && Resolve(validity, grace, resp, sub.until, now)
               == if sub.tx in c.landed && c.landed[sub.tx].ok then Settled else Rebuild
  {
    var resp := TrueAnswer(validity, c, sub);
    assert Answers(c, sub.tx, resp, resp.oldest, resp.latest);
  }

  predicate HadLanded(c: Chain, sub: Submission) { sub.tx in c.landed && c.landed[sub.tx].ok }

  /** RPC's true answer: the worker goes on to record the landing, or to clear. */
  lemma Ask(cfg: Config, s: State, key: string, snap: Row, row: Row, sub: Submission) returns (t: State)
    requires Reachable(cfg, s) && Works(s, key, snap, row, Resolving(sub))
    requires sub.until < s.chain.closed && 0 < s.chain.closed
    ensures Reachable(cfg, t) && t.intents == s.intents && t.chain == s.chain && t.now == s.now
    ensures Works(t, key, snap, row,
              if !HadLanded(s.chain, sub) then Forgetting(Resume)
              else Closing(if snap.sweep then RecordSwept(sub.tx) else RecordDone(sub.tx)))
  {
    var resp := TrueAnswer(cfg.validity, s.chain, sub);
    TrueAnswerOk(cfg.validity, cfg.grace, s.now, s.chain, sub);
    t := Take(cfg, s, RetryDoes(key, Answer(resp)));
  }

  /** What was in flight settles the row if it landed, and is cleared if not. */
  lemma Clear(cfg: Config, s: State, key: string, snap: Row, row: Row) returns (t: State, cleared: Row)
    requires Reachable(cfg, s) && snap.submitted.Some? && Works(s, key, snap, row, Resolving(snap.submitted.value))
    requires snap.submitted.value.until < s.chain.closed && 0 < s.chain.closed
    ensures Reachable(cfg, t) && t.intents == s.intents && t.chain == s.chain
    ensures key in t.cells && t.cells[key].row == cleared && cleared.SameDeposit(row)
    ensures var tx := snap.submitted.value.tx;
            if HadLanded(s.chain, snap.submitted.value)
            then cleared.status == (if snap.sweep then Swept else Done) && cleared.forwardTx == Some(tx)
            else
              && Works(t, key, snap, cleared, Deciding)
              && cleared == row.(submitted := None, updatedAt := cleared.updatedAt)
  {
    var sub := snap.submitted.value;
    t := Ask(cfg, s, key, snap, row, sub);
    t := Put(cfg, t, key, snap, row, t.cells[key].retry.phase);
    cleared := t.cells[key].row;
  }

  // ---- Paying ----

  lemma {:induction false} SequenceAbove(txs: set<Tx>) returns (n: int)
    ensures forall tx :: tx in txs ==> tx.sequence < n
    decreases txs
  {
    n := 0;
    if txs != {} {
      var tx :| tx in txs;
      n := SequenceAbove(txs - {tx});
      if n <= tx.sequence { n := tx.sequence + 1; }
    }
  }

  /** A transfer no row claims and the network has never seen is drafted and
      recorded, at a time when its first ledger is still to close. */
  lemma Prepare(cfg: Config, s: State, key: string, snap: Row, row: Row, goal: Goal) returns (t: State, tx: Tx)
    requires 0 < cfg.second && Reachable(cfg, s) && Works(s, key, snap, row, Drafting(goal, 0))
    ensures Reachable(cfg, t) && t.intents == s.intents && t.chain == s.chain
    ensures tx.body == BodyFor(goal, snap) && tx !in s.chain.queued && s.chain.closed < tx.maxTime - cfg.validity
    ensures key in t.cells
    ensures var to := row.Recorded(tx, tx.maxTime, t.now); Works(t, key, snap, to, Sending(goal, 0, 0, tx, 0))
  {
    var to := s.now + 1;
    if to <= s.chain.closed { to := s.chain.closed + 1; }
    var u := Pause(cfg, s, key, snap, row, Drafting(goal, 0), to);
    var claims := ClaimsOfOthers(u, key);
    var sequence := SequenceAbove(claims + s.chain.queued.Keys);
    var until := to + cfg.validity;
    tx := Tx(BodyFor(goal, snap), "", sequence, 100, until);
    var drafted := Pricing(goal, 0, 0, until, "", sequence);
    t := Call(cfg, u, key, snap, row, Drafting(goal, 0), Draft("", sequence, until), View(row, drafted, u.chain));
    assert ClaimsOfOthers(t, key) == claims;
    var recorded := row.Recorded(tx, until, t.now);
    t := Call(cfg, t, key, snap, row, drafted, Record(100, Kept),
      View(recorded, Sending(goal, 0, 0, tx, 0), t.chain));
  }

  /** It is sent, lands, is seen to, and settles the row. */
  lemma Pay(cfg: Config, s: State, key: string, snap: Row, row: Row, goal: Goal) returns (t: State, tx: Tx)
    requires cfg.Ok() && 0 < cfg.second && Reachable(cfg, s) && Works(s, key, snap, row, Drafting(goal, 0))
    ensures Reachable(cfg, t) && t.intents == s.intents && tx.body == BodyFor(goal, snap)
    ensures Paid(t.chain, key, tx) && tx !in s.chain.queued
    ensures key in t.cells && t.cells[key].row.status == (if goal == Return then Swept else Done)
    ensures t.cells[key].row.forwardTx == Some(tx) && t.cells[key].row.SameDeposit(row)
  {
    ReachableKeeps(cfg, s);
    t, tx := Prepare(cfg, s, key, snap, row, goal);
    var recorded := t.cells[key].row;
    t := Call(cfg, t, key, snap, recorded, Sending(goal, 0, 0, tx, 0), Send(Queued),
      View(recorded, Polling(goal, 0, tx), Accept(t.chain, tx, key)));
    t := Land(cfg, t, tx, tx.maxTime - cfg.validity);
    t := See(cfg, t, key, snap, recorded, goal, tx);
  }

  lemma See(cfg: Config, s: State, key: string, snap: Row, row: Row, goal: Goal, tx: Tx) returns (t: State)
    requires Reachable(cfg, s) && Works(s, key, snap, row, Polling(goal, 0, tx)) && Paid(s.chain, key, tx)
    ensures Reachable(cfg, t) && t.intents == s.intents && t.chain == s.chain && key in t.cells
    ensures t.cells[key].row
            == if goal == Return then row.MarkedSwept(tx, s.now + 1) else row.MarkedDone(tx, s.now + 1)
  {
    var verdict := if goal == Return then RecordSwept(tx) else RecordDone(tx);
    t := Call(cfg, s, key, snap, row, Polling(goal, 0, tx), Poll(SeenOk), View(row, Closing(verdict), s.chain));
    t := Put(cfg, t, key, snap, row, Closing(verdict));
  }

  lemma Land(cfg: Config, s: State, tx: Tx, at: int) returns (t: State)
    requires Reachable(cfg, s) && tx in s.chain.queued && tx !in s.chain.landed
    requires s.chain.closed < at && at == tx.maxTime - cfg.validity
    ensures Reachable(cfg, t) && t == s.(chain := t.chain) && t.chain.queued == s.chain.queued
    ensures tx in t.chain.landed && t.chain.landed[tx].ok
  {
    var landings := map[tx := Landing(at, true, 0)];
    assert LandingOk(cfg.validity, at, tx, landings[tx]);
    t := Take(cfg, s, CloseLedger(at, landings));
  }

  // ---- Where it ends ----

  /** With nothing left in flight the worker routes the deposit, and sees it to its
      end: closed at the ceiling, returned, or credited. */
  lemma Route(cfg: Config, s: State, key: string, snap: Row, row: Row) returns (t: State)
    requires cfg.Ok() && 0 < cfg.second && Reachable(cfg, s) && Works(s, key, snap, row, Deciding)
    requires row.SameDeposit(snap)
    ensures Reachable(cfg, t) && key in t.cells && t.intents == s.intents
    ensures EndsRight(cfg, snap, t, key)
  {
    var p := Bridge.Route(true);
    if snap.retries >= cfg.maxRetries {
      t := Call(cfg, s, key, snap, row, Deciding, p, View(row, Closing(GiveUp(AtCeiling)), s.chain));
      t := Put(cfg, t, key, snap, row, Closing(GiveUp(AtCeiling)));
    } else if snap.sweep {
      t := Call(cfg, s, key, snap, row, Deciding, p, View(row, Drafting(Return, 0), s.chain));
      var tx;
      t, tx := Pay(cfg, t, key, snap, row, Return);
    } else if !Creditable(cfg, snap, s.intents) {
      t := Call(cfg, s, key, snap, row, Deciding, p, View(row, MarkingSweep, s.chain));
      t := Put(cfg, t, key, snap, row, MarkingSweep);
      var tx;
      t, tx := Pay(cfg, t, key, snap, t.cells[key].row, Return);
    } else {
      var goal := Goal.Pay(s.intents[snap.memo].cAddress);
      t := Call(cfg, s, key, snap, row, Deciding, p, View(row, Drafting(goal, 0), s.chain));
      var tx;
      t, tx := Pay(cfg, t, key, snap, row, goal);
    }
  }

  /** The end a deposit comes to when nothing sent for it before has paid it. */
  ghost predicate EndsRight(cfg: Config, was: Row, t: State, key: string)
    requires key in t.cells
  {
    var r := t.cells[key].row;
    if was.retries >= cfg.maxRetries then r.status == Failed && r.note == AtCeiling
    else
      && r.forwardTx.Some? && Paid(t.chain, key, r.forwardTx.value)
      && if was.sweep || !Creditable(cfg, was, t.intents) then
           r.status == Swept && r.forwardTx.value.body == Recovery(was.pool, was.amount, was.asset)
         else
           && r.status == Done
           && r.forwardTx.value.body == Credit(t.intents[was.memo].cAddress, was.pool, was.amount, was.asset)
  }

  /** From every reachable state every deposit whose row is not final can be brought
      to its end. If the transfer on its row landed, it is recorded under it, as done
      or swept; otherwise it is closed at the ceiling, returned to recovery or
      credited to its intent's address, by the one rule. */
  lemma DepositsCanSettle(cfg: Config, s: State, key: string) returns (t: State)
    requires cfg.Ok() && 0 < cfg.second && 0 < cfg.batch && Reachable(cfg, s)
    requires key in s.cells && !s.cells[key].row.status.Final()
    ensures Reachable(cfg, t) && key in t.cells && t.cells[key].row.status.Final()
    ensures var r, q := s.cells[key].row, t.cells[key].row;
            if r.submitted.Some? && HadLanded(s.chain, r.submitted.value)
            then q.status == (if r.sweep then Swept else Done) && q.forwardTx == Some(r.submitted.value.tx)
            else EndsRight(cfg, r, t, key) && t.intents == s.intents
  {
    var r := s.cells[key].row;
    var row;
    t, row := TakeUp(cfg, s, key);
    var settled := r.submitted.Some? && HadLanded(s.chain, r.submitted.value);
    if r.submitted.Some? { t, row := Clear(cfg, t, key, r, row); }
    if !settled { t := Route(cfg, t, key, r, row); }
  }
}
