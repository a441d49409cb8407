/** The invariant behind the deposit bridge's guarantees, and that every step
    keeps it. */
module BridgeProof {
  import opened Common
  import opened Ledger
  import opened Resolution
  import opened ForwardTable
  import opened Bridge

  // ---- The invariant ----

  /** The payment this deposit is owed: its recovery once swept, else a credit to
      the address its intent names. */
  predicate Owed(r: Row, intents: map<nat, Intent>, tx: Tx) {
    if r.sweep then tx.body == BodyFor(Return, r)
    else r.memo in intents && tx.body == BodyFor(Pay(intents[r.memo].cAddress), r)
  }

  predicate Paid(c: Chain, key: string, tx: Tx) {
    tx in c.queued && c.queued[tx] == key && tx in c.landed && c.landed[tx].ok
  }

  /** Whatever has paid this deposit, or still can, is on its row. */
  ghost predicate OnlyHeld(c: Chain, key: string, r: Row) {
    forall tx :: tx in c.queued && c.queued[tx] == key && Live(c, tx) ==> tx in r.Held()
  }

  /** The payment landed; and it was sent for this deposit, provided no transfer
      was ever rebuilt on an answer without its range. */
  predicate PaidFor(cfg: Config, c: Chain, key: string, tx: Tx) {
    tx in c.landed && c.landed[tx].ok && (cfg.reports ==> Paid(c, key, tx))
  }

  /** On the same proviso, nothing sent for the deposit has paid it or still can. */
  ghost predicate Silent(cfg: Config, c: Chain, key: string) { cfg.reports ==> Quiet(c, key) }

  ghost predicate RowOk(cfg: Config, intents: map<nat, Intent>, c: Chain, key: string, r: Row) {
    && r.key == key && r.createdAt <= r.updatedAt && (r.updatedAt == r.createdAt ==> r.Fresh())
    && r.retries <= cfg.maxRetries && (r.note == AtCeiling ==> r.retries == cfg.maxRetries)
    && (r.note != NoNote ==> r.status == Failed)
    && (r.forwardTx.Some? <==> r.status == Done || r.status == Swept)
    && (r.forwardTx.Some? ==> r.submitted == None && (r.sweep <==> r.status == Swept))
    && (r.forwardTx.Some? ==> PaidFor(cfg, c, key, r.forwardTx.value) && Owed(r, intents, r.forwardTx.value))
    && (r.submitted.Some? ==>
          r.submitted.value.until == r.submitted.value.tx.maxTime && Owed(r, intents, r.submitted.value.tx))
    && (cfg.reports ==> OnlyHeld(c, key, r))
  }

  /** The goal agrees with the row, and one more charge still fits. */
  ghost predicate MayPay(cfg: Config, intents: map<nat, Intent>, r: Row, goal: Goal) {
    && r.retries < cfg.maxRetries
    && match goal
       case Pay(to) => !r.sweep && r.memo in intents && intents[r.memo].cAddress == to
       case Return => r.sweep
  }

  predicate SnapOk(r: Row, snap: Row) { snap.retries == r.retries && snap.sweep == r.sweep }

  ghost predicate VerdictOk(cfg: Config, c: Chain, key: string, r: Row, v: Verdict) {
    match v
    case RecordDone(tx) => !r.sweep && r.submitted.Some? && r.submitted.value.tx == tx && PaidFor(cfg, c, key, tx)
    case RecordSwept(tx) => r.sweep && r.submitted.Some? && r.submitted.value.tx == tx && PaidFor(cfg, c, key, tx)
    case Requeue => true
    case Charge => r.retries < cfg.maxRetries
    case ChargeAndFail => r.retries < cfg.maxRetries
    case GiveUp(why) => why == AtCeiling ==> r.retries == cfg.maxRetries
  }

  ghost predicate NextOk(cfg: Config, intents: map<nat, Intent>, r: Row, snap: Row, next: Next) {
    match next
    case Resume => SnapOk(r, snap)
    case Reprice(goal, _, _, _, _, _) => MayPay(cfg, intents, r, goal)
    case Report(goal, _, _) => MayPay(cfg, intents, r, goal)
  }

  /** What a worker may rely on at each call. */
  ghost predicate PhaseOk(cfg: Config, intents: map<nat, Intent>, c: Chain, key: string, r: Row, snap: Row, p: Phase) {
    && (r.status == Pending || r.status == PendingRetry)
    && r.SameDeposit(snap)
    && match p
       case Resolving(sub) => r.submitted == Some(sub) && SnapOk(r, snap)
       case Deciding => r.submitted == None && SnapOk(r, snap)
       case MarkingSweep => r.submitted == None && r.retries < cfg.maxRetries
       case Drafting(goal, _) => MayPay(cfg, intents, r, goal) && Silent(cfg, c, key)
       case Pricing(goal, _, _, _, _, _) => MayPay(cfg, intents, r, goal) && Silent(cfg, c, key)
       case Sending(goal, _, _, tx, _) =>
         MayPay(cfg, intents, r, goal) && Silent(cfg, c, key) && r.submitted == Some(Submission(tx, tx.maxTime))
       case Polling(goal, _, tx) => MayPay(cfg, intents, r, goal) && r.submitted == Some(Submission(tx, tx.maxTime))
       case Forgetting(next) => Silent(cfg, c, key) && NextOk(cfg, intents, r, snap, next)
       case Closing(verdict) => VerdictOk(cfg, c, key, r, verdict)
       case Over => false
  }

  /** A watcher worker starts from an untouched row and never resolves one. */
  predicate ActorOk(who: Actor, r: Row, p: Phase) {
    who == Watcher ==>
      !p.Resolving? && p != Forgetting(Resume) && (p == Deciding ==> !r.sweep && r.retries == 0)
  }

  /** When a watcher worker's hold runs out. */
  function Horizon(cfg: Config, w: Watch): int
    requires w.Claimed? || w.Active?
  {
    if w.Claimed? then w.at + cfg.Hold() else w.deadline
  }

  /** The watcher worker can still act on the deposit. */
  predicate Holding(cfg: Config, now: int, w: Watch) {
    (w.Claimed? || w.Active?) && now <= Horizon(cfg, w)
  }

  /** Phases a worker can be in before its first write to the row. */
  predicate Unwritten(p: Phase) { p.Deciding? || p.MarkingSweep? || p.Drafting? || p.Pricing? || p.Closing? }

  /** The watcher worker has changed nothing since its claim. */
  predicate Untouched(cell: Cell) { cell.row.Fresh() && (cell.watch.Active? ==> Unwritten(cell.watch.phase)) }

  /** The one instant two workers may share: the watcher worker's last, in which
      the retry worker took the row. Neither has written, and neither can any
      more before that instant is over. */
  predicate Overlapping(cfg: Config, now: int, cell: Cell)
    requires cell.watch.Claimed? || cell.watch.Active?
  {
    && cfg.Hold() == cfg.cutoff + 1 && Untouched(cell)
    && cell.retry.Running? && Unwritten(cell.retry.phase)
    && now <= cell.row.updatedAt && Horizon(cfg, cell.watch) <= cell.row.updatedAt
  }

  /** The watcher worker's last instant, if the retry worker may fetch in it. */
  predicate LastInstant(cfg: Config, now: int, cell: Cell)
    requires cell.watch.Claimed? || cell.watch.Active?
  {
    cfg.Hold() == cfg.cutoff + 1 && Untouched(cell) && Horizon(cfg, cell.watch) <= now
  }

  ghost predicate WatchOk(cfg: Config, now: int, intents: map<nat, Intent>, c: Chain, key: string, cell: Cell) {
    && ((cell.watch.Claimed? || cell.watch.Active?) ==>
          && cell.row.createdAt < cell.row.updatedAt
          && Horizon(cfg, cell.watch) <= cell.row.updatedAt + cfg.Hold()
          && (Untouched(cell) || Horizon(cfg, cell.watch) < cell.row.updatedAt + cfg.Hold()))
    && (Holding(cfg, now, cell.watch) ==>
          && cell.row.status == Pending && (cell.retry == Idle || Overlapping(cfg, now, cell))
          && (cell.ticket.Some? ==> cell.ticket.value.updatedAt < cell.row.updatedAt || LastInstant(cfg, now, cell))
          && (cell.watch.Claimed? ==> cell.row.Fresh())
          && (cell.watch.Active? ==>
                && PhaseOk(cfg, intents, c, key, cell.row, cell.row, cell.watch.phase)
                && ActorOk(Watcher, cell.row, cell.watch.phase)))
  }

  ghost predicate TicketOk(cell: Cell) {
    cell.ticket.Some? ==>
      var t := cell.ticket.value;
      && cell.retry == Idle && t.SameDeposit(cell.row) && t.updatedAt <= cell.row.updatedAt
      && (t.status == Pending || t.status == PendingRetry)
      && (t.status == PendingRetry || t.updatedAt == cell.row.updatedAt ==> cell.row == t)
  }

  ghost predicate RetryOk(cfg: Config, intents: map<nat, Intent>, c: Chain, key: string, cell: Cell) {
    cell.retry.Running? ==>
      && PhaseOk(cfg, intents, c, key, cell.row, cell.retry.snap, cell.retry.phase)
      && cell.row.createdAt < cell.row.updatedAt
  }

  ghost predicate CellOk(cfg: Config, now: int, intents: map<nat, Intent>, c: Chain, key: string, cell: Cell) {
    && cell.row.updatedAt <= now
    && RowOk(cfg, intents, c, key, cell.row)
    && WatchOk(cfg, now, intents, c, key, cell)
    && TicketOk(cell)
    && RetryOk(cfg, intents, c, key, cell)
  }

  ghost predicate SeparateCells(cells: map<string, Cell>) {
    forall j, k :: j in cells && k in cells && j != k ==> cells[j].row.Held() !! cells[k].row.Held()
  }

  ghost predicate Inv(cfg: Config, s: State) {
    && ChainOk(cfg.validity, s.chain)
    && (forall tx :: tx in s.chain.queued ==> s.chain.queued[tx] in s.cells)
    && SeparateCells(s.cells)
    && (forall k {:trigger CellOk(cfg, s.now, s.intents, s.chain, k, s.cells[k])} :: k in s.cells ==>
          CellOk(cfg, s.now, s.intents, s.chain, k, s.cells[k]))
    && (forall k :: k in s.cells && s.cells[k].retry.Running? ==> s.busy == Some(k))
  }

  // ---- One worker's call ----

  /** A live transaction on this row was sent for this deposit. */
  ghost predicate Owns(c: Chain, key: string, r: Row) {
    forall tx :: tx in r.Held() && Live(c, tx) ==> c.queued[tx] == key
  }

  ghost predicate Before(x: Scene, v: View) {
    && x.cfg.Positive() && ChainOk(x.cfg.validity, v.chain) && RowOk(x.cfg, x.intents, v.chain, x.key, v.row)
    && PhaseOk(x.cfg, x.intents, v.chain, x.key, v.row, x.snap, v.phase)
    && (x.cfg.reports ==> Owns(v.chain, x.key, v.row))
    && ActorOk(x.who, v.row, v.phase)
  }

  ghost predicate After(x: Scene, v: View, w: View) {
    && RowOk(x.cfg, x.intents, w.chain, x.key, w.row)
    && (w.phase != Over ==>
          && w.row.status == v.row.status && ActorOk(x.who, w.row, w.phase)
          && PhaseOk(x.cfg, x.intents, w.chain, x.key, w.row, x.snap, w.phase))
    && w.row.SameDeposit(v.row)
    && (w.row == v.row || v.row.updatedAt < w.row.updatedAt == x.now)
    && (w.chain == v.chain || exists tx :: tx in v.row.Held() && w.chain == Accept(v.chain, tx, x.key))
    && (w.row.Held() - v.row.Held()) !! x.claims
  }

  lemma FaultPhaseOk(
    cfg: Config, who: Actor, key: string, intents: map<nat, Intent>, c: Chain, r: Row, snap: Row, goal: Goal,
    attempt: nat, fault: Fault)
    requires r.status == Pending || r.status == PendingRetry
    requires r.SameDeposit(snap) && MayPay(cfg, intents, r, goal)
    requires fault == Unconfirmed || Silent(cfg, c, key)
    ensures var p := AfterFault(cfg, who, goal, attempt, fault);
            PhaseOk(cfg, intents, c, key, r, snap, p) && ActorOk(who, r, p) && p != Over
  {
  }

  lemma ResolvingKeeps(x: Scene, v: View, a: Action)
    requires Before(x, v) && v.phase.Resolving?
    requires Perform(x, v, a).Some?
    ensures After(x, v, Perform(x, v, a).value)
  {
    var tx := v.phase.sub.tx;
    assert tx in v.row.Held();
    if a.Answer? {
      var res := Resolve(x.cfg.validity, x.cfg.grace, a.resp, v.phase.sub.until, x.now);
      if res == Rebuild {
        if x.cfg.reports { RebuildIsSafe(x.cfg.validity, x.cfg.grace, v.chain, tx, a.resp, x.now); }
        assert Silent(x.cfg, v.chain, x.key);
      } else if res == Settled {
        assert Live(v.chain, tx);
      }
    }
  }

  lemma DecidingKeeps(x: Scene, v: View, a: Action)
    requires Before(x, v) && v.phase == Deciding
    requires Perform(x, v, a).Some?
    ensures After(x, v, Perform(x, v, a).value)
  {
    assert Silent(x.cfg, v.chain, x.key);
  }

  lemma MarkingKeeps(x: Scene, v: View, a: Action)
    requires Before(x, v) && v.phase == MarkingSweep
    requires Perform(x, v, a).Some?
    ensures After(x, v, Perform(x, v, a).value)
  {
    assert Silent(x.cfg, v.chain, x.key);
  }

  lemma DraftingKeeps(x: Scene, v: View, a: Action)
    requires Before(x, v) && v.phase.Drafting?
    requires Perform(x, v, a).Some?
    ensures After(x, v, Perform(x, v, a).value)
  {
    if a.Stumble? {
      FaultPhaseOk(x.cfg, x.who, x.key, x.intents, v.chain, v.row, x.snap, v.phase.goal, v.phase.attempt, a.fault);
    }
  }

  lemma PricingKeeps(x: Scene, v: View, a: Action)
    requires Before(x, v) && v.phase.Pricing?
    requires Perform(x, v, a).Some?
    ensures After(x, v, Perform(x, v, a).value)
  {
    var w := Perform(x, v, a).value;
    forall fault | fault != Unconfirmed
      ensures var p := AfterFault(x.cfg, x.who, v.phase.goal, v.phase.attempt, fault);
              PhaseOk(x.cfg, x.intents, v.chain, x.key, w.row, x.snap, p) && ActorOk(x.who, w.row, p) && p != Over
    {
      FaultPhaseOk(x.cfg, x.who, x.key, x.intents, v.chain, w.row, x.snap, v.phase.goal, v.phase.attempt, fault);
    }
  }

  lemma SendingKeeps(x: Scene, v: View, a: Action)
    requires Before(x, v) && v.phase.Sending?
    requires Perform(x, v, a).Some?
    ensures After(x, v, Perform(x, v, a).value)
  {
    var w := Perform(x, v, a).value;
    var tx := v.phase.tx;
    assert tx in v.row.Held();
    AcceptKeeps(x.cfg.validity, v.chain, tx, x.key);
    FaultPhaseOk(x.cfg, x.who, x.key, x.intents, w.chain, v.row, x.snap, v.phase.goal, v.phase.attempt, Unconfirmed);
  }

  lemma PollingKeeps(x: Scene, v: View, a: Action)
    requires Before(x, v) && v.phase.Polling?
    requires Perform(x, v, a).Some?
    ensures After(x, v, Perform(x, v, a).value)
  {
    var tx := v.phase.tx;
    assert tx in v.row.Held();
    FaultPhaseOk(x.cfg, x.who, x.key, x.intents, v.chain, v.row, x.snap, v.phase.goal, v.phase.attempt, Unconfirmed);
    if a.seen.SeenFailed? {
      assert Silent(x.cfg, v.chain, x.key);
    } else if a.seen.SeenOk? {
      assert Live(v.chain, tx);
    }
  }

  lemma ForgettingKeeps(x: Scene, v: View, a: Action)
    requires Before(x, v) && v.phase.Forgetting?
    requires Perform(x, v, a).Some?
    ensures After(x, v, Perform(x, v, a).value)
  {
    var w := Perform(x, v, a).value;
    if v.phase.next.Report? {
      FaultPhaseOk(x.cfg, x.who, x.key, x.intents, v.chain, w.row, x.snap, v.phase.next.goal, v.phase.next.attempt,
        v.phase.next.fault);
    }
  }

  /** The statement that records an outcome leaves a row that tells the truth. */
  lemma ConcludeKeeps(cfg: Config, intents: map<nat, Intent>, c: Chain, key: string, r: Row, verdict: Verdict, now: int)
    requires RowOk(cfg, intents, c, key, r) && r.updatedAt < now
    requires r.status == Pending || r.status == PendingRetry
    requires VerdictOk(cfg, c, key, r, verdict)
    ensures RowOk(cfg, intents, c, key, Conclude(r, verdict, now))
    ensures Conclude(r, verdict, now).Held() == r.Held()
  {
    var d := Conclude(r, verdict, now);
    assert d.Held() == r.Held();
    assert OnlyHeld(c, key, r) ==> OnlyHeld(c, key, d);
  }

  lemma ClosingKeeps(x: Scene, v: View, a: Action)
    requires Before(x, v) && v.phase.Closing?
    requires Perform(x, v, a).Some?
    ensures After(x, v, Perform(x, v, a).value)
  {
    if a.fate.Applied() {
      ConcludeKeeps(x.cfg, x.intents, v.chain, x.key, v.row, v.phase.verdict, x.now);
    }
  }

  /** Every call by either worker keeps the deposit's part of the invariant. */
  lemma PerformKeeps(x: Scene, v: View, a: Action)
    requires Before(x, v)
    requires Perform(x, v, a).Some?
    ensures After(x, v, Perform(x, v, a).value)
  {
    match v.phase
    case Resolving(_) => ResolvingKeeps(x, v, a);
    case Deciding => DecidingKeeps(x, v, a);
    case MarkingSweep => MarkingKeeps(x, v, a);
    case Drafting(_, _) => DraftingKeeps(x, v, a);
    case Pricing(_, _, _, _, _, _) => PricingKeeps(x, v, a);
    case Sending(_, _, _, _, _) => SendingKeeps(x, v, a);
    case Polling(_, _, _) => PollingKeeps(x, v, a);
    case Forgetting(_) => ForgettingKeeps(x, v, a);
    case Closing(_) => ClosingKeeps(x, v, a);
  }

  /** Until it writes, a worker sends nothing either. */
  lemma UnwrittenStays(x: Scene, v: View, a: Action)
    requires Unwritten(v.phase) && Perform(x, v, a).Some? && Perform(x, v, a).value.row == v.row
    ensures var w := Perform(x, v, a).value; w.chain == v.chain && (Unwritten(w.phase) || w.phase == Over)
  {
  }

  // ---- What other deposits' steps leave alone ----

  lemma LaterKeeps(cfg: Config, now: int, later: int, intents: map<nat, Intent>, c: Chain, key: string, cell: Cell)
    requires CellOk(cfg, now, intents, c, key, cell) && now <= later
    ensures CellOk(cfg, later, intents, c, key, cell)
  {
  }

  lemma OthersAcceptKeeps(
    cfg: Config, now: int, intents: map<nat, Intent>, c: Chain, key: string, cell: Cell, tx: Tx, owner: string)
    requires ChainOk(cfg.validity, c) && CellOk(cfg, now, intents, c, key, cell) && key != owner
    ensures CellOk(cfg, now, intents, Accept(c, tx, owner), key, cell)
  {
    var d := Accept(c, tx, owner);
    AcceptKeeps(cfg.validity, c, tx, owner);
    assert RowOk(cfg, intents, d, key, cell.row);
    if Holding(cfg, now, cell.watch) && cell.watch.Active? {
      PhaseGrows(cfg, intents, c, d, key, cell.row, cell.row, cell.watch.phase);
    }
    if cell.retry.Running? { PhaseGrows(cfg, intents, c, d, key, cell.row, cell.retry.snap, cell.retry.phase); }
  }

  lemma PhaseGrows(cfg: Config, intents: map<nat, Intent>, c: Chain, d: Chain, key: string, r: Row, snap: Row, p: Phase)
    requires PhaseOk(cfg, intents, c, key, r, snap, p)
    requires Quiet(c, key) ==> Quiet(d, key)
    requires forall tx :: tx in c.queued ==> tx in d.queued && d.queued[tx] == c.queued[tx]
    requires forall tx :: tx in c.landed ==> tx in d.landed && d.landed[tx] == c.landed[tx]
    ensures PhaseOk(cfg, intents, d, key, r, snap, p)
  {
  }

  /** The chain only forgets ways to pay; whatever a cell relied on stays true. */
  lemma ChainGrowthKeeps(cfg: Config, now: int, intents: map<nat, Intent>, c: Chain, d: Chain, key: string, cell: Cell)
    requires CellOk(cfg, now, intents, c, key, cell)
    requires d.queued == c.queued
    requires forall tx :: tx in c.landed ==> tx in d.landed && d.landed[tx] == c.landed[tx]
    requires forall tx :: Live(d, tx) ==> Live(c, tx)
    ensures CellOk(cfg, now, intents, d, key, cell)
  {
    assert Quiet(c, key) ==> Quiet(d, key);
    assert RowOk(cfg, intents, d, key, cell.row);
    if Holding(cfg, now, cell.watch) && cell.watch.Active? {
      PhaseGrows(cfg, intents, c, d, key, cell.row, cell.row, cell.watch.phase);
    }
    if cell.retry.Running? { PhaseGrows(cfg, intents, c, d, key, cell.row, cell.retry.snap, cell.retry.phase); }
  }

  ghost predicate Extends(a: map<nat, Intent>, b: map<nat, Intent>) {
    forall m :: m in a ==> m in b && b[m].cAddress == a[m].cAddress && b[m].expiresAt == a[m].expiresAt
  }

  lemma IntentsKeep(cfg: Config, now: int, a: map<nat, Intent>, b: map<nat, Intent>, c: Chain, key: string, cell: Cell)
    requires CellOk(cfg, now, a, c, key, cell) && Extends(a, b)
    ensures CellOk(cfg, now, b, c, key, cell)
  {
  }

  // ---- Steps on one cell ----

  lemma OwnsFromInv(cfg: Config, s: State, key: string)
    requires Inv(cfg, s) && key in s.cells
    ensures cfg.reports ==> Owns(s.chain, key, s.cells[key].row)
  {
    forall tx | cfg.reports && tx in s.cells[key].row.Held() && Live(s.chain, tx) ensures s.chain.queued[tx] == key {
      var o := s.chain.queued[tx];
      assert CellOk(cfg, s.now, s.intents, s.chain, o, s.cells[o]);
    }
  }

  /** A new cell that keeps its own invariant and claims nothing others hold
      keeps the whole invariant. */
  lemma PutKeeps(cfg: Config, s: State, key: string, cell: Cell, d: Chain, busy: Option<string>, sent: Option<Tx>)
    requires Inv(cfg, s)
    requires d == if sent.Some? then Accept(s.chain, sent.value, key) else s.chain
    requires CellOk(cfg, s.now, s.intents, d, key, cell)
    requires cell.row.Held() !! ClaimsOfOthers(s, key)
    requires cell.retry.Running? ==> busy == Some(key)
    requires forall k :: k in s.cells && k != key && s.cells[k].retry.Running? ==> busy == Some(k)
    ensures Inv(cfg, Put(s, key, cell).(chain := d, busy := busy))
  {
    var t := Put(s, key, cell).(chain := d, busy := busy);
    if sent.Some? { AcceptKeeps(cfg.validity, s.chain, sent.value, key); }
    forall k | k in t.cells ensures CellOk(cfg, t.now, t.intents, t.chain, k, t.cells[k]) {
      if k != key {
        assert CellOk(cfg, s.now, s.intents, s.chain, k, s.cells[k]);
        if sent.Some? { OthersAcceptKeeps(cfg, s.now, s.intents, s.chain, k, s.cells[k], sent.value, key); }
      }
    }
    forall j, k | j in t.cells && k in t.cells && j != k ensures t.cells[j].row.Held() !! t.cells[k].row.Held() {
      if j == key { HeldByOther(s, key, k); } else if k == key { HeldByOther(s, key, j); }
    }
  }

  lemma HeldByOther(s: State, key: string, j: string)
    requires j in s.cells && j != key
    ensures s.cells[j].row.Held() <= ClaimsOfOthers(s, key)
  {
  }

  lemma OwnClaims(cfg: Config, s: State, key: string)
    requires Inv(cfg, s) && key in s.cells
    ensures s.cells[key].row.Held() !! ClaimsOfOthers(s, key)
  {
  }

  lemma ClaimKeeps(cfg: Config, s: State, key: string, fate: Fate)
    requires cfg.Ok() && Inv(cfg, s) && Apply(cfg, s, Claim(key, fate)).Some?
    ensures Inv(cfg, Apply(cfg, s, Claim(key, fate)).value)
  {
    var t := Apply(cfg, s, Claim(key, fate)).value;
    OwnClaims(cfg, s, key);
    assert CellOk(cfg, s.now, s.intents, s.chain, key, s.cells[key]);
    PutKeeps(cfg, s, key, t.cells[key], s.chain, s.busy, None);
  }

  lemma BeginKeeps(cfg: Config, s: State, key: string)
    requires cfg.Ok() && Inv(cfg, s) && Apply(cfg, s, Begin(key)).Some?
    ensures Inv(cfg, Apply(cfg, s, Begin(key)).value)
  {
    var t := Apply(cfg, s, Begin(key)).value;
    OwnClaims(cfg, s, key);
    assert CellOk(cfg, s.now, s.intents, s.chain, key, s.cells[key]);
    PutKeeps(cfg, s, key, t.cells[key], s.chain, s.busy, None);
  }

  /** Which transaction, if any, a call put on the network. */
  ghost function SentBy(v: View, w: View, key: string): (sent: Option<Tx>)
    requires w.chain == v.chain || exists tx :: tx in v.row.Held() && w.chain == Accept(v.chain, tx, key)
    ensures w.chain == if sent.Some? then Accept(v.chain, sent.value, key) else v.chain
    ensures sent.Some? ==> sent.value in v.row.Held()
  {
    if w.chain == v.chain then None
    else var tx :| tx in v.row.Held() && w.chain == Accept(v.chain, tx, key); Some(tx)
  }

  /** The cell after a watcher worker's call. */
  lemma WatchCell(cfg: Config, s: State, key: string, a: Action, w: View)
    requires cfg.Ok() && Inv(cfg, s) && key in s.cells && s.cells[key].watch.Active?
    requires s.now <= s.cells[key].watch.deadline
    requires var c := s.cells[key];
             Perform(At(cfg, s, key, Watcher, c.row), View(c.row, c.watch.phase, s.chain), a) == Some(w)
    ensures var c := s.cells[key];
            After(At(cfg, s, key, Watcher, c.row), View(c.row, c.watch.phase, s.chain), w)
    ensures var watch := if w.phase == Over then NoJob else s.cells[key].watch.(phase := w.phase);
            CellOk(cfg, s.now, s.intents, w.chain, key, s.cells[key].(row := w.row, watch := watch))
  {
    var c := s.cells[key];
    var x, v := At(cfg, s, key, Watcher, c.row), View(c.row, c.watch.phase, s.chain);
    assert CellOk(cfg, s.now, s.intents, s.chain, key, c);
    OwnsFromInv(cfg, s, key);
    PerformKeeps(x, v, a);
    if Unwritten(c.watch.phase) && w.row == c.row { UnwrittenStays(x, v, a); }
    WatchMoves(x, s.chain, c, w);
  }

  /** A watcher worker's cell moves on with its row and phase. */
  lemma WatchMoves(x: Scene, c: Chain, cell: Cell, w: View)
    requires x.cfg.Ok() && x.who == Watcher && x.snap == cell.row && cell.watch.Active? && x.now <= cell.watch.deadline
    requires CellOk(x.cfg, x.now, x.intents, c, x.key, cell) && After(x, View(cell.row, cell.watch.phase, c), w)
    requires Unwritten(cell.watch.phase) && w.row == cell.row ==>
             w.chain == c && (Unwritten(w.phase) || w.phase == Over)
    ensures var watch := if w.phase == Over then NoJob else cell.watch.(phase := w.phase);
            CellOk(x.cfg, x.now, x.intents, w.chain, x.key, cell.(row := w.row, watch := watch))
  {
    assert w.phase != Over ==> PhaseOk(x.cfg, x.intents, w.chain, x.key, w.row, w.row, w.phase);
  }

  lemma WatchDoesKeeps(cfg: Config, s: State, key: string, a: Action)
    requires cfg.Ok() && Inv(cfg, s) && Apply(cfg, s, WatchDoes(key, a)).Some?
    ensures Inv(cfg, Apply(cfg, s, WatchDoes(key, a)).value)
  {
    var c := s.cells[key];
    var v := View(c.row, c.watch.phase, s.chain);
    var w := Perform(At(cfg, s, key, Watcher, c.row), v, a).value;
    WatchCell(cfg, s, key, a, w);
    OwnClaims(cfg, s, key);
    PutKeeps(cfg, s, key, Apply(cfg, s, WatchDoes(key, a)).value.cells[key], w.chain, s.busy, SentBy(v, w, key));
  }

  /** The cell after a retry's call. */
  lemma RetryCell(cfg: Config, s: State, key: string, a: Action, w: View)
    requires cfg.Ok() && Inv(cfg, s) && key in s.cells && s.cells[key].retry.Running?
    requires var c := s.cells[key];
             Perform(At(cfg, s, key, Retrier, c.retry.snap), View(c.row, c.retry.phase, s.chain), a) == Some(w)
    ensures var c := s.cells[key];
            After(At(cfg, s, key, Retrier, c.retry.snap), View(c.row, c.retry.phase, s.chain), w)
    ensures var retry := if w.phase == Over then Idle else s.cells[key].retry.(phase := w.phase);
            CellOk(cfg, s.now, s.intents, w.chain, key, s.cells[key].(row := w.row, retry := retry))
  {
    var c := s.cells[key];
    var x, v := At(cfg, s, key, Retrier, c.retry.snap), View(c.row, c.retry.phase, s.chain);
    assert CellOk(cfg, s.now, s.intents, s.chain, key, c);
    OwnsFromInv(cfg, s, key);
    PerformKeeps(x, v, a);
    if Unwritten(c.retry.phase) && w.row == c.row { UnwrittenStays(x, v, a); }
    RetryMoves(x, s.chain, c, w);
  }

  lemma RetryMoves(x: Scene, c: Chain, cell: Cell, w: View)
    requires x.cfg.Ok() && x.who == Retrier && cell.retry.Running? && x.snap == cell.retry.snap
    requires CellOk(x.cfg, x.now, x.intents, c, x.key, cell) && After(x, View(cell.row, cell.retry.phase, c), w)
    requires Unwritten(cell.retry.phase) && w.row == cell.row ==>
             w.chain == c && (Unwritten(w.phase) || w.phase == Over)
    ensures var retry := if w.phase == Over then Idle else cell.retry.(phase := w.phase);
            CellOk(x.cfg, x.now, x.intents, w.chain, x.key, cell.(row := w.row, retry := retry))
  {
  }

  lemma RetryDoesKeeps(cfg: Config, s: State, key: string, a: Action)
    requires cfg.Ok() && Inv(cfg, s) && Apply(cfg, s, RetryDoes(key, a)).Some?
    ensures Inv(cfg, Apply(cfg, s, RetryDoes(key, a)).value)
  {
    var t := Apply(cfg, s, RetryDoes(key, a)).value;
    var c := s.cells[key];
    var v := View(c.row, c.retry.phase, s.chain);
    var w := Perform(At(cfg, s, key, Retrier, c.retry.snap), v, a).value;
    RetryCell(cfg, s, key, a, w);
    OwnClaims(cfg, s, key);
    PutKeeps(cfg, s, key, t.cells[key], w.chain, t.busy, SentBy(v, w, key));
  }

  /** The cell after the retry worker takes its row up, or fails to. */
  lemma PickedUp(cfg: Config, now: int, intents: map<nat, Intent>, c: Chain, key: string, cell: Cell, to: Cell)
    requires cfg.Ok() && CellOk(cfg, now, intents, c, key, cell) && cell.ticket.Some?
    requires var snap := cell.ticket.value; var taken := Running(snap, FirstPhase(snap));
             || to == cell.(ticket := None)
             || (snap.status != Pending && to == cell.(ticket := None, retry := taken))
             || (&& cell.row.status == Pending && cell.row.updatedAt == snap.updatedAt < now
                 && to.row == cell.row.Touched(now)
                 && to.(row := cell.row, retry := Idle) == cell.(ticket := None, retry := Idle)
                 && (to.retry == cell.retry || to.retry == taken))
    ensures CellOk(cfg, now, intents, c, key, to)
  {
    if to.row != cell.row { assert to.row.Held() == cell.row.Held(); }
  }

  lemma PickUpKeeps(cfg: Config, s: State, key: string, fate: Fate)
    requires cfg.Ok() && Inv(cfg, s) && Apply(cfg, s, PickUp(key, fate)).Some?
    ensures Inv(cfg, Apply(cfg, s, PickUp(key, fate)).value)
  {
    var t := Apply(cfg, s, PickUp(key, fate)).value;
    OwnClaims(cfg, s, key);
    assert CellOk(cfg, s.now, s.intents, s.chain, key, s.cells[key]);
    PickedUp(cfg, s.now, s.intents, s.chain, key, s.cells[key], t.cells[key]);
    PutKeeps(cfg, s, key, t.cells[key], s.chain, t.busy, None);
  }

  lemma TickKeeps(cfg: Config, s: State, keys: set<string>)
    requires cfg.Ok() && Inv(cfg, s) && Apply(cfg, s, Tick(keys)).Some?
    ensures Inv(cfg, Apply(cfg, s, Tick(keys)).value)
  {
    var t := Apply(cfg, s, Tick(keys)).value;
    forall k | k in t.cells ensures CellOk(cfg, t.now, t.intents, t.chain, k, t.cells[k]) {
      assert CellOk(cfg, s.now, s.intents, s.chain, k, s.cells[k]);
      if k in keys {
        var c := s.cells[k];
        assert c.retry == Idle;
        assert Holding(cfg, s.now, c.watch) ==> LastInstant(cfg, s.now, c);
      }
    }
  }

  lemma InsertKeeps(cfg: Config, s: State, e: Event)
    requires e.Insert? && cfg.Ok() && Inv(cfg, s) && Apply(cfg, s, e).Some?
    ensures Inv(cfg, Apply(cfg, s, e).value)
  {
    if e.key !in s.cells {
      var t := Apply(cfg, s, e).value;
      assert OnlyHeld(s.chain, e.key, t.cells[e.key].row);
      PutKeeps(cfg, s, e.key, t.cells[e.key], s.chain, s.busy, None);
    }
  }

  lemma CrashKeeps(cfg: Config, s: State)
    requires Inv(cfg, s)
    ensures Inv(cfg, Apply(cfg, s, Crash).value)
  {
    var t := Apply(cfg, s, Crash).value;
    forall k | k in t.cells ensures CellOk(cfg, t.now, t.intents, t.chain, k, t.cells[k]) {
      assert CellOk(cfg, s.now, s.intents, s.chain, k, s.cells[k]);
    }
  }

  lemma WorldKeeps(cfg: Config, s: State, e: Event)
    requires e.Elapse? || e.CloseLedger? || e.CreateIntent? || e.TouchIntent?
    requires Inv(cfg, s) && Apply(cfg, s, e).Some?
    ensures Inv(cfg, Apply(cfg, s, e).value)
  {
    var t := Apply(cfg, s, e).value;
    if e.CloseLedger? { CloseKeeps(cfg.validity, s.chain, e.at, e.landings); }
    forall k | k in t.cells ensures CellOk(cfg, t.now, t.intents, t.chain, k, t.cells[k]) {
      assert CellOk(cfg, s.now, s.intents, s.chain, k, s.cells[k]);
      if e.Elapse? {
        LaterKeeps(cfg, s.now, t.now, s.intents, s.chain, k, s.cells[k]);
      } else if e.CloseLedger? {
        ChainGrowthKeeps(cfg, s.now, s.intents, s.chain, t.chain, k, s.cells[k]);
      } else {
        IntentsKeep(cfg, s.now, s.intents, t.intents, s.chain, k, s.cells[k]);
      }
    }
  }

  /** Every event keeps the invariant. */
  lemma StepKeeps(cfg: Config, s: State, e: Event)
    requires cfg.Ok() && Inv(cfg, s) && Apply(cfg, s, e).Some?
    ensures Inv(cfg, Apply(cfg, s, e).value)
  {
    match e
    case Claim(key, fate) => ClaimKeeps(cfg, s, key, fate);
    case Begin(key) => BeginKeeps(cfg, s, key);
    case WatchDoes(key, action) => WatchDoesKeeps(cfg, s, key, action);
    case WatchStops(key) =>
      OwnClaims(cfg, s, key);
      assert CellOk(cfg, s.now, s.intents, s.chain, key, s.cells[key]);
      PutKeeps(cfg, s, key, s.cells[key].(watch := NoJob), s.chain, s.busy, None);
    case Tick(keys) => TickKeeps(cfg, s, keys);
    case PickUp(key, fate) => PickUpKeeps(cfg, s, key, fate);
    case RetryDoes(key, action) => RetryDoesKeeps(cfg, s, key, action);
    case Insert(_, _, _, _, _, _, _) => InsertKeeps(cfg, s, e);
    case Crash => CrashKeeps(cfg, s);
    case _ => WorldKeeps(cfg, s, e);
  }
}
