/** How long a watcher worker may hold a deposit before the retry budget can be
    passed: longer than single payment allows, by one instant per retry. */
module BridgeCeiling {
  import opened Common
  import opened Ledger
  import opened Resolution
  import opened ForwardTable
  import opened Bridge
  import opened BridgeProof
  import opened BridgeTheorems
  import opened BridgeRouting
  import opened BridgeBudget
  import opened BridgeLag

  /** In every run no deposit is charged more often than the ceiling allows. */
  ghost predicate BudgetHolds(cfg: Config) {
    forall s, key :: Reachable(cfg, s) ==> RetriesOf(s, key) <= cfg.maxRetries
  }

  // ---- The invariant ----

  /** Phases from which a worker may come to charge. */
  predicate CanCharge(p: Phase) {
    match p
    case Resolving(_) => false
    case Deciding => false
    case Forgetting(next) => next != Resume
    case Closing(v) => v == Charge || v == ChargeAndFail
    case Over => false
    case _ => true
  }

  /** The retry worker has been at the row, or is. */
  predicate Taken(c: Cell) { c.retry.Running? || c.row.status != Pending }

  /** A worker's reading of the retries is out by at most the one charge of the
      watcher worker, and then with room for one more. */
  predicate ReadsRetries(cfg: Config, r: Row, read: nat) {
    read == r.retries || (read + 1 == r.retries && read + 2 <= cfg.maxRetries)
  }

  /** While the watcher worker can still act, every charge has cost the row one
      instant since the retry worker took it. */
  predicate WatchSpaced(cfg: Config, now: int, c: Cell) {
    && ((c.watch.Claimed? || c.watch.Active?) ==>
          c.row.createdAt < c.row.updatedAt && Horizon(cfg, c.watch) <= c.row.updatedAt + cfg.Hold())
    && (Holding(cfg, now, c.watch) ==>
          && (Taken(c) ==> Horizon(cfg, c.watch) - cfg.Hold() + cfg.cutoff + 1 + c.row.retries <= c.row.updatedAt)
          && (c.retry.Running? ==> c.retry.snap.retries == c.row.retries)
          && (c.ticket.Some? ==> c.ticket.value.retries == c.row.retries))
  }

  predicate RowCounts(cfg: Config, now: int, r: Row) {
    && r.createdAt <= r.updatedAt <= now && r.retries <= cfg.maxRetries
    && if r.status == Pending then r.retries == 0 else r.createdAt < r.updatedAt
  }

  predicate TicketCounts(cfg: Config, now: int, c: Cell) {
    c.ticket.Some? ==>
      var t := c.ticket.value;
      && c.retry == Idle && t.updatedAt <= c.row.updatedAt && t.createdAt == c.row.createdAt
      && (t.status == Pending ==> t.retries == 0 && t.updatedAt + cfg.cutoff < now)
      && (t.status != Pending ==> c.row.status != Pending && ReadsRetries(cfg, c.row, t.retries))
      && (c.row.status == Pending && t.updatedAt == c.row.updatedAt ==> t.retries == c.row.retries)
  }

  predicate RetryCounts(cfg: Config, c: Cell) {
    c.retry.Running? ==>
      && c.row.createdAt < c.row.updatedAt && ReadsRetries(cfg, c.row, c.retry.snap.retries)
      && (CanCharge(c.retry.phase) ==> c.retry.snap.retries < cfg.maxRetries)
  }

  predicate CellCounts(cfg: Config, now: int, c: Cell) {
    RowCounts(cfg, now, c.row) && WatchSpaced(cfg, now, c) && TicketCounts(cfg, now, c) && RetryCounts(cfg, c)
  }

  ghost predicate Counts(cfg: Config, s: State) {
    && (forall k {:trigger CellCounts(cfg, s.now, s.cells[k])} :: k in s.cells ==> CellCounts(cfg, s.now, s.cells[k]))
    && (forall k :: k in s.cells && s.cells[k].retry.Running? ==> s.busy == Some(k))
  }

  predicate Roomy(cfg: Config) { 0 < cfg.maxRetries && cfg.Hold() <= cfg.cutoff + cfg.maxRetries }

  // ---- Calls ----

  /** What a call does to the columns that count. */
  lemma PerformCounts(x: Scene, v: View, a: Action)
    requires Perform(x, v, a).Some?
    ensures var w := Perform(x, v, a).value;
            && w.row.createdAt == v.row.createdAt
            && (w.row == v.row || v.row.updatedAt < w.row.updatedAt == x.now)
            && (w.row.retries == v.row.retries || (w.row.retries == v.row.retries + 1 && CanCharge(v.phase)))
            && (w.row.retries != v.row.retries || w.row.status != v.row.status ==>
              w.phase == Over && w.row.status != Pending)
            && (CanCharge(w.phase) ==> CanCharge(v.phase) || x.who == Watcher || x.snap.retries < x.cfg.maxRetries)
  {
  }

  lemma WatchCounts(cfg: Config, s: State, e: Event)
    requires Roomy(cfg) && e.WatchDoes? && Apply(cfg, s, e).Some? && e.key in s.cells
    requires CellCounts(cfg, s.now, s.cells[e.key])
    ensures e.key in Apply(cfg, s, e).value.cells && CellCounts(cfg, s.now, Apply(cfg, s, e).value.cells[e.key])
  {
    CallEffect(cfg, s, e);
    var c := s.cells[e.key];
    PerformCounts(At(cfg, s, e.key, Watcher, c.row), View(c.row, c.watch.phase, s.chain), e.action);
  }

  lemma RetryCountsOn(cfg: Config, s: State, e: Event)
    requires Roomy(cfg) && e.RetryDoes? && Apply(cfg, s, e).Some? && e.key in s.cells
    requires CellCounts(cfg, s.now, s.cells[e.key])
    ensures e.key in Apply(cfg, s, e).value.cells && CellCounts(cfg, s.now, Apply(cfg, s, e).value.cells[e.key])
  {
    CallEffect(cfg, s, e);
    var c := s.cells[e.key];
    PerformCounts(At(cfg, s, e.key, Retrier, c.retry.snap), View(c.row, c.retry.phase, s.chain), e.action);
  }

  // ---- Other events ----

  lemma ClaimCounts(cfg: Config, s: State, e: Event, key: string)
    requires Roomy(cfg) && (e.Claim? || e.Begin?) && Apply(cfg, s, e).Some? && key in s.cells
    requires CellCounts(cfg, s.now, s.cells[key])
    ensures key in Apply(cfg, s, e).value.cells && CellCounts(cfg, s.now, Apply(cfg, s, e).value.cells[key])
  {
  }

  lemma PickUpCounts(cfg: Config, s: State, e: Event, key: string)
    requires Roomy(cfg) && e.PickUp? && Apply(cfg, s, e).Some? && key in s.cells
    requires CellCounts(cfg, s.now, s.cells[key])
    ensures key in Apply(cfg, s, e).value.cells && CellCounts(cfg, s.now, Apply(cfg, s, e).value.cells[key])
  {
  }

  lemma TickCounts(cfg: Config, s: State, e: Event, key: string)
    requires Roomy(cfg) && e.Tick? && Apply(cfg, s, e).Some? && key in s.cells && s.cells[key].retry == Idle
    requires CellCounts(cfg, s.now, s.cells[key])
    ensures key in Apply(cfg, s, e).value.cells && CellCounts(cfg, s.now, Apply(cfg, s, e).value.cells[key])
  {
  }

  lemma WorldCounts(cfg: Config, s: State, e: Event, key: string)
    requires !IsCall(e) && !e.Claim? && !e.Begin? && !e.PickUp? && !e.Tick? && Apply(cfg, s, e).Some? && key in s.cells
    requires CellCounts(cfg, s.now, s.cells[key])
    ensures var t := Apply(cfg, s, e).value; key in t.cells && CellCounts(cfg, t.now, t.cells[key])
  {
  }

  lemma StepCounts(cfg: Config, s: State, e: Event, key: string)
    requires Roomy(cfg) && Counts(cfg, s) && Apply(cfg, s, e).Some? && key in Apply(cfg, s, e).value.cells
    ensures var t := Apply(cfg, s, e).value; CellCounts(cfg, t.now, t.cells[key])
  {
    if key in s.cells {
      assert CellCounts(cfg, s.now, s.cells[key]);
      match e
      case WatchDoes(k, _) => if k == key { WatchCounts(cfg, s, e); } else { CallElsewhere(cfg, s, e, key); }
      case RetryDoes(k, _) => if k == key { RetryCountsOn(cfg, s, e); } else { CallElsewhere(cfg, s, e, key); }
      case Claim(_, _) => ClaimCounts(cfg, s, e, key);
      case Begin(_) => ClaimCounts(cfg, s, e, key);
      case PickUp(_, _) => PickUpCounts(cfg, s, e, key);
      case Tick(_) => TickCounts(cfg, s, e, key);
      case _ => WorldCounts(cfg, s, e, key);
    } else {
      NewCounts(cfg, s, e, key);
    }
  }

  lemma NewCounts(cfg: Config, s: State, e: Event, key: string)
    requires Apply(cfg, s, e).Some? && key !in s.cells && key in Apply(cfg, s, e).value.cells
    ensures var t := Apply(cfg, s, e).value; CellCounts(cfg, t.now, t.cells[key])
  {
    if IsCall(e) { CallEffect(cfg, s, e); if e.key != key { CallElsewhere(cfg, s, e, key); } }
  }

  lemma StepBusy(cfg: Config, s: State, e: Event, key: string)
    requires (forall k :: k in s.cells && s.cells[k].retry.Running? ==> s.busy == Some(k)) && Apply(cfg, s, e).Some?
    ensures var t := Apply(cfg, s, e).value; key in t.cells && t.cells[key].retry.Running? ==> t.busy == Some(key)
  {
    match e
    case PickUp(_, _) =>
    case RetryDoes(_, _) =>
    case WatchDoes(_, _) =>
    case _ =>
  }

  lemma {:induction false} RunCounts(cfg: Config, s: State, events: seq<Event>)
    requires Roomy(cfg) && Counts(cfg, s) && Run(cfg, s, events).Some?
    ensures Counts(cfg, Run(cfg, s, events).value)
    decreases |events|
  {
    if events != [] {
      var t := Apply(cfg, s, events[0]).value;
      forall k | k in t.cells ensures CellCounts(cfg, t.now, t.cells[k]) { StepCounts(cfg, s, events[0], k); }
      forall k | k in t.cells && t.cells[k].retry.Running? ensures t.busy == Some(k) { StepBusy(cfg, s, events[0], k); }
      RunCounts(cfg, t, events[1..]);
    }
  }

  // ---- The run that passes the ceiling ----

  /** When the retry worker first takes the row of a deposit claimed at 1. */
  function Start(cfg: Config): int { cfg.cutoff + 2 }

  predicate Idles(w: Watch) { w == Claimed(1) || (w.Active? && w.phase == Deciding) }

  /** The retry worker has charged `k` times and is about to charge once more, while
      the watcher worker has not begun to act. */
  ghost predicate Due(cfg: Config, s: State, asset: string, k: nat, w: Watch) {
    && Reachable(cfg, s) && Lone(s) && s.now == Start(cfg) + k && s.busy == Some("k") && Idles(w)
    && var c := s.cells["k"];
       && c.watch == w && c.ticket == None && c.retry.Running? && c.retry.phase == Closing(Charge)
       && c.retry.snap.SameDeposit(c.row) && c.row.SameDeposit(Deposit(asset, 0)) && c.row.retries == k
       && c.row.submitted == None && !c.row.sweep && c.row.updatedAt <= s.now
  }

  /** The retry worker fetches the row, takes it, and fails to look its intent up. */
  lemma FailsLookup(cfg: Config, s: State, asset: string, k: nat, w: Watch) returns (t: State)
    requires Reachable(cfg, s) && Lone(s) && s.now == Start(cfg) + k && s.busy == None && Idles(w)
    requires 0 < cfg.batch && k < cfg.maxRetries && cfg.Accepts(asset)
    requires var c := s.cells["k"];
             && c.watch == w && c.ticket == None && c.retry == Idle && c.row.SameDeposit(Deposit(asset, 0))
             && c.row.retries == k && c.row.submitted == None && !c.row.sweep && c.row.updatedAt <= s.now
             && Eligible(c.row, cfg.cutoff, s.now)
    ensures Due(cfg, t, asset, k, w)
  {
    t := RetrierTakes(cfg, s);
    t := RetrierCalls(cfg, t, Route(false));
  }

  lemma OneMore(cfg: Config, s: State, asset: string, k: nat, w: Watch) returns (t: State)
    requires Due(cfg, s, asset, k, w) && 0 < cfg.batch && k + 1 < cfg.maxRetries && cfg.Accepts(asset)
    ensures Due(cfg, t, asset, k + 1, w)
  {
    t := Later(cfg, s, s.now + 1);
    t := Take(cfg, t, RetryDoes("k", Write(Kept)));
    t := FailsLookup(cfg, t, asset, k + 1, w);
  }

  lemma {:induction false} Many(cfg: Config, s: State, asset: string, k: nat, n: nat, w: Watch) returns (t: State)
    requires Due(cfg, s, asset, k, w) && 0 < cfg.batch && k <= n < cfg.maxRetries && cfg.Accepts(asset)
    ensures Due(cfg, t, asset, n, w)
    decreases n - k
  {
    t := s;
    if k < n {
      t := OneMore(cfg, t, asset, k, w);
      t := Many(cfg, t, asset, k + 1, n, w);
    }
  }

  function Working(cfg: Config, at: int): Watch { Active(at + cfg.deadline, Deciding) }

  /** The claim's reply arrives. */
  lemma Begins(cfg: Config, s: State, asset: string, k: nat) returns (t: State)
    requires Due(cfg, s, asset, k, Claimed(1)) && s.now <= 1 + cfg.replyLag
    ensures Due(cfg, t, asset, k, Working(cfg, s.now))
  {
    t := Take(cfg, s, Begin("k"));
  }

  /** The ceiling is reached but for one, with the watcher worker still able to act
      at the next instant, or about to get its reply then. */
  ghost predicate Brink(cfg: Config, s: State, asset: string, w: Watch)
    requires 0 < cfg.maxRetries
  {
    && Due(cfg, s, asset, cfg.maxRetries - 1, w)
    && if w.Active? then Start(cfg) + cfg.maxRetries <= w.deadline else Start(cfg) + cfg.maxRetries <= 1 + cfg.replyLag
  }

  predicate TooLong(cfg: Config, asset: string) {
    0 < cfg.maxRetries && 0 < cfg.batch && cfg.Accepts(asset) && cfg.cutoff + 1 + cfg.maxRetries <= cfg.Hold()
  }

  /** A reply before the retry worker takes the row. */
  lemma BrinkEarly(cfg: Config, asset: string) returns (s: State, w: Watch)
    requires TooLong(cfg, asset) && 1 + cfg.replyLag <= Start(cfg)
    ensures Brink(cfg, s, asset, w)
  {
    w := Working(cfg, 1 + cfg.replyLag);
    s := WatcherClaims(cfg, asset);
    s := Later(cfg, s, 1 + cfg.replyLag);
    s := Take(cfg, s, Begin("k"));
    s := Later(cfg, s, Start(cfg));
    s := FailsLookup(cfg, s, asset, 0, w);
    s := Many(cfg, s, asset, 0, cfg.maxRetries - 1, w);
  }

  /** A reply after that. */
  lemma BrinkLate(cfg: Config, asset: string) returns (s: State, w: Watch)
    requires TooLong(cfg, asset) && Start(cfg) < 1 + cfg.replyLag
    ensures Brink(cfg, s, asset, w)
  {
    w := Claimed(1);
    s := WatcherClaims(cfg, asset);
    s := Later(cfg, s, Start(cfg));
    s := FailsLookup(cfg, s, asset, 0, w);
    var n := cfg.maxRetries - 1;
    var k := 1 + cfg.replyLag - Start(cfg);
    if k <= n {
      s := Many(cfg, s, asset, 0, k, w);
      s := Begins(cfg, s, asset, k);
      w := Working(cfg, 1 + cfg.replyLag);
      s := Many(cfg, s, asset, k, n, w);
    } else {
      s := Many(cfg, s, asset, 0, n, w);
    }
  }

  /** The watcher worker's lookup fails as well. */
  lemma WatcherFails(cfg: Config, s: State, asset: string, w: Watch) returns (t: State)
    requires 0 < cfg.maxRetries && cfg.Accepts(asset) && Brink(cfg, s, asset, w)
    ensures Reachable(cfg, t) && Lone(t) && t.now == Start(cfg) + cfg.maxRetries && WatcherCanAct(t, "k")
    ensures t.cells["k"] == s.cells["k"].(watch := t.cells["k"].watch) && t.cells["k"].watch.phase == Closing(Charge)
  {
    t := Later(cfg, s, Start(cfg) + cfg.maxRetries);
    if w.Claimed? { t := Take(cfg, t, Begin("k")); }
    t := WatcherCalls(cfg, t, Route(false));
  }

  /** Both write their charge. */
  lemma PassesCeiling(cfg: Config, asset: string) returns (s: State)
    requires TooLong(cfg, asset)
    ensures Reachable(cfg, s) && RetriesOf(s, "k") == cfg.maxRetries + 1
  {
    var w;
    if 1 + cfg.replyLag <= Start(cfg) { s, w := BrinkEarly(cfg, asset); } else { s, w := BrinkLate(cfg, asset); }
    s := WatcherFails(cfg, s, asset, w);
    s := BothCharge(cfg, s);
  }

  lemma BothCharge(cfg: Config, s: State) returns (t: State)
    requires Reachable(cfg, s) && Lone(s) && WatcherCanAct(s, "k") && RetrierActs(s, "k")
    requires var c := s.cells["k"];
             c.watch.phase == Closing(Charge) && c.retry.phase == Closing(Charge) && c.row.updatedAt < s.now
    ensures Reachable(cfg, t) && RetriesOf(t, "k") == s.cells["k"].row.retries + 2
  {
    t := Take(cfg, s, WatchDoes("k", Write(Kept)));
    t := Later(cfg, t, t.now + 1);
    t := Take(cfg, t, RetryDoes("k", Write(Kept)));
  }

  /** The ceiling is never passed in any run if and only if the hold exceeds the
      cutoff by at most the number of retries: the retry worker can come to the last
      charge no sooner than that, one row write at a time. */
  lemma BudgetHoldsIff(cfg: Config)
    requires 0 < cfg.maxRetries && 0 < cfg.batch
    ensures BudgetHolds(cfg) <==> cfg.Hold() <= cfg.cutoff + cfg.maxRetries
  {
    if cfg.Hold() <= cfg.cutoff + cfg.maxRetries {
      forall s, key | Reachable(cfg, s) ensures RetriesOf(s, key) <= cfg.maxRetries {
        var events :| Run(cfg, INITIAL, events) == Some(s);
        RunCounts(cfg, INITIAL, events);
        if key in s.cells { assert CellCounts(cfg, s.now, s.cells[key]); }
      }
    } else {
      var asset := "native";
      if cfg.accepted != {} { asset :| asset in cfg.accepted; }
      var s := PassesCeiling(cfg, asset);
    }
  }
}
