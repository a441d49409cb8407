/** The timing condition behind the deposit guarantees, and the runs that break
    it: ForwardRecorded starts its work deadline when ClaimNewForward
    answers, while the retry worker's cutoff runs from the claim's commit. */
module BridgeLag {
  import opened Common
  import opened Ledger
  import opened Resolution
  import opened ForwardTable
  import opened Bridge
  import opened BridgeProof
  import opened BridgeTheorems

  /** No reachable state has both workers on one deposit. */
  ghost predicate Exclusive(cfg: Config) {
    forall s, key :: Reachable(cfg, s) ==> !(WatcherCanAct(s, key) && RetrierActs(s, key))
  }

  // ---- A world with the single deposit "k" ----

  const INTENTS: map<nat, Intent> := map[0 := Intent("C", 0, IntentPending)]

  ghost predicate Lone(s: State) { s.cells.Keys == {"k"} && s.intents == INTENTS }

  function Deposit(asset: string, touched: int): Row {
    NewRow("k", 0, "p", "1", asset, 0, 0).(updatedAt := touched)
  }

  lemma Later(cfg: Config, s: State, to: int) returns (t: State)
    requires Reachable(cfg, s) && s.now <= to
    ensures Reachable(cfg, t) && t == s.(now := to)
  {
    t := Take(cfg, s, Elapse(to));
  }

  /** A call by the watcher worker. */
  lemma WatcherCalls(cfg: Config, s: State, a: Action) returns (t: State)
    requires Reachable(cfg, s) && Lone(s) && WatcherCanAct(s, "k")
    requires var c := s.cells["k"];
             var w := Perform(At(cfg, s, "k", Watcher, c.row), View(c.row, c.watch.phase, s.chain), a);
             w.Some? && w.value.phase != Over
    ensures Reachable(cfg, t) && Lone(t) && t.now == s.now && t.busy == s.busy
    ensures var c := s.cells["k"];
            var w := Perform(At(cfg, s, "k", Watcher, c.row), View(c.row, c.watch.phase, s.chain), a).value;
            t.chain == w.chain && t.cells["k"] == c.(row := w.row, watch := c.watch.(phase := w.phase))
  {
    t := Take(cfg, s, WatchDoes("k", a));
  }

  lemma RetrierCalls(cfg: Config, s: State, a: Action) returns (t: State)
    requires Reachable(cfg, s) && Lone(s) && RetrierActs(s, "k")
    requires var c := s.cells["k"];
             var w := Perform(At(cfg, s, "k", Retrier, c.retry.snap), View(c.row, c.retry.phase, s.chain), a);
             w.Some? && w.value.phase != Over
    ensures Reachable(cfg, t) && Lone(t) && t.now == s.now && t.busy == s.busy
    ensures var c := s.cells["k"];
            var w := Perform(At(cfg, s, "k", Retrier, c.retry.snap), View(c.row, c.retry.phase, s.chain), a).value;
            t.chain == w.chain && t.cells["k"] == c.(row := w.row, retry := c.retry.(phase := w.phase))
  {
    t := Take(cfg, s, RetryDoes("k", a));
  }

  /** The retry worker fetches and takes up the deposit. */
  lemma RetrierTakes(cfg: Config, s: State) returns (t: State)
    requires 0 < cfg.batch && Reachable(cfg, s) && Lone(s) && s.busy == None
    requires var c := s.cells["k"];
             && Eligible(c.row, cfg.cutoff, s.now) && (c.row.status == Pending ==> c.row.updatedAt < s.now)
             && c.ticket == None && c.retry == Idle
    ensures Reachable(cfg, t) && Lone(t) && t.now == s.now && t.chain == s.chain
    ensures var c := s.cells["k"]; var row := if c.row.status == Pending then c.row.Touched(s.now) else c.row;
            t.cells["k"] == c.(row := row, retry := Running(c.row, FirstPhase(c.row))) && t.busy == Some("k")
  {
    t := Take(cfg, s, Tick({"k"}));
    t := Take(cfg, t, PickUp("k", Kept));
  }

  /** When the retry worker fetches the row, and the watcher worker's deadline. */
  function Overlap(cfg: Config): int {
    if cfg.replyLag <= cfg.cutoff + 1 then cfg.cutoff + 2 else cfg.replyLag + 1
  }

  function Deadline(cfg: Config): int { 1 + cfg.Hold() }

  lemma WatcherClaims(cfg: Config, asset: string) returns (s: State)
    ensures Reachable(cfg, s) && Lone(s) && s.now == 1 && s.chain == EMPTY_CHAIN && s.busy == None
    ensures s.cells["k"] == Cell(Deposit(asset, 1), Claimed(1), None, Idle)
  {
    assert Run(cfg, INITIAL, []) == Some(INITIAL);
    s := Take(cfg, INITIAL, CreateIntent(0, "C", 0));
    s := Take(cfg, s, Insert("k", 0, "p", "1", asset, 0, true));
    s := Later(cfg, s, 1);
    s := Take(cfg, s, Claim("k", Kept));
  }

  /** The claim's reply takes as long as it may, and the row is fetched in time. */
  lemma RetrierFetches(cfg: Config, asset: string) returns (s: State)
    requires 0 < cfg.batch && cfg.cutoff < cfg.Hold()
    ensures Reachable(cfg, s) && Lone(s) && s.now == Overlap(cfg) && s.chain == EMPTY_CHAIN && s.busy == None
    ensures var row := Deposit(asset, 1);
            s.cells["k"] == Cell(row, Active(Deadline(cfg), Deciding), Some(row), Idle)
  {
    s := WatcherClaims(cfg, asset);
    s := Later(cfg, s, 1 + cfg.replyLag);
    s := Take(cfg, s, Begin("k"));
    s := Later(cfg, s, Overlap(cfg));
    s := Take(cfg, s, Tick({"k"}));
  }

  /** The deposit while both workers hold it. */
  function Contest(cfg: Config, asset: string, row: Row, watch: Phase, retry: Phase): Cell {
    Cell(row, Active(Deadline(cfg), watch), None, Running(Deposit(asset, 1), retry))
  }

  lemma BothActive(cfg: Config, asset: string) returns (s: State)
    requires 0 < cfg.batch && cfg.cutoff < cfg.Hold()
    ensures Reachable(cfg, s) && Lone(s) && s.now == Overlap(cfg) && s.chain == EMPTY_CHAIN
    ensures s.cells["k"] == Contest(cfg, asset, Deposit(asset, Overlap(cfg)), Deciding, Deciding)
  {
    s := RetrierFetches(cfg, asset);
    s := Take(cfg, s, PickUp("k", Kept));
  }

  /** Ownership is exclusive in every run if and only if the slowest claim reply
      plus the work deadline stay within the retry worker's cutoff. */
  lemma ExclusiveIffLagFits(cfg: Config)
    requires cfg.Positive() && 0 < cfg.batch
    ensures Exclusive(cfg) <==> cfg.Hold() <= cfg.cutoff
  {
    if cfg.Hold() <= cfg.cutoff {
      forall s, key | Reachable(cfg, s) ensures !(WatcherCanAct(s, key) && RetrierActs(s, key)) {
        ExclusiveOwnership(cfg, s, key);
      }
    } else {
      var s := BothActive(cfg, "native");
      assert WatcherCanAct(s, "k") && RetrierActs(s, "k");
    }
  }

  // ---- With a slower reply, one deposit is paid twice ----

  function Outbound(cfg: Config, asset: string, sequence: int): Tx {
    Tx(Credit("C", "p", "1", asset), "p", sequence, 100, Overlap(cfg) + cfg.validity)
  }

  function Priced(cfg: Config, sequence: int): Phase {
    Pricing(Pay("C"), 0, 0, Overlap(cfg) + cfg.validity, "p", sequence)
  }

  lemma BothDraft(cfg: Config, asset: string) returns (s: State)
    requires 0 < cfg.maxRetries && 0 < cfg.batch && 0 < cfg.second && cfg.cutoff < cfg.Hold() && cfg.Accepts(asset)
    ensures Reachable(cfg, s) && Lone(s) && s.now == Overlap(cfg) && s.chain == EMPTY_CHAIN
    ensures s.cells["k"] == Contest(cfg, asset, Deposit(asset, Overlap(cfg)), Priced(cfg, 1), Priced(cfg, 2))
  {
    var until := Overlap(cfg) + cfg.validity;
    s := BothActive(cfg, asset);
    s := WatcherCalls(cfg, s, Route(true));
    s := WatcherCalls(cfg, s, Draft("p", 1, until));
    s := RetrierCalls(cfg, s, Route(true));
    s := RetrierCalls(cfg, s, Draft("p", 2, until));
  }

  lemma WatcherSends(cfg: Config, asset: string) returns (s: State)
    requires 0 < cfg.maxRetries && 0 < cfg.batch && 0 < cfg.second && 0 < cfg.deadline && cfg.Accepts(asset)
    requires cfg.cutoff + 2 <= cfg.Hold()
    ensures Reachable(cfg, s) && Lone(s) && s.now == Overlap(cfg) + 1
    ensures var a := Outbound(cfg, asset, 1);
            var row := Deposit(asset, Overlap(cfg)).Recorded(a, a.maxTime, Overlap(cfg) + 1);
            && s.chain == Accept(EMPTY_CHAIN, a, "k")
            && s.cells["k"] == Contest(cfg, asset, row, Polling(Pay("C"), 0, a), Priced(cfg, 2))
  {
    s := BothDraft(cfg, asset);
    s := Later(cfg, s, Overlap(cfg) + 1);
    s := WatcherCalls(cfg, s, Record(100, Kept));
    s := WatcherCalls(cfg, s, Send(Queued));
  }

  lemma BothSend(cfg: Config, asset: string) returns (s: State)
    requires 0 < cfg.maxRetries && 0 < cfg.batch && 0 < cfg.second && 0 < cfg.deadline && cfg.Accepts(asset)
    requires cfg.cutoff + 2 <= cfg.Hold()
    ensures Reachable(cfg, s)
    ensures s.chain == Accept(Accept(EMPTY_CHAIN, Outbound(cfg, asset, 1), "k"), Outbound(cfg, asset, 2), "k")
  {
    s := WatcherSends(cfg, asset);
    s := Later(cfg, s, Overlap(cfg) + 2);
    s := RetrierCalls(cfg, s, Record(100, Kept));
    s := RetrierCalls(cfg, s, Send(Queued));
  }

  /** If a claim's reply may take longer than the deadline's margin, a run pays
      one deposit twice. */
  lemma LateReplyPaysTwice(cfg: Config, asset: string) returns (s: State)
    requires cfg.Positive() && 0 < cfg.batch && 0 < cfg.second && 0 < cfg.deadline && cfg.Accepts(asset)
    requires cfg.cutoff + 2 <= cfg.Hold()
    ensures Reachable(cfg, s) && !PaidAtMostOnce(s)
  {
    var a, b := Outbound(cfg, asset, 1), Outbound(cfg, asset, 2);
    s := BothSend(cfg, asset);
    var l := Landing(a.maxTime, true, 0);
    s := Take(cfg, s, CloseLedger(a.maxTime, map[a := l, b := l]));
    assert Paid(s.chain, "k", a) && Paid(s.chain, "k", b);
  }

  // ---- And a final row is rewritten ----

  /** A final row keeps every column. */
  ghost predicate KeepsFinal(cfg: Config, s: State, e: Event, key: string) {
    key in s.cells && s.cells[key].row.status.Final() && Apply(cfg, s, e).Some? ==>
      key in Apply(cfg, s, e).value.cells && Apply(cfg, s, e).value.cells[key].row == s.cells[key].row
  }

  ghost predicate FinalStays(cfg: Config) {
    forall s, e, key :: Reachable(cfg, s) ==> KeepsFinal(cfg, s, e, key)
  }

  lemma BothClosing(cfg: Config, asset: string) returns (s: State)
    requires 0 < cfg.maxRetries && 0 < cfg.batch && cfg.cutoff < cfg.Hold() && cfg.Accepts(asset)
    ensures Reachable(cfg, s) && Lone(s) && s.now == Overlap(cfg)
    ensures s.cells["k"] == Contest(cfg, asset, Deposit(asset, s.now), Closing(ChargeAndFail), Closing(Charge))
  {
    s := BothActive(cfg, asset);
    s := WatcherCalls(cfg, s, Route(true));
    s := WatcherCalls(cfg, s, Stumble(Permanent));
    s := RetrierCalls(cfg, s, Route(false));
  }

  /** The watcher worker closes the deposit as failed while the retry worker is
      about to queue it again. */
  lemma ClosedUnderRetry(cfg: Config, asset: string) returns (s: State)
    requires 0 < cfg.maxRetries && 0 < cfg.batch && 0 < cfg.deadline && cfg.Accepts(asset)
    requires cfg.cutoff + 2 <= cfg.Hold()
    ensures Reachable(cfg, s) && Lone(s) && RetrierActs(s, "k") && s.cells["k"].retry.phase == Closing(Charge)
    ensures s.cells["k"].row.status == Failed && s.cells["k"].row.updatedAt < s.now
  {
    s := BothClosing(cfg, asset);
    s := Later(cfg, s, Overlap(cfg) + 1);
    s := Take(cfg, s, WatchDoes("k", Write(Kept)));
    s := Later(cfg, s, Overlap(cfg) + 2);
  }

  /** Done, swept and failed rows never change in any run under exactly the timing
      condition of single payment. */
  lemma FinalStaysIffHoldFits(cfg: Config)
    requires cfg.Positive() && 0 < cfg.batch && 0 < cfg.deadline
    ensures FinalStays(cfg) <==> cfg.Hold() <= cfg.cutoff + 1
  {
    if cfg.Hold() <= cfg.cutoff + 1 {
      forall s, e, key | Reachable(cfg, s) ensures KeepsFinal(cfg, s, e, key) {
        ReachableKeeps(cfg, s);
        if key in s.cells && Apply(cfg, s, e).Some? { StepSettles(cfg, s, e, key); }
      }
    } else {
      var asset := "native";
      if cfg.accepted != {} { asset :| asset in cfg.accepted; }
      var s := ClosedUnderRetry(cfg, asset);
      assert !KeepsFinal(cfg, s, RetryDoes("k", Write(Kept)), "k");
    }
  }
}
