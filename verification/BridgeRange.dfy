/** The other condition behind single payment, and the run that breaks it:
    resolveSubmitted rebuilds on a "not found" even when RPC reports no range. */
module BridgeRange {
  import opened Common
  import opened Ledger
  import opened Resolution
  import opened ForwardTable
  import opened Bridge
  import opened BridgeProof
  import opened BridgeTheorems
  import opened BridgeLag

  predicate Workable(cfg: Config, asset: string) {
    0 < cfg.maxRetries && 0 < cfg.batch && 0 < cfg.second && cfg.Accepts(asset)
  }

  function Transfer(asset: string, sequence: int, until: int): Tx {
    Tx(Credit("C", "p", "1", asset), "p", sequence, 100, until)
  }

  // ---- The retry worker pays ----

  /** It holds the deposit and is free to pay it. */
  predicate Free(s: State, asset: string, phase: Phase) {
    RetrierActs(s, "k") && var c := s.cells["k"];
    && c.retry.phase == phase && c.row.updatedAt <= s.now
    && c.retry.snap.SameDeposit(Deposit(asset, 0)) && c.retry.snap.retries == 0 && !c.retry.snap.sweep
  }

  function PricedAt(s: State, cfg: Config, sequence: int): Phase {
    Pricing(Pay("C"), 0, 0, s.now + cfg.validity, "p", sequence)
  }

  lemma RetrierDrafts(cfg: Config, s: State, asset: string, sequence: int) returns (t: State)
    requires Workable(cfg, asset) && Reachable(cfg, s) && Lone(s) && Free(s, asset, Deciding)
    ensures Reachable(cfg, t) && Lone(t) && t.now == s.now && t.busy == s.busy && t.chain == s.chain
    ensures var c := s.cells["k"]; t.cells["k"] == c.(retry := c.retry.(phase := PricedAt(s, cfg, sequence)))
  {
    t := RetrierCalls(cfg, s, Route(true));
    t := RetrierCalls(cfg, t, Draft("p", sequence, s.now + cfg.validity));
  }

  lemma RetrierSends(cfg: Config, s: State, asset: string, sequence: int, tx: Tx) returns (t: State)
    requires Workable(cfg, asset) && Reachable(cfg, s) && Lone(s) && Free(s, asset, PricedAt(s, cfg, sequence))
    requires tx == Transfer(asset, sequence, s.now + cfg.validity)
    ensures Reachable(cfg, t) && Lone(t) && t.now == s.now + 1 && t.busy == s.busy
            && t.chain == Accept(s.chain, tx, "k")
    ensures var c := s.cells["k"]; var row := c.row.Recorded(tx, tx.maxTime, t.now);
            t.cells["k"] == c.(row := row, retry := c.retry.(phase := Polling(Pay("C"), 0, tx)))
  {
    t := Later(cfg, s, s.now + 1);
    t := RetrierRecords(cfg, t, asset, sequence, tx);
    t := RetrierCalls(cfg, t, Send(Queued));
  }

  lemma RetrierRecords(cfg: Config, s: State, asset: string, sequence: int, tx: Tx) returns (t: State)
    requires Reachable(cfg, s) && Lone(s) && RetrierActs(s, "k") && s.cells["k"].row.updatedAt < s.now
    requires s.cells["k"].retry.phase == Pricing(Pay("C"), 0, 0, tx.maxTime, "p", sequence)
    requires s.cells["k"].retry.snap.SameDeposit(Deposit(asset, 0)) && tx == Transfer(asset, sequence, tx.maxTime)
    ensures Reachable(cfg, t) && Lone(t) && t.now == s.now && t.busy == s.busy && t.chain == s.chain
    ensures var c := s.cells["k"]; var row := c.row.Recorded(tx, tx.maxTime, t.now);
            t.cells["k"] == c.(row := row, retry := c.retry.(phase := Sending(Pay("C"), 0, 0, tx, 0)))
  {
    assert ClaimsOfOthers(s, "k") == {};
    t := RetrierCalls(cfg, s, Record(100, Kept));
  }

  lemma RetrierPays(cfg: Config, s: State, asset: string, sequence: int, tx: Tx) returns (t: State)
    requires Workable(cfg, asset) && Reachable(cfg, s) && Lone(s) && Free(s, asset, Deciding)
    requires tx == Transfer(asset, sequence, s.now + cfg.validity)
    ensures Reachable(cfg, t) && Lone(t) && t.now == s.now + 1 && t.busy == s.busy
            && t.chain == Accept(s.chain, tx, "k")
    ensures var c := s.cells["k"]; var row := c.row.Recorded(tx, tx.maxTime, t.now);
            t.cells["k"] == c.(row := row, retry := c.retry.(phase := Polling(Pay("C"), 0, tx)))
  {
    t := RetrierDrafts(cfg, s, asset, sequence);
    t := RetrierSends(cfg, t, asset, sequence, tx);
  }

  // ---- The first transfer lands after its poll ran out ----

  function Pickup(cfg: Config): int { cfg.cutoff + 1 }

  function First(cfg: Config, asset: string): Tx { Transfer(asset, 1, Pickup(cfg) + cfg.validity) }

  lemma DepositWaits(cfg: Config, asset: string) returns (s: State)
    ensures Reachable(cfg, s) && Lone(s) && s.now == Pickup(cfg) && s.chain == EMPTY_CHAIN && s.busy == None
    ensures s.cells["k"] == Cell(Deposit(asset, 0), NoJob, None, Idle)
  {
    assert Run(cfg, INITIAL, []) == Some(INITIAL);
    s := Take(cfg, INITIAL, CreateIntent(0, "C", 0));
    s := Take(cfg, s, Insert("k", 0, "p", "1", asset, 0, false));
    s := Later(cfg, s, Pickup(cfg));
  }

  lemma FirstSent(cfg: Config, asset: string) returns (s: State)
    requires Workable(cfg, asset)
    ensures Reachable(cfg, s) && Lone(s) && s.now == Pickup(cfg) + 1 && s.busy == Some("k")
    ensures var tx := First(cfg, asset); var row := Deposit(asset, Pickup(cfg)).Recorded(tx, tx.maxTime, s.now);
            && s.chain == Accept(EMPTY_CHAIN, tx, "k")
            && s.cells["k"] == Cell(row, NoJob, None, Running(Deposit(asset, 0), Polling(Pay("C"), 0, tx)))
  {
    s := DepositWaits(cfg, asset);
    s := RetrierTakes(cfg, s);
    s := RetrierPays(cfg, s, asset, 1, First(cfg, asset));
  }

  /** The row with its first transfer on it, queued to be resolved. */
  function Unresolved(cfg: Config, asset: string): Row {
    var tx, t := First(cfg, asset), Pickup(cfg);
    Deposit(asset, t).Recorded(tx, tx.maxTime, t + 1).Requeued(t + 2)
  }

  lemma Requeues(cfg: Config, s: State) returns (t: State)
    requires Reachable(cfg, s) && Lone(s) && RetrierActs(s, "k")
    requires s.cells["k"].retry.phase == Closing(Requeue) && s.cells["k"].row.updatedAt < s.now
    ensures Reachable(cfg, t) && Lone(t) && t.now == s.now && t.busy == None && t.chain == s.chain
    ensures var c := s.cells["k"]; t.cells["k"] == c.(row := c.row.Requeued(s.now), retry := Idle)
  {
    t := Take(cfg, s, RetryDoes("k", Write(Kept)));
  }

  lemma FirstUnseen(cfg: Config, asset: string) returns (s: State)
    requires Workable(cfg, asset)
    ensures Reachable(cfg, s) && Lone(s) && s.now == Pickup(cfg) + 2 && s.busy == None
    ensures s.chain == Accept(EMPTY_CHAIN, First(cfg, asset), "k")
    ensures s.cells["k"] == Cell(Unresolved(cfg, asset), NoJob, None, Idle)
  {
    s := FirstSent(cfg, asset);
    s := RetrierCalls(cfg, s, Poll(Unseen));
    s := Later(cfg, s, Pickup(cfg) + 2);
    s := Requeues(cfg, s);
  }

  /** Long after, the transfer has landed. */
  ghost predicate Landed(cfg: Config, asset: string, s: State) {
    var tx := First(cfg, asset);
    && Reachable(cfg, s) && Lone(s) && s.now == Pickup(cfg) + 3 + cfg.validity + cfg.grace
    && s.chain.closed == tx.maxTime && s.chain.queued == map[tx := "k"]
    && s.chain.landed == map[tx := Landing(tx.maxTime, true, 0)]
  }

  lemma FirstLands(cfg: Config, asset: string) returns (s: State)
    requires Workable(cfg, asset)
    ensures Landed(cfg, asset, s) && s.busy == None && s.cells["k"] == Cell(Unresolved(cfg, asset), NoJob, None, Idle)
  {
    s := FirstUnseen(cfg, asset);
    var tx := First(cfg, asset);
    var landings := map[tx := Landing(tx.maxTime, true, 0)];
    assert CanClose(cfg.validity, s.chain, tx.maxTime, landings);
    s := Take(cfg, s, CloseLedger(tx.maxTime, landings));
    s := Later(cfg, s, Pickup(cfg) + 3 + cfg.validity + cfg.grace);
  }

  // ---- And is paid again ----

  /** A "not found" without its range allows a rebuild. */
  lemma Rebuilds(cfg: Config, asset: string) returns (s: State)
    requires Workable(cfg, asset) && !cfg.reports
    ensures Landed(cfg, asset, s)
    ensures var row := Unresolved(cfg, asset);
            s.cells["k"] == Cell(row.Cleared(s.now), NoJob, None, Running(row, Deciding))
  {
    var tx, resp := First(cfg, asset), Response(NotFound, 0, 0);
    s := FirstLands(cfg, asset);
    s := RetrierTakes(cfg, s);
    assert Truthful(s.chain, tx, resp) by { assert Answers(s.chain, tx, resp, tx.maxTime - 1, tx.maxTime - 1); }
    s := RetrierCalls(cfg, s, Answer(resp));
    s := RetrierCalls(cfg, s, Write(Kept));
  }

  /** If RPC may answer without its range, a run pays one deposit twice. */
  lemma UnreportedRangePaysTwice(cfg: Config, asset: string) returns (s: State)
    requires Workable(cfg, asset) && !cfg.reports
    ensures Reachable(cfg, s) && !PaidAtMostOnce(s)
  {
    s := Rebuilds(cfg, asset);
    var a, b := First(cfg, asset), Transfer(asset, 2, s.now + cfg.validity);
    s := RetrierPays(cfg, s, asset, 2, b);
    var landings := map[b := Landing(b.maxTime, true, 0)];
    assert CanClose(cfg.validity, s.chain, b.maxTime, landings);
    s := Take(cfg, s, CloseLedger(b.maxTime, landings));
    assert Paid(s.chain, "k", a) && Paid(s.chain, "k", b);
  }

  // ---- The exact condition ----

  /** Every deposit is paid at most once in every run if and only if the hold ends
      no later than the first instant at which the retry worker may take the row,
      and RPC always reports the range it answers from. */
  lemma PaidOnceIff(cfg: Config)
    requires cfg.Positive() && 0 < cfg.batch && 0 < cfg.second && 0 < cfg.deadline
    ensures (forall s :: Reachable(cfg, s) ==> PaidAtMostOnce(s)) <==> cfg.Hold() <= cfg.cutoff + 1 && cfg.reports
  {
    if cfg.Hold() <= cfg.cutoff + 1 && cfg.reports {
      forall s | Reachable(cfg, s) ensures PaidAtMostOnce(s) { AtMostOnePayment(cfg, s); }
    } else {
      var asset := "native";
      if cfg.accepted != {} { asset :| asset in cfg.accepted; }
      if cfg.reports {
        var s := LateReplyPaysTwice(cfg, asset);
      } else {
        var s := UnreportedRangePaysTwice(cfg, asset);
      }
    }
  }

  /** The deployed constants: a claim's reply may take the minute by which the
      deadline undercuts the cutoff. */
  lemma DeployedFits()
    ensures DEPLOYED.Ok() && DEPLOYED.Hold() <= DEPLOYED.cutoff
    ensures Exclusive(DEPLOYED) && forall s :: Reachable(DEPLOYED, s) ==> PaidAtMostOnce(s)
  {
    ExclusiveIffLagFits(DEPLOYED);
    PaidOnceIff(DEPLOYED);
  }
}
