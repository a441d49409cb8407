/** What the deposit bridge guarantees, in every run: any interleaving of
    watcher workers, the retry worker, crashes, lost store calls and ledgers. */
module BridgeTheorems {
  import opened Common
  import opened Ledger
  import opened Resolution
  import opened ForwardTable
  import opened Bridge
  import opened BridgeProof

  // ---- Runs ----

  lemma {:induction false} RunKeeps(cfg: Config, s: State, events: seq<Event>)
    requires cfg.Ok() && Inv(cfg, s) && Run(cfg, s, events).Some?
    ensures Inv(cfg, Run(cfg, s, events).value)
    decreases |events|
  {
    if events != [] {
      StepKeeps(cfg, s, events[0]);
      RunKeeps(cfg, Apply(cfg, s, events[0]).value, events[1..]);
    }
  }

  lemma ReachableKeeps(cfg: Config, s: State)
    requires cfg.Ok() && Reachable(cfg, s)
    ensures Inv(cfg, s)
  {
    var events :| Run(cfg, INITIAL, events) == Some(s);
    RunKeeps(cfg, INITIAL, events);
  }

  lemma {:induction false} RunAppend(cfg: Config, s: State, events: seq<Event>, e: Event)
    requires Run(cfg, s, events).Some?
    ensures Run(cfg, s, events + [e]) == Apply(cfg, Run(cfg, s, events).value, e)
    decreases |events|
  {
    if events == [] {
      assert events + [e] == [e];
      assert [e][1..] == [];
    } else {
      assert (events + [e])[1..] == events[1..] + [e];
      RunAppend(cfg, Apply(cfg, s, events[0]).value, events[1..], e);
    }
  }

  lemma Take(cfg: Config, s: State, e: Event) returns (t: State)
    requires Reachable(cfg, s) && Apply(cfg, s, e).Some?
    ensures Reachable(cfg, t) && t == Apply(cfg, s, e).value
  {
    t := Apply(cfg, s, e).value;
    var events :| Run(cfg, INITIAL, events) == Some(s);
    RunAppend(cfg, INITIAL, events, e);
    assert Run(cfg, INITIAL, events + [e]) == Apply(cfg, s, e);
  }

  // ---- A payment goes out at most once ----

  /** No deposit has two outbound payments that landed successfully, credit and
      recovery counted together. */
  ghost predicate PaidAtMostOnce(s: State) {
    forall key, a, b :: Paid(s.chain, key, a) && Paid(s.chain, key, b) ==> a == b
  }

  lemma AtMostOnePayment(cfg: Config, s: State)
    requires cfg.Ok() && cfg.reports && Reachable(cfg, s)
    ensures PaidAtMostOnce(s)
  {
    ReachableKeeps(cfg, s);
    forall key, a, b | Paid(s.chain, key, a) && Paid(s.chain, key, b) ensures a == b {
      assert CellOk(cfg, s.now, s.intents, s.chain, key, s.cells[key]);
      assert Live(s.chain, a) && Live(s.chain, b);
    }
  }

  /** One outbound transaction belongs to at most one deposit, whatever sequence
      numbers were handed out: no two rows share a submitted_tx or forward_tx,
      and a transaction that landed for one deposit settles no other. */
  lemma OneDepositPerTransaction(cfg: Config, s: State)
    requires cfg.Ok() && Reachable(cfg, s)
    ensures forall j, k :: j in s.cells && k in s.cells && j != k ==> s.cells[j].row.Held() !! s.cells[k].row.Held()
    ensures cfg.reports ==>
              forall j, k, tx :: k in s.cells && Paid(s.chain, j, tx) && tx in s.cells[k].row.Held() ==> j == k
  {
    ReachableKeeps(cfg, s);
    forall j, k, tx | cfg.reports && k in s.cells && Paid(s.chain, j, tx) && tx in s.cells[k].row.Held()
      ensures j == k
    {
      OwnsFromInv(cfg, s, k);
      assert Live(s.chain, tx);
    }
  }

  lemma RecordsWhilePricing(x: Scene, v: View, fee: nat, fate: Fate)
    requires Perform(x, v, Record(fee, fate)).Some?
    ensures v.phase.Pricing?
  {
  }

  /** A new transfer is only ever recorded once nothing sent for the deposit has
      paid it or still can. */
  lemma RecordedOnlyWhenQuiet(cfg: Config, s: State, key: string, fee: nat, fate: Fate)
    requires cfg.Ok() && cfg.reports && Reachable(cfg, s)
    requires Apply(cfg, s, WatchDoes(key, Record(fee, fate))).Some?
             || Apply(cfg, s, RetryDoes(key, Record(fee, fate))).Some?
    ensures Quiet(s.chain, key)
  {
    ReachableKeeps(cfg, s);
    var c := s.cells[key];
    assert CellOk(cfg, s.now, s.intents, s.chain, key, c);
    if Apply(cfg, s, WatchDoes(key, Record(fee, fate))).Some? {
      RecordsWhilePricing(At(cfg, s, key, Watcher, c.row), View(c.row, c.watch.phase, s.chain), fee, fate);
    } else {
      RecordsWhilePricing(At(cfg, s, key, Retrier, c.retry.snap), View(c.row, c.retry.phase, s.chain), fee, fate);
    }
  }

  // ---- Ownership ----

  predicate WatcherCanAct(s: State, key: string) {
    key in s.cells && s.cells[key].watch.Active? && s.now <= s.cells[key].watch.deadline
  }

  predicate RetrierActs(s: State, key: string) {
    key in s.cells && s.cells[key].retry.Running?
  }

  /** When the hold ends within the cutoff, a watcher worker and the retry worker
      never both act on one deposit; and while either acts the row is not final. */
  lemma ExclusiveOwnership(cfg: Config, s: State, key: string)
    requires cfg.Positive() && cfg.Hold() <= cfg.cutoff && Reachable(cfg, s)
    ensures !(WatcherCanAct(s, key) && RetrierActs(s, key))
    ensures WatcherCanAct(s, key) || RetrierActs(s, key) ==> !s.cells[key].row.status.Final()
    ensures RetrierActs(s, key) && Apply(cfg, s, Claim(key, Kept)).Some? ==>
              Apply(cfg, s, Claim(key, Kept)).value.cells[key].watch == NoJob
  {
    ReachableKeeps(cfg, s);
    if key in s.cells {
      assert CellOk(cfg, s.now, s.intents, s.chain, key, s.cells[key]);
    }
  }

  // ---- Rows tell the truth ----

  /** Done means a credit to the intent's address landed, swept that the recovery
      payment did, and no row is both. If RPC reports its ranges, that payment was
      sent for this deposit, and every other payment of it agrees with the row. */
  lemma RowsTellTheTruth(cfg: Config, s: State, key: string)
    requires cfg.Ok() && Reachable(cfg, s) && key in s.cells
    ensures var r := s.cells[key].row;
            && (r.status == Done ==>
                  && r.forwardTx.Some? && PaidFor(cfg, s.chain, key, r.forwardTx.value)
                  && !r.sweep && r.memo in s.intents
                  && r.forwardTx.value.body == Credit(s.intents[r.memo].cAddress, r.pool, r.amount, r.asset))
            && (r.status == Swept ==>
                  && r.forwardTx.Some? && PaidFor(cfg, s.chain, key, r.forwardTx.value) && r.sweep
                  && r.forwardTx.value.body == Recovery(r.pool, r.amount, r.asset))
            && (cfg.reports ==> forall tx :: Paid(s.chain, key, tx) ==> Owed(r, s.intents, tx))
  {
    ReachableKeeps(cfg, s);
    assert CellOk(cfg, s.now, s.intents, s.chain, key, s.cells[key]);
    forall tx | cfg.reports && Paid(s.chain, key, tx) ensures Owed(s.cells[key].row, s.intents, tx) {
      assert Live(s.chain, tx);
    }
  }

  /** A decision to sweep is never undone, and a final row never changes. */
  ghost predicate Settles(r: Row, later: Row) {
    && later.SameDeposit(r)
    && (r.sweep ==> later.sweep)
    && (r.status.Final() ==> later == r)
  }

  predicate IsCall(e: Event) { e.WatchDoes? || e.RetryDoes? }

  /** A worker's call on one deposit leaves every other deposit's cell alone. */
  lemma CallElsewhere(cfg: Config, s: State, e: Event, key: string)
    requires IsCall(e) && e.key != key && Apply(cfg, s, e).Some?
    ensures var t := Apply(cfg, s, e).value;
            && (key in t.cells <==> key in s.cells) && (key in s.cells ==> t.cells[key] == s.cells[key])
            && t.intents == s.intents && t.now == s.now
  {
  }

  lemma CallSettles(cfg: Config, s: State, e: Event)
    requires IsCall(e) && cfg.Ok() && Inv(cfg, s) && Apply(cfg, s, e).Some?
    ensures e.key in s.cells && e.key in Apply(cfg, s, e).value.cells
    ensures Settles(s.cells[e.key].row, Apply(cfg, s, e).value.cells[e.key].row)
    ensures Apply(cfg, s, e).value.chain == s.chain
         || exists tx :: tx in s.cells[e.key].row.Held() && Apply(cfg, s, e).value.chain == Accept(s.chain, tx, e.key)
  {
    var key := e.key;
    var c := s.cells[key];
    assert CellOk(cfg, s.now, s.intents, s.chain, key, c);
    OwnsFromInv(cfg, s, key);
    var who := if e.WatchDoes? then Watcher else Retrier;
    var snap := if e.WatchDoes? then c.row else c.retry.snap;
    var v := View(c.row, if e.WatchDoes? then c.watch.phase else c.retry.phase, s.chain);
    PerformKeeps(At(cfg, s, key, who, snap), v, e.action);
    var w := Perform(At(cfg, s, key, who, snap), v, e.action).value;
    PerformSweeps(At(cfg, s, key, who, snap), v, e.action);
    assert Apply(cfg, s, e).value.cells[key].row == w.row && Apply(cfg, s, e).value.chain == w.chain;
  }

  lemma PerformSweeps(x: Scene, v: View, a: Action)
    requires Perform(x, v, a).Some?
    ensures v.row.sweep ==> Perform(x, v, a).value.row.sweep
  {
  }

  /** All that an event other than a worker's call can do to a deposit. */
  ghost predicate Nudge(s: State, t: State, key: string)
    requires key in s.cells && key in t.cells
  {
    var c, d := s.cells[key], t.cells[key];
    && (d.row == c.row || (c.row.status == Pending && d.row == c.row.Touched(s.now)))
    && (d.watch.Active? ==> d.watch == c.watch || d.watch.phase == Deciding)
    && (d.ticket.Some? ==> d.ticket == c.ticket || d.ticket == Some(c.row))
    && (d.retry.Running? ==>
      d.retry == c.retry || (c.ticket.Some? && d.retry == Running(c.ticket.value, FirstPhase(c.ticket.value))))
    && t.chain.queued == s.chain.queued && Extends(s.intents, t.intents)
  }

  lemma OtherEventsNudge(cfg: Config, s: State, e: Event, key: string)
    requires !IsCall(e) && key in s.cells && Apply(cfg, s, e).Some?
    ensures key in Apply(cfg, s, e).value.cells && Nudge(s, Apply(cfg, s, e).value, key)
  {
    match e
    case Claim(_, _) => ClaimNudges(cfg, s, e, key);
    case PickUp(_, _) => ClaimNudges(cfg, s, e, key);
    case Begin(_) =>
    case Tick(_) =>
    case _ => WorldNudges(cfg, s, e, key);
  }

  lemma ClaimNudges(cfg: Config, s: State, e: Event, key: string)
    requires (e.Claim? || e.PickUp?) && key in s.cells && Apply(cfg, s, e).Some?
    ensures key in Apply(cfg, s, e).value.cells && Nudge(s, Apply(cfg, s, e).value, key)
  {
  }

  lemma WorldNudges(cfg: Config, s: State, e: Event, key: string)
    requires !IsCall(e) && !e.Claim? && !e.PickUp? && !e.Begin? && !e.Tick? && key in s.cells && Apply(cfg, s, e).Some?
    ensures key in Apply(cfg, s, e).value.cells && Nudge(s, Apply(cfg, s, e).value, key)
  {
  }

  lemma StepSettles(cfg: Config, s: State, e: Event, key: string)
    requires cfg.Ok() && Inv(cfg, s) && key in s.cells && Apply(cfg, s, e).Some?
    ensures key in Apply(cfg, s, e).value.cells
    ensures Settles(s.cells[key].row, Apply(cfg, s, e).value.cells[key].row)
  {
    if IsCall(e) {
      if e.key == key { CallSettles(cfg, s, e); } else { CallElsewhere(cfg, s, e, key); }
    } else {
      OtherEventsNudge(cfg, s, e, key);
    }
  }

  lemma {:induction false} DecisionsAreFinal(cfg: Config, s: State, events: seq<Event>, key: string)
    requires cfg.Ok() && Inv(cfg, s) && key in s.cells && Run(cfg, s, events).Some?
    ensures key in Run(cfg, s, events).value.cells
    ensures Settles(s.cells[key].row, Run(cfg, s, events).value.cells[key].row)
    decreases |events|
  {
    if events != [] {
      StepSettles(cfg, s, events[0], key);
      StepKeeps(cfg, s, events[0]);
      DecisionsAreFinal(cfg, Apply(cfg, s, events[0]).value, events[1..], key);
    }
  }
}
