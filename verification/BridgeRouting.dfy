/** Where a deposit goes is decided by its landing alone, in every run: nothing
    here depends on who owns a row when, or on what RPC reports. */
module BridgeRouting {
  import opened Common
  import opened Ledger
  import opened Resolution
  import opened ForwardTable
  import opened Bridge
  import opened BridgeProof
  import opened BridgeTheorems

  /** A first attempt and any retry that may still act decide alike, and both
      follow the one rule; the intent's status is never consulted. */
  lemma RoutesAgree(cfg: Config, r: Row, intents: map<nat, Intent>, reached: bool)
    requires r.retries < cfg.maxRetries && !r.sweep
    ensures var l := LookUp(intents, r.memo, reached);
            && FirstRoute(cfg, r, l) == RetryRoute(cfg, r, l)
            && (FirstRoute(cfg, r, l).PayTo? <==> reached && Creditable(cfg, r, intents))
            && (FirstRoute(cfg, r, l).PayTo? ==> FirstRoute(cfg, r, l).to == intents[r.memo].cAddress)
            && (FirstRoute(cfg, r, l) == StartSweep <==>
              !cfg.Accepts(r.asset) || (reached && !Creditable(cfg, r, intents)))
  {
  }

  function GoalOf(p: Phase): Option<Goal> {
    match p
    case Drafting(goal, _) => Some(goal)
    case Pricing(goal, _, _, _, _, _) => Some(goal)
    case Sending(goal, _, _, _, _) => Some(goal)
    case Polling(goal, _, _) => Some(goal)
    case Forgetting(Reprice(goal, _, _, _, _, _)) => Some(goal)
    case Forgetting(Report(goal, _, _)) => Some(goal)
    case _ => None
  }

  /** About to return the deposit, or to record that it was. */
  predicate Returning(p: Phase) {
    p == MarkingSweep || GoalOf(p) == Some(Return) || (p.Closing? && p.verdict.RecordSwept?)
  }

  /** About to credit it, or to record that it was. */
  predicate Paying(p: Phase) {
    (GoalOf(p).Some? && GoalOf(p).value.Pay?) || (p.Closing? && p.verdict.RecordDone?)
  }

  // ---- What one call does to a cell ----

  ghost function Called(cfg: Config, s: State, e: Event): Option<View>
    requires IsCall(e) && e.key in s.cells
  {
    var c := s.cells[e.key];
    if e.WatchDoes? then
      if !c.watch.Active? then None
      else Perform(At(cfg, s, e.key, Watcher, c.row), View(c.row, c.watch.phase, s.chain), e.action)
    else
      if !c.retry.Running? then None
      else Perform(At(cfg, s, e.key, Retrier, c.retry.snap), View(c.row, c.retry.phase, s.chain), e.action)
  }

  lemma CallEffect(cfg: Config, s: State, e: Event)
    requires IsCall(e) && Apply(cfg, s, e).Some?
    ensures e.key in s.cells && Called(cfg, s, e).Some? && e.key in Apply(cfg, s, e).value.cells
    ensures var c, d, w := s.cells[e.key], Apply(cfg, s, e).value.cells[e.key], Called(cfg, s, e).value;
            && Apply(cfg, s, e).value.chain == w.chain && Apply(cfg, s, e).value.intents == s.intents
            && d == if e.WatchDoes?
              then c.(row := w.row, watch := if w.phase == Over then NoJob else c.watch.(phase := w.phase))
                    else c.(row := w.row, retry := if w.phase == Over then Idle else c.retry.(phase := w.phase))
  {
  }

  lemma PerformSends(x: Scene, v: View, a: Action)
    requires Perform(x, v, a).Some?
    ensures var w := Perform(x, v, a).value;
            w.chain == v.chain || (v.phase.Sending? && w.chain == Accept(v.chain, v.phase.tx, x.key))
  {
  }

  // ---- Whatever is sent names the deposit ----

  /** A payment this deposit may lead to. */
  predicate Payable(r: Row, intents: map<nat, Intent>, body: Body) {
    || body == Recovery(r.pool, r.amount, r.asset)
    || (r.memo in intents && body == Credit(intents[r.memo].cAddress, r.pool, r.amount, r.asset))
  }

  predicate NamedPhase(r: Row, intents: map<nat, Intent>, p: Phase) {
    && (GoalOf(p).Some? && GoalOf(p).value.Pay? ==>
          r.memo in intents && GoalOf(p).value.to == intents[r.memo].cAddress)
    && (p.Sending? ==> Payable(r, intents, p.tx.body) && (p.tx.body.Recovery? <==> p.goal == Return))
  }

  predicate NamedCell(intents: map<nat, Intent>, c: Cell) {
    && (c.ticket.Some? ==> c.ticket.value.SameDeposit(c.row))
    && (c.watch.Active? ==> NamedPhase(c.row, intents, c.watch.phase))
    && (c.retry.Running? ==> c.retry.snap.SameDeposit(c.row) && NamedPhase(c.row, intents, c.retry.phase))
  }

  ghost predicate AllPayable(c: Chain, key: string, r: Row, intents: map<nat, Intent>) {
    forall tx :: tx in c.queued && c.queued[tx] == key ==> Payable(r, intents, tx.body)
  }

  lemma PerformNamed(x: Scene, v: View, a: Action)
    requires Perform(x, v, a).Some? && x.snap.SameDeposit(v.row) && NamedPhase(v.row, x.intents, v.phase)
    ensures var w := Perform(x, v, a).value;
            w.row.SameDeposit(v.row) && NamedPhase(w.row, x.intents, w.phase)
  {
  }

  lemma CallNamed(cfg: Config, s: State, e: Event)
    requires IsCall(e) && Apply(cfg, s, e).Some? && e.key in s.cells && NamedCell(s.intents, s.cells[e.key])
    requires AllPayable(s.chain, e.key, s.cells[e.key].row, s.intents)
    ensures var t := Apply(cfg, s, e).value;
            && e.key in t.cells && NamedCell(t.intents, t.cells[e.key])
            && t.cells[e.key].row.SameDeposit(s.cells[e.key].row)
            && AllPayable(t.chain, e.key, t.cells[e.key].row, t.intents)
  {
    CallEffect(cfg, s, e);
    var c := s.cells[e.key];
    if e.WatchDoes? {
      PerformNamed(At(cfg, s, e.key, Watcher, c.row), View(c.row, c.watch.phase, s.chain), e.action);
      PerformSends(At(cfg, s, e.key, Watcher, c.row), View(c.row, c.watch.phase, s.chain), e.action);
    } else {
      PerformNamed(At(cfg, s, e.key, Retrier, c.retry.snap), View(c.row, c.retry.phase, s.chain), e.action);
      PerformSends(At(cfg, s, e.key, Retrier, c.retry.snap), View(c.row, c.retry.phase, s.chain), e.action);
    }
  }

  lemma ElsewhereSends(cfg: Config, s: State, e: Event, key: string)
    requires IsCall(e) && e.key != key && Apply(cfg, s, e).Some?
    ensures var c := Apply(cfg, s, e).value.chain;
            forall tx :: tx in c.queued && c.queued[tx] == key ==> tx in s.chain.queued && s.chain.queued[tx] == key
  {
    CallEffect(cfg, s, e);
    var c := s.cells[e.key];
    if e.WatchDoes? {
      PerformSends(At(cfg, s, e.key, Watcher, c.row), View(c.row, c.watch.phase, s.chain), e.action);
    } else {
      PerformSends(At(cfg, s, e.key, Retrier, c.retry.snap), View(c.row, c.retry.phase, s.chain), e.action);
    }
  }

  lemma StepNamed(cfg: Config, s: State, e: Event, key: string)
    requires key in s.cells && NamedCell(s.intents, s.cells[key]) && Apply(cfg, s, e).Some?
    requires AllPayable(s.chain, key, s.cells[key].row, s.intents)
    ensures var t := Apply(cfg, s, e).value;
            && key in t.cells && NamedCell(t.intents, t.cells[key]) && t.cells[key].row.SameDeposit(s.cells[key].row)
            && AllPayable(t.chain, key, t.cells[key].row, t.intents)
  {
    if !IsCall(e) {
      OtherEventsNudge(cfg, s, e, key);
    } else if e.key == key {
      CallEffect(cfg, s, e);
      CallNamed(cfg, s, e);
    } else {
      CallElsewhere(cfg, s, e, key);
      ElsewhereSends(cfg, s, e, key);
    }
  }

  // ---- A deposit to be credited ----

  predicate OnCell(cfg: Config, intents: map<nat, Intent>, c: Cell) {
    && Creditable(cfg, c.row, intents) && !c.row.sweep && c.row.status != Swept
    && (c.ticket.Some? ==> !c.ticket.value.sweep && c.ticket.value.SameDeposit(c.row))
    && (c.watch.Active? ==> !Returning(c.watch.phase))
    && (c.retry.Running? ==> !Returning(c.retry.phase) && !c.retry.snap.sweep && c.retry.snap.SameDeposit(c.row))
  }

  lemma PerformOn(x: Scene, v: View, a: Action)
    requires Perform(x, v, a).Some? && x.snap.SameDeposit(v.row) && Creditable(x.cfg, v.row, x.intents)
    requires !v.row.sweep && v.row.status != Swept && !x.snap.sweep && !Returning(v.phase)
    ensures var w := Perform(x, v, a).value;
            !w.row.sweep && w.row.status != Swept && w.row.SameDeposit(v.row) && !Returning(w.phase)
  {
  }

  lemma CallOn(cfg: Config, s: State, e: Event)
    requires IsCall(e) && Apply(cfg, s, e).Some? && e.key in s.cells && OnCell(cfg, s.intents, s.cells[e.key])
    ensures e.key in Apply(cfg, s, e).value.cells && OnCell(cfg, s.intents, Apply(cfg, s, e).value.cells[e.key])
  {
    CallEffect(cfg, s, e);
    var c := s.cells[e.key];
    if e.WatchDoes? {
      PerformOn(At(cfg, s, e.key, Watcher, c.row), View(c.row, c.watch.phase, s.chain), e.action);
    } else {
      PerformOn(At(cfg, s, e.key, Retrier, c.retry.snap), View(c.row, c.retry.phase, s.chain), e.action);
    }
  }

  lemma StepOn(cfg: Config, s: State, e: Event, key: string)
    requires key in s.cells && OnCell(cfg, s.intents, s.cells[key]) && Apply(cfg, s, e).Some?
    ensures var t := Apply(cfg, s, e).value; key in t.cells && OnCell(cfg, t.intents, t.cells[key])
  {
    if !IsCall(e) {
      OtherEventsNudge(cfg, s, e, key);
    } else if e.key == key {
      CallEffect(cfg, s, e);
      CallOn(cfg, s, e);
    } else {
      CallElsewhere(cfg, s, e, key);
    }
  }

  /** Nothing sent for this deposit goes to recovery. */
  ghost predicate NoneReturned(c: Chain, key: string) {
    forall tx :: tx in c.queued && c.queued[tx] == key ==> !tx.body.Recovery?
  }

  lemma StepCredits(cfg: Config, s: State, e: Event, key: string)
    requires key in s.cells && OnCell(cfg, s.intents, s.cells[key]) && NoneReturned(s.chain, key)
    requires NamedCell(s.intents, s.cells[key]) && Apply(cfg, s, e).Some?
    ensures NoneReturned(Apply(cfg, s, e).value.chain, key)
  {
    if !IsCall(e) {
      OtherEventsNudge(cfg, s, e, key);
    } else if e.key != key {
      ElsewhereSends(cfg, s, e, key);
    } else {
      CallEffect(cfg, s, e);
      var c := s.cells[key];
      if e.WatchDoes? {
        PerformSends(At(cfg, s, key, Watcher, c.row), View(c.row, c.watch.phase, s.chain), e.action);
      } else {
        PerformSends(At(cfg, s, key, Retrier, c.retry.snap), View(c.row, c.retry.phase, s.chain), e.action);
      }
    }
  }

  // ---- A deposit not to be credited ----

  /** A worker on its way, if anywhere, to recovery. */
  predicate OffPhase(r: Row, snap: Row, p: Phase) {
    && !Paying(p) && (GoalOf(p).Some? ==> r.sweep) && (p.Resolving? ==> snap.sweep)
    && (p.Sending? ==> p.tx.body.Recovery?)
  }

  predicate OffRow(cfg: Config, intents: map<nat, Intent>, r: Row) {
    && !Creditable(cfg, r, intents) && (r.memo in intents || !cfg.Accepts(r.asset))
    && (r.submitted.Some? ==> r.sweep) && r.status != Done
  }

  /** An earlier reading of the row. */
  predicate Earlier(r: Row, snap: Row) { snap.SameDeposit(r) && (snap.sweep ==> r.sweep) }

  predicate OffCell(cfg: Config, intents: map<nat, Intent>, c: Cell) {
    && OffRow(cfg, intents, c.row)
    && (c.ticket.Some? ==>
          Earlier(c.row, c.ticket.value) && (c.ticket.value.submitted.Some? ==> c.ticket.value.sweep))
    && (c.watch.Active? ==> OffPhase(c.row, c.row, c.watch.phase))
    && (c.retry.Running? ==> Earlier(c.row, c.retry.snap) && OffPhase(c.row, c.retry.snap, c.retry.phase))
  }

  /** Everything sent for this deposit goes to recovery. */
  ghost predicate OnlyReturned(c: Chain, key: string) {
    forall tx :: tx in c.queued && c.queued[tx] == key ==> tx.body.Recovery?
  }

  lemma PerformOff(x: Scene, v: View, a: Action)
    requires Perform(x, v, a).Some? && OffRow(x.cfg, x.intents, v.row) && Earlier(v.row, x.snap)
    requires OffPhase(v.row, x.snap, v.phase)
    ensures var w := Perform(x, v, a).value;
            && OffRow(x.cfg, x.intents, w.row) && w.row.SameDeposit(v.row) && (v.row.sweep ==> w.row.sweep)
            && OffPhase(w.row, x.snap, w.phase)
  {
  }

  lemma CallOff(cfg: Config, s: State, e: Event)
    requires IsCall(e) && Apply(cfg, s, e).Some? && e.key in s.cells && OffCell(cfg, s.intents, s.cells[e.key])
    ensures e.key in Apply(cfg, s, e).value.cells && OffCell(cfg, s.intents, Apply(cfg, s, e).value.cells[e.key])
  {
    CallEffect(cfg, s, e);
    var c := s.cells[e.key];
    if e.WatchDoes? {
      PerformOff(At(cfg, s, e.key, Watcher, c.row), View(c.row, c.watch.phase, s.chain), e.action);
    } else {
      PerformOff(At(cfg, s, e.key, Retrier, c.retry.snap), View(c.row, c.retry.phase, s.chain), e.action);
    }
  }

  lemma CallReturns(cfg: Config, s: State, e: Event, key: string)
    requires IsCall(e) && Apply(cfg, s, e).Some? && OnlyReturned(s.chain, key)
    requires e.key == key && key in s.cells ==> OffCell(cfg, s.intents, s.cells[key])
    ensures OnlyReturned(Apply(cfg, s, e).value.chain, key)
  {
    CallEffect(cfg, s, e);
    var c := s.cells[e.key];
    if e.WatchDoes? {
      PerformSends(At(cfg, s, e.key, Watcher, c.row), View(c.row, c.watch.phase, s.chain), e.action);
    } else {
      PerformSends(At(cfg, s, e.key, Retrier, c.retry.snap), View(c.row, c.retry.phase, s.chain), e.action);
    }
  }

  lemma StepOff(cfg: Config, s: State, e: Event, key: string)
    requires key in s.cells && OffCell(cfg, s.intents, s.cells[key]) && OnlyReturned(s.chain, key)
    requires Apply(cfg, s, e).Some?
    ensures var t := Apply(cfg, s, e).value;
            key in t.cells && OffCell(cfg, t.intents, t.cells[key]) && OnlyReturned(t.chain, key)
  {
    if !IsCall(e) {
      OtherEventsNudge(cfg, s, e, key);
    } else {
      CallReturns(cfg, s, e, key);
      if e.key == key {
        CallEffect(cfg, s, e);
        CallOff(cfg, s, e);
      } else {
        CallElsewhere(cfg, s, e, key);
      }
    }
  }

  // ---- Runs ----

  lemma KeyStays(cfg: Config, s: State, e: Event, key: string)
    requires key in s.cells && Apply(cfg, s, e).Some?
    ensures key in Apply(cfg, s, e).value.cells
  {
    if !IsCall(e) {
      OtherEventsNudge(cfg, s, e, key);
    } else if e.key == key {
      CallEffect(cfg, s, e);
    } else {
      CallElsewhere(cfg, s, e, key);
    }
  }

  lemma {:induction false} CourseHolds(cfg: Config, s: State, events: seq<Event>, key: string)
    requires key in s.cells && Run(cfg, s, events).Some?
    ensures var t := Run(cfg, s, events).value;
            && key in t.cells
            && (NamedCell(s.intents, s.cells[key]) && AllPayable(s.chain, key, s.cells[key].row, s.intents) ==>
                  && NamedCell(t.intents, t.cells[key]) && t.cells[key].row.SameDeposit(s.cells[key].row)
                  && AllPayable(t.chain, key, t.cells[key].row, t.intents)
                  && (OnCell(cfg, s.intents, s.cells[key]) && NoneReturned(s.chain, key) ==>
                        OnCell(cfg, t.intents, t.cells[key]) && NoneReturned(t.chain, key)))
            && (OffCell(cfg, s.intents, s.cells[key]) && OnlyReturned(s.chain, key) ==>
                  OffCell(cfg, t.intents, t.cells[key]) && OnlyReturned(t.chain, key))
    decreases |events|
  {
    if events != [] {
      KeyStays(cfg, s, events[0], key);
      if NamedCell(s.intents, s.cells[key]) && AllPayable(s.chain, key, s.cells[key].row, s.intents) {
        StepNamed(cfg, s, events[0], key);
        if OnCell(cfg, s.intents, s.cells[key]) && NoneReturned(s.chain, key) {
          StepOn(cfg, s, events[0], key);
          StepCredits(cfg, s, events[0], key);
        }
      }
      if OffCell(cfg, s.intents, s.cells[key]) && OnlyReturned(s.chain, key) { StepOff(cfg, s, events[0], key); }
      CourseHolds(cfg, Apply(cfg, s, events[0]).value, events[1..], key);
    }
  }

  /** Everything was sent for a recorded deposit. */
  ghost predicate SentForKnown(s: State) { forall tx :: tx in s.chain.queued ==> s.chain.queued[tx] in s.cells }

  lemma StepKnown(cfg: Config, s: State, e: Event)
    requires SentForKnown(s) && Apply(cfg, s, e).Some?
    ensures SentForKnown(Apply(cfg, s, e).value)
  {
    var t := Apply(cfg, s, e).value;
    forall k | k in s.cells ensures k in t.cells { KeyStays(cfg, s, e, k); }
    if IsCall(e) {
      CallEffect(cfg, s, e);
      var c := s.cells[e.key];
      if e.WatchDoes? {
        PerformSends(At(cfg, s, e.key, Watcher, c.row), View(c.row, c.watch.phase, s.chain), e.action);
      } else {
        PerformSends(At(cfg, s, e.key, Retrier, c.retry.snap), View(c.row, c.retry.phase, s.chain), e.action);
      }
    } else {
      assert t.chain.queued == s.chain.queued;
    }
  }

  lemma {:induction false} RunKnown(cfg: Config, s: State, events: seq<Event>)
    requires SentForKnown(s) && Run(cfg, s, events).Some?
    ensures SentForKnown(Run(cfg, s, events).value)
    decreases |events|
  {
    if events != [] {
      StepKnown(cfg, s, events[0]);
      RunKnown(cfg, Apply(cfg, s, events[0]).value, events[1..]);
    }
  }

  /** The state's intents keep their address and expiry in every run. */
  lemma {:induction false} IntentsStay(cfg: Config, s: State, events: seq<Event>)
    requires Run(cfg, s, events).Some?
    ensures Extends(s.intents, Run(cfg, s, events).value.intents)
    decreases |events|
  {
    if events != [] { IntentsStay(cfg, Apply(cfg, s, events[0]).value, events[1..]); }
  }

  /** The network accepted tx on this deposit's behalf. */
  predicate SentFor(c: Chain, key: string, tx: Tx) { tx in c.queued && c.queued[tx] == key }

  /** From the moment a deposit is inserted, everything sent for it pays what was
      received out of the pool that received it. One that landed in time, in an
      accepted asset, for an existing intent is never swept and pays only that
      intent's address; one that landed late, or in an asset not accepted, is
      never credited and pays only recovery. Time, crashes, retries, overlapping
      workers and the intent's status change none of this. */
  lemma RoutingHolds(cfg: Config, s: State, insert: Event, events: seq<Event>)
    requires Reachable(cfg, s) && insert.Insert? && insert.key !in s.cells
    requires Apply(cfg, s, insert).Some? && Run(cfg, Apply(cfg, s, insert).value, events).Some?
    ensures var t := Run(cfg, Apply(cfg, s, insert).value, events).value;
            && insert.key in t.cells && t.cells[insert.key].row.landedAt == insert.landedAt
            && t.cells[insert.key].row.Names(insert.memo, insert.pool, insert.amount, insert.asset)
            && forall tx :: SentFor(t.chain, insert.key, tx) ==>
                 || tx.body == Recovery(insert.pool, insert.amount, insert.asset)
                 || (&& insert.memo in t.intents
                     && tx.body == Credit(t.intents[insert.memo].cAddress, insert.pool, insert.amount, insert.asset))
    ensures var t := Run(cfg, Apply(cfg, s, insert).value, events).value;
            var known := insert.memo in s.intents;
            var inTime := known && insert.landedAt <= s.intents[insert.memo].expiresAt;
            && (cfg.Accepts(insert.asset) && inTime ==>
                  && !t.cells[insert.key].row.sweep && t.cells[insert.key].row.status != Swept
                  && forall tx :: SentFor(t.chain, insert.key, tx) ==>
                       tx.body == Credit(s.intents[insert.memo].cAddress, insert.pool, insert.amount, insert.asset))
            && (!cfg.Accepts(insert.asset) || (known && !inTime) ==>
                  && t.cells[insert.key].row.status != Done
                  && forall tx :: SentFor(t.chain, insert.key, tx) ==>
                       tx.body == Recovery(insert.pool, insert.amount, insert.asset))
  {
    var before :| Run(cfg, INITIAL, before) == Some(s);
    RunKnown(cfg, INITIAL, before);
    CourseHolds(cfg, Apply(cfg, s, insert).value, events, insert.key);
    IntentsStay(cfg, Apply(cfg, s, insert).value, events);
  }
}
