/** The retry budget of the deposit bridge: what is charged, and what never is. */
module BridgeBudget {
  import opened Common
  import opened Ledger
  import opened Resolution
  import opened ForwardTable
  import opened Bridge
  import opened BridgeProof
  import opened BridgeTheorems
  import opened BridgeRouting

  // ---- The retries column counts committed charges ----

  /** The worker's next statement is a MarkForwardFailed. */
  predicate Charging(p: Phase) { p == Closing(Charge) || p == Closing(ChargeAndFail) }

  /** The phase of the worker that makes the call. */
  function Caller(s: State, e: Event): Phase
    requires IsCall(e) && e.key in s.cells
  {
    var c := s.cells[e.key];
    if e.WatchDoes? then (if c.watch.Active? then c.watch.phase else Over)
    else if c.retry.Running? then c.retry.phase else Over
  }

  /** The event commits a MarkForwardFailed for this deposit. */
  predicate Charges(s: State, e: Event, key: string) {
    IsCall(e) && e.key == key && key in s.cells && Charging(Caller(s, e)) && e.action.Write? && e.action.fate.Applied()
  }

  ghost function CountCharges(cfg: Config, s: State, events: seq<Event>, key: string): nat
    requires Run(cfg, s, events).Some?
    decreases |events|
  {
    if events == [] then 0
    else
      (if Charges(s, events[0], key) then 1 else 0)
      + CountCharges(cfg, Apply(cfg, s, events[0]).value, events[1..], key)
  }

  function RetriesOf(s: State, key: string): nat { if key in s.cells then s.cells[key].row.retries else 0 }

  lemma PerformCharges(x: Scene, v: View, a: Action)
    requires Perform(x, v, a).Some?
    ensures var charged := Charging(v.phase) && a.Write? && a.fate.Applied();
            Perform(x, v, a).value.row.retries == v.row.retries + if charged then 1 else 0
  {
  }

  lemma StepCharges(cfg: Config, s: State, e: Event, key: string)
    requires Apply(cfg, s, e).Some?
    ensures RetriesOf(Apply(cfg, s, e).value, key) == RetriesOf(s, key) + if Charges(s, e, key) then 1 else 0
  {
    if IsCall(e) && e.key == key {
      var c := s.cells[key];
      if e.WatchDoes? {
        PerformCharges(At(cfg, s, key, Watcher, c.row), View(c.row, c.watch.phase, s.chain), e.action);
      } else {
        PerformCharges(At(cfg, s, key, Retrier, c.retry.snap), View(c.row, c.retry.phase, s.chain), e.action);
      }
    }
  }

  lemma {:induction false} RetriesCountCharges(cfg: Config, s: State, events: seq<Event>, key: string)
    requires Run(cfg, s, events).Some?
    ensures RetriesOf(Run(cfg, s, events).value, key) == RetriesOf(s, key) + CountCharges(cfg, s, events, key)
    decreases |events|
  {
    if events != [] {
      StepCharges(cfg, s, events[0], key);
      RetriesCountCharges(cfg, Apply(cfg, s, events[0]).value, events[1..], key);
    }
  }

  /** The retries column counts the charged failures, never passes the ceiling,
      and a row closed at the ceiling had exactly that many. */
  lemma RetryBudget(cfg: Config, events: seq<Event>, key: string)
    requires cfg.Ok() && Run(cfg, INITIAL, events).Some?
    requires key in Run(cfg, INITIAL, events).value.cells
    ensures var r := Run(cfg, INITIAL, events).value.cells[key].row;
            var charges := CountCharges(cfg, INITIAL, events, key);
            r.retries == charges <= cfg.maxRetries
            && (r.note == AtCeiling ==> r.status == Failed && charges == cfg.maxRetries)
  {
    RetriesCountCharges(cfg, INITIAL, events, key);
    RunKeeps(cfg, INITIAL, events);
    var s := Run(cfg, INITIAL, events).value;
    assert CellOk(cfg, s.now, s.intents, s.chain, key, s.cells[key]);
  }

  // ---- What is never charged ----

  /** Answers that are not this deposit failing: anything learnt about a transfer
      already sent, a lost race for a slot, a transaction another deposit claims,
      an unknown outcome, a missing trustline. */
  predicate Waits(x: Scene, p: Phase, a: Action) {
    match (p, a)
    case (Resolving(_), _) => true
    case (Drafting(_, _), Stumble(fault)) => fault == Contention || fault == AwaitTrustline
    case (Pricing(goal, _, _, until, source, sequence), Record(fee, fate)) =>
      fate == Kept && Tx(BodyFor(goal, x.snap), source, sequence, fee, until) in x.claims
    case (Sending(_, _, _, _, _), Send(reply)) =>
      reply.Queued? || reply.Broken? || (reply.Rejected? && Classify(reply.result) == Contention)
    case (Polling(_, _, _), Poll(seen)) => seen == Unseen || (seen.SeenFailed? && Classify(seen.result) == Contention)
    case (Forgetting(Resume), _) => true
    case (Forgetting(Report(_, _, fault)), _) => fault == Contention || fault == Unconfirmed || fault == AwaitTrustline
    case _ => false
  }

  /** What makes a failure: the lookup or a write that failed before anything was
      sent, a transfer that cannot be built, and a reported rejection. */
  predicate Fails(p: Phase, a: Action) {
    match (p, a)
    case (Deciding, Route(reached)) => !reached
    case (MarkingSweep, Write(fate)) => fate != Kept
    case (Drafting(_, _), Stumble(fault)) => fault == Permanent || fault == Transient
    case (Pricing(_, _, _, _, _, _), Stumble(_)) => true
    case (Pricing(_, _, _, _, _, _), Record(_, fate)) => fate != Kept
    case (Forgetting(Report(_, _, fault)), _) => fault == Permanent || fault == Transient || fault == FeeTooLow
    case _ => false
  }

  /** A fault reported after a clear is never a wait. */
  predicate Reported(p: Phase) {
    p.Forgetting? && p.next.Report? ==> p.next.fault != Unconfirmed && p.next.fault != AwaitTrustline
  }

  ghost predicate AllReported(s: State) {
    forall k :: k in s.cells ==>
      && (s.cells[k].watch.Active? ==> Reported(s.cells[k].watch.phase))
      && (s.cells[k].retry.Running? ==> Reported(s.cells[k].retry.phase))
  }

  lemma PerformReports(x: Scene, v: View, a: Action)
    requires Perform(x, v, a).Some?
    ensures Reported(Perform(x, v, a).value.phase)
  {
  }

  lemma StepReports(cfg: Config, s: State, e: Event)
    requires AllReported(s) && Apply(cfg, s, e).Some?
    ensures AllReported(Apply(cfg, s, e).value)
  {
    var t := Apply(cfg, s, e).value;
    forall k | k in t.cells
      ensures t.cells[k].watch.Active? ==> Reported(t.cells[k].watch.phase)
      ensures t.cells[k].retry.Running? ==> Reported(t.cells[k].retry.phase)
    {
      if IsCall(e) {
        if e.key == k { CallReports(cfg, s, e); } else { CallElsewhere(cfg, s, e, k); }
      } else if k in s.cells {
        OtherEventsNudge(cfg, s, e, k);
      }
    }
  }

  lemma CallReports(cfg: Config, s: State, e: Event)
    requires IsCall(e) && AllReported(s) && Apply(cfg, s, e).Some?
    ensures e.key in Apply(cfg, s, e).value.cells
    ensures var d := Apply(cfg, s, e).value.cells[e.key];
            && (d.watch.Active? ==> Reported(d.watch.phase)) && (d.retry.Running? ==> Reported(d.retry.phase))
  {
    CallEffect(cfg, s, e);
    var c := s.cells[e.key];
    if e.WatchDoes? {
      PerformReports(At(cfg, s, e.key, Watcher, c.row), View(c.row, c.watch.phase, s.chain), e.action);
    } else {
      PerformReports(At(cfg, s, e.key, Retrier, c.retry.snap), View(c.row, c.retry.phase, s.chain), e.action);
    }
  }

  lemma {:induction false} RunReports(cfg: Config, s: State, events: seq<Event>)
    requires AllReported(s) && Run(cfg, s, events).Some?
    ensures AllReported(Run(cfg, s, events).value)
    decreases |events|
  {
    if events != [] {
      StepReports(cfg, s, events[0]);
      RunReports(cfg, Apply(cfg, s, events[0]).value, events[1..]);
    }
  }

  lemma PerformFails(x: Scene, v: View, a: Action)
    requires Reported(v.phase) && Perform(x, v, a).Some? && Charging(Perform(x, v, a).value.phase)
    ensures Fails(v.phase, a) && !Waits(x, v.phase, a)
  {
  }

  /** Where the worker making a call stands in the machine. */
  ghost function SceneOf(cfg: Config, s: State, e: Event): Scene
    requires IsCall(e) && e.key in s.cells
  {
    var c := s.cells[e.key];
    if e.WatchDoes? then At(cfg, s, e.key, Watcher, c.row)
    else At(cfg, s, e.key, Retrier, if c.retry.Running? then c.retry.snap else c.row)
  }

  /** A worker's call that ends in a decision to charge was a failure. */
  lemma CallFails(cfg: Config, s: State, e: Event)
    requires IsCall(e) && AllReported(s) && Apply(cfg, s, e).Some? && e.key in Apply(cfg, s, e).value.cells
    requires Charging(Caller(Apply(cfg, s, e).value, e))
    ensures e.key in s.cells && Fails(Caller(s, e), e.action) && !Waits(SceneOf(cfg, s, e), Caller(s, e), e.action)
  {
    CallEffect(cfg, s, e);
    var c := s.cells[e.key];
    PerformFails(SceneOf(cfg, s, e), View(c.row, Caller(s, e), s.chain), e.action);
  }

  /** In every reachable state, an answer that only asks to wait leads to no
      charge: it changes no retries, and the worker does not go on to charge. */
  lemma WaitingIsFree(cfg: Config, s: State, e: Event)
    requires Reachable(cfg, s) && IsCall(e) && Apply(cfg, s, e).Some? && e.key in s.cells
    requires Waits(SceneOf(cfg, s, e), Caller(s, e), e.action)
    ensures var t := Apply(cfg, s, e).value;
            RetriesOf(t, e.key) == RetriesOf(s, e.key) && e.key in t.cells && !Charging(Caller(t, e))
  {
    var events :| Run(cfg, INITIAL, events) == Some(s);
    RunReports(cfg, INITIAL, events);
    StepCharges(cfg, s, e, e.key);
    CallEffect(cfg, s, e);
    if Charging(Caller(Apply(cfg, s, e).value, e)) { CallFails(cfg, s, e); }
  }

  // ---- Over whole runs ----

  /** A failure that decided a charge of this deposit. */
  ghost predicate Failure(cfg: Config, s: State, e: Event, key: string)
    requires Apply(cfg, s, e).Some?
  {
    && IsCall(e) && e.key == key && key in s.cells && key in Apply(cfg, s, e).value.cells
    && Fails(Caller(s, e), e.action) && !Waits(SceneOf(cfg, s, e), Caller(s, e), e.action)
    && Charging(Caller(Apply(cfg, s, e).value, e))
  }

  ghost function CountFailures(cfg: Config, s: State, events: seq<Event>, key: string): nat
    requires Run(cfg, s, events).Some?
    decreases |events|
  {
    if events == [] then 0
    else
      (if Failure(cfg, s, events[0], key) then 1 else 0)
      + CountFailures(cfg, Apply(cfg, s, events[0]).value, events[1..], key)
  }

  /** Charges decided and not yet written. */
  function Due(s: State, key: string): nat {
    if key !in s.cells then 0
    else
      (if s.cells[key].watch.Active? && Charging(s.cells[key].watch.phase) then 1 else 0)
      + (if s.cells[key].retry.Running? && Charging(s.cells[key].retry.phase) then 1 else 0)
  }

  lemma CallDue(cfg: Config, s: State, e: Event)
    requires IsCall(e) && AllReported(s) && Apply(cfg, s, e).Some?
    ensures var t := Apply(cfg, s, e).value;
            RetriesOf(t, e.key) + Due(t, e.key)
            <= RetriesOf(s, e.key) + Due(s, e.key) + if Failure(cfg, s, e, e.key) then 1 else 0
  {
    StepCharges(cfg, s, e, e.key);
    CallEffect(cfg, s, e);
    if Charging(Caller(Apply(cfg, s, e).value, e)) { CallFails(cfg, s, e); }
  }

  lemma StepDue(cfg: Config, s: State, e: Event, key: string)
    requires AllReported(s) && Apply(cfg, s, e).Some?
    ensures var t := Apply(cfg, s, e).value;
            RetriesOf(t, key) + Due(t, key)
            <= RetriesOf(s, key) + Due(s, key) + if Failure(cfg, s, e, key) then 1 else 0
  {
    if !IsCall(e) {
      OtherDue(cfg, s, e, key);
    } else if e.key == key {
      CallDue(cfg, s, e);
    } else {
      ElsewhereDue(cfg, s, e, key);
    }
  }

  lemma OtherDue(cfg: Config, s: State, e: Event, key: string)
    requires !IsCall(e) && Apply(cfg, s, e).Some?
    ensures var t := Apply(cfg, s, e).value;
            RetriesOf(t, key) + Due(t, key) <= RetriesOf(s, key) + Due(s, key)
  {
    if key in s.cells { OtherEventsNudge(cfg, s, e, key); }
  }

  lemma ElsewhereDue(cfg: Config, s: State, e: Event, key: string)
    requires IsCall(e) && e.key != key && Apply(cfg, s, e).Some?
    ensures var t := Apply(cfg, s, e).value;
            RetriesOf(t, key) + Due(t, key) == RetriesOf(s, key) + Due(s, key)
  {
    CallElsewhere(cfg, s, e, key);
  }

  lemma {:induction false} RunDue(cfg: Config, s: State, events: seq<Event>, key: string)
    requires AllReported(s) && Run(cfg, s, events).Some?
    ensures var t := Run(cfg, s, events).value;
            RetriesOf(t, key) + Due(t, key) <= RetriesOf(s, key) + Due(s, key) + CountFailures(cfg, s, events, key)
    decreases |events|
  {
    if events != [] {
      StepDue(cfg, s, events[0], key);
      StepReports(cfg, s, events[0]);
      RunDue(cfg, Apply(cfg, s, events[0]).value, events[1..], key);
    }
  }

  // ---- The ceiling ----

  predicate AtMax(cfg: Config, r: Row, p: Phase) { p == Closing(GiveUp(AtCeiling)) ==> cfg.maxRetries <= r.retries }

  /** Closed at the ceiling only with the ceiling's retries: what a worker read of
      them is at most what they are. */
  predicate CeilingOk(cfg: Config, c: Cell) {
    && (c.row.note == AtCeiling ==> cfg.maxRetries <= c.row.retries)
    && (c.ticket.Some? ==> c.ticket.value.retries <= c.row.retries)
    && (c.watch.Active? ==> AtMax(cfg, c.row, c.watch.phase))
    && (c.retry.Running? ==> c.retry.snap.retries <= c.row.retries && AtMax(cfg, c.row, c.retry.phase))
  }

  lemma PerformCeiling(x: Scene, v: View, a: Action)
    requires Perform(x, v, a).Some? && x.snap.retries <= v.row.retries && AtMax(x.cfg, v.row, v.phase)
    requires v.row.note == AtCeiling ==> x.cfg.maxRetries <= v.row.retries
    ensures var w := Perform(x, v, a).value;
            && v.row.retries <= w.row.retries && AtMax(x.cfg, w.row, w.phase)
            && (w.row.note == AtCeiling ==> x.cfg.maxRetries <= w.row.retries)
  {
  }

  lemma CallCeiling(cfg: Config, s: State, e: Event)
    requires IsCall(e) && Apply(cfg, s, e).Some? && e.key in s.cells && CeilingOk(cfg, s.cells[e.key])
    ensures e.key in Apply(cfg, s, e).value.cells && CeilingOk(cfg, Apply(cfg, s, e).value.cells[e.key])
  {
    CallEffect(cfg, s, e);
    var c := s.cells[e.key];
    if e.WatchDoes? {
      PerformCeiling(At(cfg, s, e.key, Watcher, c.row), View(c.row, c.watch.phase, s.chain), e.action);
    } else {
      PerformCeiling(At(cfg, s, e.key, Retrier, c.retry.snap), View(c.row, c.retry.phase, s.chain), e.action);
    }
  }

  lemma StepCeiling(cfg: Config, s: State, e: Event, key: string)
    requires Apply(cfg, s, e).Some? && (key in s.cells ==> CeilingOk(cfg, s.cells[key]))
    ensures var t := Apply(cfg, s, e).value; key in t.cells ==> CeilingOk(cfg, t.cells[key])
  {
    if IsCall(e) {
      CallEffect(cfg, s, e);
      if e.key == key { CallCeiling(cfg, s, e); } else { CallElsewhere(cfg, s, e, key); }
    } else if key in s.cells {
      OtherEventsNudge(cfg, s, e, key);
    }
  }

  lemma {:induction false} RunCeiling(cfg: Config, s: State, events: seq<Event>, key: string)
    requires Run(cfg, s, events).Some? && (key in s.cells ==> CeilingOk(cfg, s.cells[key]))
    ensures var t := Run(cfg, s, events).value; key in t.cells ==> CeilingOk(cfg, t.cells[key])
    decreases |events|
  {
    if events != [] {
      StepCeiling(cfg, s, events[0], key);
      RunCeiling(cfg, Apply(cfg, s, events[0]).value, events[1..], key);
    }
  }

  /** However often a deposit waited for a slot, a confirmation or a trustline,
      its retries are at most the failures that decided a charge; so a row closed
      at the ceiling failed at least that often. */
  lemma ChargesAreFailures(cfg: Config, events: seq<Event>, key: string)
    requires Run(cfg, INITIAL, events).Some? && key in Run(cfg, INITIAL, events).value.cells
    ensures var r := Run(cfg, INITIAL, events).value.cells[key].row;
            && r.retries <= CountFailures(cfg, INITIAL, events, key)
            && (r.note == AtCeiling ==> cfg.maxRetries <= CountFailures(cfg, INITIAL, events, key))
  {
    RunDue(cfg, INITIAL, events, key);
    RunCeiling(cfg, INITIAL, events, key);
  }
}
