/** A worker's whole path, with anything else happening between its calls, is part
    of one run of the bridge: nobody else touches its row while it holds it. */
module ForwarderRuns {
  import opened Common
  import opened Ledger
  import opened Resolution
  import opened ForwardTable
  import opened Bridge
  import opened BridgeProof
  import opened BridgeTheorems
  import opened Forwarder

  /** The worker is at `phase` on its deposit, whose row is `row`. */
  predicate Stands(who: Actor, s: State, snap: Row, row: Row, phase: Phase) {
    snap.key in s.cells && var c := s.cells[snap.key];
    && c.row == row && row.key == snap.key
    && if who == Watcher then c.watch.Active? && c.watch.phase == phase
       else c.retry == Running(snap, phase)
  }

  /** Not a step of this worker: not its call, not its end, not a crash. */
  predicate Foreign(who: Actor, e: Event, key: string) {
    && e != Crash && !(who == Watcher && e.WatchDoes? && e.key == key)
    && !(who == Watcher && e.WatchStops? && e.key == key) && !(who == Retrier && e.RetryDoes? && e.key == key)
  }

  /** A watcher worker is inside its deadline. */
  predicate InTime(who: Actor, s: State, key: string) {
    who == Watcher && key in s.cells && s.cells[key].watch.Active? ==> s.now <= s.cells[key].watch.deadline
  }

  lemma ForeignCallKeeps(cfg: Config, who: Actor, s: State, e: Event, snap: Row, row: Row, phase: Phase)
    requires cfg.Ok() && cfg.Hold() <= cfg.cutoff && Inv(cfg, s) && Stands(who, s, snap, row, phase)
    requires InTime(who, s, snap.key) && IsCall(e) && Foreign(who, e, snap.key) && Apply(cfg, s, e).Some?
    ensures Stands(who, Apply(cfg, s, e).value, snap, row, phase)
    ensures Apply(cfg, s, e).value.cells[snap.key] == s.cells[snap.key]
  {
    assert CellOk(cfg, s.now, s.intents, s.chain, snap.key, s.cells[snap.key]);
    if e.key != snap.key { CallElsewhere(cfg, s, e, snap.key); }
  }

  lemma PickUpElsewhere(cfg: Config, who: Actor, s: State, e: Event, snap: Row, row: Row, phase: Phase)
    requires cfg.Ok() && cfg.Hold() <= cfg.cutoff && Inv(cfg, s) && Stands(who, s, snap, row, phase)
    requires InTime(who, s, snap.key) && e.PickUp? && Foreign(who, e, snap.key) && Apply(cfg, s, e).Some?
    ensures Stands(who, Apply(cfg, s, e).value, snap, row, phase)
    ensures who == Watcher ==> Apply(cfg, s, e).value.cells[snap.key].watch == s.cells[snap.key].watch
  {
    assert CellOk(cfg, s.now, s.intents, s.chain, snap.key, s.cells[snap.key]);
  }

  lemma ClaimElsewhere(cfg: Config, who: Actor, s: State, e: Event, snap: Row, row: Row, phase: Phase)
    requires cfg.Ok() && cfg.Hold() <= cfg.cutoff && Inv(cfg, s) && Stands(who, s, snap, row, phase)
    requires InTime(who, s, snap.key) && (e.Claim? || e.Begin?) && Foreign(who, e, snap.key) && Apply(cfg, s, e).Some?
    ensures Stands(who, Apply(cfg, s, e).value, snap, row, phase)
    ensures who == Watcher ==> Apply(cfg, s, e).value.cells[snap.key].watch == s.cells[snap.key].watch
  {
    assert CellOk(cfg, s.now, s.intents, s.chain, snap.key, s.cells[snap.key]);
  }

  lemma TickElsewhere(cfg: Config, who: Actor, s: State, e: Event, snap: Row, row: Row, phase: Phase)
    requires cfg.Ok() && cfg.Hold() <= cfg.cutoff && Inv(cfg, s) && Stands(who, s, snap, row, phase)
    requires InTime(who, s, snap.key) && e.Tick? && Foreign(who, e, snap.key) && Apply(cfg, s, e).Some?
    ensures Stands(who, Apply(cfg, s, e).value, snap, row, phase)
    ensures who == Watcher ==> Apply(cfg, s, e).value.cells[snap.key].watch == s.cells[snap.key].watch
  {
    assert CellOk(cfg, s.now, s.intents, s.chain, snap.key, s.cells[snap.key]);
  }

  lemma WorldElsewhere(cfg: Config, who: Actor, s: State, e: Event, snap: Row, row: Row, phase: Phase)
    requires cfg.Ok() && cfg.Hold() <= cfg.cutoff && Inv(cfg, s) && Stands(who, s, snap, row, phase)
    requires InTime(who, s, snap.key) && !IsCall(e) && !e.PickUp? && !e.Claim? && !e.Begin? && !e.Tick?
             && Foreign(who, e, snap.key) && Apply(cfg, s, e).Some?
    ensures Stands(who, Apply(cfg, s, e).value, snap, row, phase)
    ensures who == Watcher ==> Apply(cfg, s, e).value.cells[snap.key].watch == s.cells[snap.key].watch
  {
    assert CellOk(cfg, s.now, s.intents, s.chain, snap.key, s.cells[snap.key]);
  }

  lemma ForeignKeeps(cfg: Config, who: Actor, s: State, e: Event, snap: Row, row: Row, phase: Phase)
    requires cfg.Ok() && cfg.Hold() <= cfg.cutoff && Inv(cfg, s) && Stands(who, s, snap, row, phase)
    requires InTime(who, s, snap.key) && Foreign(who, e, snap.key) && Apply(cfg, s, e).Some?
    ensures Stands(who, Apply(cfg, s, e).value, snap, row, phase)
    ensures who == Watcher ==> Apply(cfg, s, e).value.cells[snap.key].watch == s.cells[snap.key].watch
  {
    match e
    case WatchDoes(_, _) => ForeignCallKeeps(cfg, who, s, e, snap, row, phase);
    case RetryDoes(_, _) => ForeignCallKeeps(cfg, who, s, e, snap, row, phase);
    case PickUp(_, _) => PickUpElsewhere(cfg, who, s, e, snap, row, phase);
    case Claim(_, _) => ClaimElsewhere(cfg, who, s, e, snap, row, phase);
    case Begin(_) => ClaimElsewhere(cfg, who, s, e, snap, row, phase);
    case Tick(_) => TickElsewhere(cfg, who, s, e, snap, row, phase);
    case _ => WorldElsewhere(cfg, who, s, e, snap, row, phase);
  }

  lemma NowGrows(cfg: Config, s: State, e: Event)
    requires Apply(cfg, s, e).Some?
    ensures s.now <= Apply(cfg, s, e).value.now
  {
  }

  lemma {:induction false} RunNowGrows(cfg: Config, s: State, events: seq<Event>)
    requires Run(cfg, s, events).Some?
    ensures s.now <= Run(cfg, s, events).value.now
    decreases |events|
  {
    if events != [] {
      NowGrows(cfg, s, events[0]);
      RunNowGrows(cfg, Apply(cfg, s, events[0]).value, events[1..]);
    }
  }

  /** Between two of its calls a worker keeps its row, as long as it may act. */
  lemma {:induction false} ForeignRunKeeps(
    cfg: Config, who: Actor, s: State, events: seq<Event>, snap: Row, row: Row, phase: Phase)
    requires cfg.Ok() && cfg.Hold() <= cfg.cutoff && Inv(cfg, s) && Stands(who, s, snap, row, phase)
    requires (forall e :: e in events ==> Foreign(who, e, snap.key)) && Run(cfg, s, events).Some?
    requires who == Watcher ==> Run(cfg, s, events).value.now <= s.cells[snap.key].watch.deadline
    ensures Inv(cfg, Run(cfg, s, events).value) && Stands(who, Run(cfg, s, events).value, snap, row, phase)
    ensures who == Watcher ==> Run(cfg, s, events).value.cells[snap.key].watch == s.cells[snap.key].watch
    ensures Reachable(cfg, s) ==> Reachable(cfg, Run(cfg, s, events).value)
    decreases |events|
  {
    if events != [] {
      var t := Apply(cfg, s, events[0]).value;
      RunNowGrows(cfg, t, events[1..]);
      NowGrows(cfg, s, events[0]);
      ForeignKeeps(cfg, who, s, events[0], snap, row, phase);
      StepKeeps(cfg, s, events[0]);
      if Reachable(cfg, s) { var _ := Take(cfg, s, events[0]); }
      ForeignRunKeeps(cfg, who, t, events[1..], snap, row, phase);
    }
  }

  // ---- A path in a run ----

  function CallOf(who: Actor, key: string, a: Action): Event {
    if who == Watcher then WatchDoes(key, a) else RetryDoes(key, a)
  }

  /** The state after the calls, each preceded by events of others. */
  ghost function Woven(
    cfg: Config, who: Actor, s: State, key: string, calls: seq<(World, Action)>,
      between: seq<seq<Event>>): Option<State>
    requires |between| == |calls|
    decreases |calls|
  {
    if calls == [] then Some(s)
    else
      var n := |calls| - 1;
      var u := Woven(cfg, who, s, key, calls[..n], between[..n]);
      var v := if u.None? then None else Run(cfg, u.value, between[n]);
      if v.None? then None else Apply(cfg, v.value, CallOf(who, key, calls[n].1))
  }

  /** The call finds the world as it is. */
  ghost predicate Meets(who: Actor, u: State, v: State, key: string, w: World) {
    && w.now == v.now && w.chain == v.chain && w.intents == v.intents && w.claims == ClaimsOfOthers(v, key)
    && (who == Watcher && key in u.cells && u.cells[key].watch.Active? ==> v.now <= u.cells[key].watch.deadline)
  }

  /** What happens between the calls can happen, is done by others, and leaves the
      worlds the calls were made in, a watcher worker's within its deadline. */
  ghost predicate Fits(
    cfg: Config, who: Actor, s: State, key: string, calls: seq<(World, Action)>, between: seq<seq<Event>>)
    requires |between| == |calls|
    decreases |calls|
  {
    calls != [] ==>
      var n := |calls| - 1;
      && Fits(cfg, who, s, key, calls[..n], between[..n]) && (forall e :: e in between[n] ==> Foreign(who, e, key))
      && var u := Woven(cfg, who, s, key, calls[..n], between[..n]);
         u.Some? ==>
           var v := Run(cfg, u.value, between[n]);
           v.Some? && Meets(who, u.value, v.value, key, calls[n].0)
  }

  /** Where the path ended, in the machine. */
  predicate Ended(who: Actor, s: State, snap: Row, row: Row, phase: Phase) {
    if phase == Over then snap.key in s.cells && s.cells[snap.key].row == row else Stands(who, s, snap, row, phase)
  }

  lemma CallStands(cfg: Config, who: Actor, u: State, v: State, snap: Row, row: Row, phase: Phase, w: World, a: Action)
    requires cfg.Ok() && Inv(cfg, v) && Stands(who, v, snap, row, phase) && Meets(who, u, v, snap.key, w)
    requires who == Watcher ==> v.now <= v.cells[snap.key].watch.deadline
    requires Step(cfg, who, snap, row, phase, w, a).Some?
    ensures var p := Step(cfg, who, snap, row, phase, w, a).value; var t := Apply(cfg, v, CallOf(who, snap.key, a));
            && t.Some? && Inv(cfg, t.value) && Ended(who, t.value, snap, p.0, p.1)
            && (Reachable(cfg, v) ==> Reachable(cfg, t.value))
  {
    if who == Watcher {
      WatchCallIsEvent(cfg, v, snap.key, w, a);
    } else {
      RetryCallIsEvent(cfg, v, snap.key, w, a);
    }
    StepKeeps(cfg, v, CallOf(who, snap.key, a));
    var t := Apply(cfg, v, CallOf(who, snap.key, a)).value;
    assert CellOk(cfg, t.now, t.intents, t.chain, snap.key, t.cells[snap.key]);
  }

  /** A worker stops where its path does. */
  lemma OverEnds(x: Scene, v: View, a: Action)
    requires v.phase == Over
    ensures Perform(x, v, a).None?
  {
  }

  /** Every call of the path can then be made in turn, the run ends with the row and
      phase the path ends with, and all of it is reachable from where it started. So
      ForwardRecorded and Retry, which only make such paths, keep every guarantee
      of reachable states at each of their steps. */
  lemma {:induction false} PathIsRun(
    cfg: Config, who: Actor, s: State, snap: Row, row: Row, phase: Phase, calls: seq<(World, Action)>,
    between: seq<seq<Event>>)
    requires cfg.Ok() && cfg.Hold() <= cfg.cutoff && Inv(cfg, s) && Stands(who, s, snap, row, phase) && phase != Over
    requires |between| == |calls| && Path(cfg, who, snap, phase, row, calls).Some?
    requires Fits(cfg, who, s, snap.key, calls, between)
    ensures var t := Woven(cfg, who, s, snap.key, calls, between);
            var p := Path(cfg, who, snap, phase, row, calls).value;
            && t.Some? && Inv(cfg, t.value) && Ended(who, t.value, snap, p.0, p.1)
            && (Reachable(cfg, s) ==> Reachable(cfg, t.value))
    decreases |calls|
  {
    if calls != [] {
      var n := |calls| - 1;
      var (w, a) := calls[n];
      PathIsRun(cfg, who, s, snap, row, phase, calls[..n], between[..n]);
      var u := Woven(cfg, who, s, snap.key, calls[..n], between[..n]).value;
      var p := Path(cfg, who, snap, phase, row, calls[..n]).value;
      assert Step(cfg, who, snap, p.0, p.1, w, a).Some?;
      if p.1 == Over {
        OverEnds(Scene(cfg, who, snap.key, w.now, w.intents, w.claims, if who == Watcher then p.0 else snap),
                 View(p.0, p.1, w.chain), a);
        assert false;
      }
      ForeignRunKeeps(cfg, who, u, between[n], snap, p.0, p.1);
      CallStands(cfg, who, u, Run(cfg, u, between[n]).value, snap, p.0, p.1, w, a);
    }
  }
}
