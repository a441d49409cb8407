/** The forwarder's own control flow, loops and all, against the machine: every
    path through ForwardRecorded and Retry makes only calls the machine allows,
    whatever the other workers and the network do between two of them. */
module Forwarder {
  import opened Common
  import opened Ledger
  import opened Resolution
  import opened ForwardTable
  import opened Bridge
  import opened BridgeTheorems
  import opened BridgeOutcomes
  import opened FeeBump

  /** How preparing a transfer ends: a source and sequence number with the
      simulated resource fee, or one of the errors raised before sending. */
  datatype Prep =
    | Ready(source: string, sequence: int, resource: nat, viaChannel: bool)
    | CannotBuild | TryAnother | Busy | NoTrustline

  /** The world at one call: what the rest of it looks like, and its answer. */
  datatype World = World(
    now: int, chain: Chain, intents: map<nat, Intent>, claims: set<Tx>,
    fate: Fate, answered: bool, response: Response, reached: bool, prep: Prep, sealed: bool,
    send: SendReply, cancelled: bool, heard: bool, result: Result)

  // ---- Paths of the machine ----

  /** One call of one worker, as Bridge performs it. A watcher worker reads the
      row as it is, a retry as it was fetched. */
  ghost function Step(
    cfg: Config, who: Actor, snap: Row, row: Row, phase: Phase, w: World, a: Action): Option<(Row, Phase)> {
    var v := Perform(Scene(cfg, who, snap.key, w.now, w.intents, w.claims, if who == Watcher then row else snap),
      View(row, phase, w.chain), a);
    if v.None? then None else Some((v.value.row, v.value.phase))
  }

  /** The row and phase after a sequence of calls, each in a world of its own. */
  ghost function Path(
    cfg: Config, who: Actor, snap: Row, phase: Phase, row: Row, calls: seq<(World, Action)>): Option<(Row, Phase)> {
    if calls == [] then Some((row, phase))
    else
      var p := Path(cfg, who, snap, phase, row, calls[..|calls| - 1]);
      var c := calls[|calls| - 1];
      if p.None? then None else Step(cfg, who, snap, p.value.0, p.value.1, c.0, c.1)
  }

  lemma PathAppend(
    cfg: Config, who: Actor, snap: Row, phase: Phase, row: Row, calls: seq<(World, Action)>, w: World, a: Action)
    requires Path(cfg, who, snap, phase, row, calls).Some?
    ensures var p := Path(cfg, who, snap, phase, row, calls).value;
            Path(cfg, who, snap, phase, row, calls + [(w, a)]) == Step(cfg, who, snap, p.0, p.1, w, a)
  {
    assert (calls + [(w, a)])[..|calls|] == calls;
  }

  /** A watcher worker's call is an event of the bridge in any state with that
      world, and so is a retry's: the next state is reachable if this one is, and
      every theorem about reachable states holds of it. */
  lemma WatchCallIsEvent(cfg: Config, s: State, key: string, w: World, a: Action)
    requires key in s.cells && s.cells[key].row.key == key && s.cells[key].watch.Active?
             && s.now <= s.cells[key].watch.deadline
    requires w.now == s.now && w.chain == s.chain && w.intents == s.intents && w.claims == ClaimsOfOthers(s, key)
    ensures var c := s.cells[key];
            var next, p := Apply(cfg, s, WatchDoes(key, a)), Step(cfg, Watcher, c.row, c.row, c.watch.phase, w, a);
            if p.None? then next.None?
            else
              var watch := if p.value.1 == Over then NoJob else c.watch.(phase := p.value.1);
              next.Some? && next.value.cells[key] == c.(row := p.value.0, watch := watch)
    ensures Reachable(cfg, s) && Apply(cfg, s, WatchDoes(key, a)).Some? ==>
            Reachable(cfg, Apply(cfg, s, WatchDoes(key, a)).value)
  {
    if Reachable(cfg, s) && Apply(cfg, s, WatchDoes(key, a)).Some? { var _ := Take(cfg, s, WatchDoes(key, a)); }
  }

  lemma RetryCallIsEvent(cfg: Config, s: State, key: string, w: World, a: Action)
    requires key in s.cells && s.cells[key].retry.Running? && s.cells[key].retry.snap.key == key
    requires w.now == s.now && w.chain == s.chain && w.intents == s.intents && w.claims == ClaimsOfOthers(s, key)
    ensures var c := s.cells[key];
            var next, p := Apply(cfg, s, RetryDoes(key, a)),
              Step(cfg, Retrier, c.retry.snap, c.row, c.retry.phase, w, a);
            if p.None? then next.None?
            else
              var retry := if p.value.1 == Over then Idle else c.retry.(phase := p.value.1);
              next.Some? && next.value.cells[key] == c.(row := p.value.0, retry := retry)
    ensures Reachable(cfg, s) && Apply(cfg, s, RetryDoes(key, a)).Some? ==>
            Reachable(cfg, Apply(cfg, s, RetryDoes(key, a)).value)
  {
    if Reachable(cfg, s) && Apply(cfg, s, RetryDoes(key, a)).Some? { var _ := Take(cfg, s, RetryDoes(key, a)); }
  }

  // ---- One worker ----

  /** Truncate(time.Second): the latest whole second no later than t. */
  function WholeSeconds(t: int, second: nat): int
    requires 0 < second
  {
    t - t % second
  }

  lemma WholeSecondsOk(t: int, second: nat)
    requires 0 < second
    ensures var u := WholeSeconds(t, second); u <= t < u + second && u % second == 0
  {
    assert t - t % second == t / second * second + 0;
    RemainderOf(t / second, second, 0);
  }

  // ---- What a worker hears ----

  /** The call at `phase` is the one the world's answers make: nothing is assumed
      lost that was answered, nor answered that was lost. Only the fee of a
      recorded transaction is the worker's own choice. */
  ghost predicate Heard(cfg: Config, phase: Phase, w: World, a: Action) {
    match phase
    case Resolving(_) => a == if w.answered then Answer(w.response) else NoAnswer
    case Deciding => a == Route(w.reached)
    case Drafting(goal, attempt) =>
      && (attempt > 0 ==> !w.cancelled)
      && (match w.prep
          case Ready(source, sequence, _, _) =>
            0 < cfg.second && a == Draft(source, sequence, WholeSeconds(w.now + cfg.validity, cfg.second))
          case CannotBuild => a == Stumble(Permanent)
          case TryAnother => a == Stumble(Transient)
          case Busy => a == Stumble(Contention)
          case NoTrustline => a == Stumble(if goal == Return then AwaitTrustline else Transient))
    case Pricing(_, _, _, _, _, _) => if w.sealed then a.Record? && a.fate == w.fate else a == Stumble(Permanent)
    case Sending(_, _, _, _, tries) => a == if tries > 0 && w.cancelled then Cancel else Send(w.send)
    case Polling(_, _, tx) =>
      a == Poll(if !w.heard || tx !in w.chain.landed then Unseen
                else if w.chain.landed[tx].ok then SeenOk else SeenFailed(w.result))
    case _ => a == Write(w.fate)
  }

  /** The calls a worker made, one in each world in turn, each the one its world's
      answers make, and the row and phase before and after every one. */
  ghost predicate Trace(
    cfg: Config, who: Actor, snap: Row, world: nat -> World, states: seq<(Row, Phase)>, actions: seq<Action>) {
    && |states| == |actions| + 1
    && (forall i {:trigger actions[i]} :: 0 <= i < |actions| ==>
          && Heard(cfg, states[i].1, world(i), actions[i])
          && Step(cfg, who, snap, states[i].0, states[i].1, world(i), actions[i]) == Some(states[i + 1]))
  }

  function Calls(world: nat -> World, actions: seq<Action>): seq<(World, Action)> {
    seq(|actions|, i requires 0 <= i < |actions| => (world(i), actions[i]))
  }

  lemma TraceIsPath(
    cfg: Config, who: Actor, snap: Row, world: nat -> World, states: seq<(Row, Phase)>, actions: seq<Action>)
    requires Trace(cfg, who, snap, world, states, actions)
    ensures Path(cfg, who, snap, states[0].1, states[0].0, Calls(world, actions)) == Some(states[|actions|])
  {
    TraceIsPathTo(cfg, who, snap, world, states, actions, |actions|);
    assert Calls(world, actions)[..|actions|] == Calls(world, actions);
  }

  lemma {:induction false} TraceIsPathTo(
    cfg: Config, who: Actor, snap: Row, world: nat -> World, states: seq<(Row, Phase)>, actions: seq<Action>, n: nat)
    requires Trace(cfg, who, snap, world, states, actions) && n <= |actions|
    ensures Path(cfg, who, snap, states[0].1, states[0].0, Calls(world, actions)[..n]) == Some(states[n])
  {
    var calls := Calls(world, actions);
    if n > 0 {
      TraceIsPathTo(cfg, who, snap, world, states, actions, n - 1);
      var p := states[n - 1];
      assert Step(cfg, who, snap, p.0, p.1, world(n - 1), actions[n - 1]) == Some(states[n]);
      PathAppend(cfg, who, snap, states[0].1, states[0].0, calls[..n - 1], world(n - 1), actions[n - 1]);
      assert calls[..n] == calls[..n - 1] + [(world(n - 1), actions[n - 1])];
    }
  }

  lemma OneAnswer(cfg: Config, who: Actor, snap: Row, row: Row, phase: Phase, w: World, a: Action, b: Action)
    requires Heard(cfg, phase, w, a) && Heard(cfg, phase, w, b)
    requires Step(cfg, who, snap, row, phase, w, a).Some? && Step(cfg, who, snap, row, phase, w, b).Some?
    requires a.Record? && b.Record? ==> a.fee == b.fee
    ensures a == b
  {
  }

  /** What the worlds answer decides a worker's every call: two workers that start
      alike in the same worlds, and bid the same fees, make the same calls. */
  lemma {:induction false} WorldsDecide(
    cfg: Config, who: Actor, snap: Row, world: nat -> World, s: seq<(Row, Phase)>, a: seq<Action>,
    t: seq<(Row, Phase)>, b: seq<Action>, n: nat)
    requires Trace(cfg, who, snap, world, s, a) && Trace(cfg, who, snap, world, t, b) && s[0] == t[0]
    requires n <= |a| && n <= |b|
    requires forall i :: 0 <= i < n && a[i].Record? && b[i].Record? ==> a[i].fee == b[i].fee
    ensures (forall i :: 0 <= i < n ==> a[i] == b[i]) && (forall i :: 0 <= i <= n ==> s[i] == t[i])
    decreases n
  {
    if n > 0 {
      WorldsDecide(cfg, who, snap, world, s, a, t, b, n - 1);
      OneAnswer(cfg, who, snap, s[n - 1].0, s[n - 1].1, world(n - 1), a[n - 1], b[n - 1]);
    }
  }

  lemma TraceMore(
    cfg: Config, who: Actor, snap: Row, world: nat -> World, states: seq<(Row, Phase)>, actions: seq<Action>, a: Action)
    requires Trace(cfg, who, snap, world, states, actions)
    requires var (row, phase) := states[|actions|]; var w := world(|actions|);
             Heard(cfg, phase, w, a) && Step(cfg, who, snap, row, phase, w, a).Some?
    ensures var (row, phase) := states[|actions|];
            Trace(cfg, who, snap, world,
              states + [Step(cfg, who, snap, row, phase, world(|actions|), a).value], actions + [a])
  {
  }

  /** What an inclusion fee costs: a channel's fee-bump pays it twice. */
  function Inclusive(viaChannel: bool, inclusion: nat): nat { if viaChannel then 2 * inclusion else inclusion }

  /** The first fee bids the least inclusion fee, each later one twice the
      inclusion fee of the one before. */
  predicate Doubling(fees: seq<nat>, resource: nat, viaChannel: bool) {
    && (fees != [] ==> fees[0] == resource + if viaChannel then 200 else 100)
    && (forall i, j :: 0 <= i < |fees| - 1 && j == i + 1 ==> fees[j] - resource == 2 * (fees[i] - resource))
  }

  /** The bids so far, and the inclusion fee to bid next. */
  predicate BiddingNext(fees: seq<nat>, resource: nat, viaChannel: bool, inclusion: nat) {
    && Doubling(fees, resource, viaChannel)
    && Inclusive(viaChannel, inclusion)
       == if fees == [] then Inclusive(viaChannel, MIN_BASE_FEE) else 2 * (fees[|fees| - 1] - resource)
  }

  lemma DoublingMore(fees: seq<nat>, resource: nat, viaChannel: bool, inclusion: nat, bid: seq<nat>)
    requires BiddingNext(fees, resource, viaChannel, inclusion)
    requires bid == [] || bid == [Inclusive(viaChannel, inclusion) + resource]
    ensures Doubling(fees + bid, resource, viaChannel)
    ensures bid != [] ==> BiddingNext(fees + bid, resource, viaChannel, 2 * inclusion)
  {
    assert bid == [] ==> fees + bid == fees;
  }

  // ---- What a path leaves on the row ----

  /** Of how the deposit ended, or is to end, nothing but what is in flight differs. */
  predicate InFlightOnly(r: Row, q: Row) {
    q.status == r.status && q.retries == r.retries && q.sweep == r.sweep && q.forwardTx == r.forwardTx
  }

  /** The row q that a closing statement leaves of r. */
  predicate Written(v: Verdict, r: Row, q: Row) {
    match v
    case RecordDone(tx) => Names(Done, tx, r, q)
    case RecordSwept(tx) => Names(Swept, tx, r, q)
    case Requeue => Requeues(r, q)
    case Charge => IsCharged(r, q, PendingRetry)
    case ChargeAndFail => IsCharged(r, q, Failed)
    case GiveUp(why) => GivesUp(r, q, why)
  }

  /** The row names the transaction that settled it, and holds no other. */
  predicate Names(to: Status, tx: Tx, r: Row, q: Row) {
    && q.status == to && q.forwardTx == Some(tx) && q.submitted == None
    && q.retries == r.retries && q.sweep == r.sweep
  }

  /** A transfer that ended so is charged for. */
  predicate ChargedFor(who: Actor, goal: Goal, end: Transferred) {
    && end.Stopped? && end.why != Unconfirmed && end.why != Contention
    && (end.why == AwaitTrustline ==> goal != Return)
    && (end.why == Permanent ==> who == Watcher && goal.Pay?)
  }

  /** The row q that a transfer from r leaves once its end is written: a landed one
      is named, one that may still land is kept, and only a permanent cause closes
      the row as failed. */
  predicate Ends(who: Actor, goal: Goal, end: Transferred, r: Row, q: Row) {
    && q.sweep == r.sweep && q.retries == r.retries + (if ChargedFor(who, goal, end) then 1 else 0)
    && match end
       case Landed(tx) => Names(if goal == Return then Swept else Done, tx, r, q)
       case Stopped(why) =>
         && q.status == (if why == Permanent then Failed else PendingRetry) && q.forwardTx == r.forwardTx
         && (why == Unconfirmed ==> q.submitted.Some?)
  }

  lemma EndWritten(cfg: Config, who: Actor, goal: Goal, attempt: nat, end: Transferred, r: Row, mid: Row, v: Verdict,
                   q: Row)
    requires InFlightOnly(r, mid) && Written(v, mid, q)
    requires end.Landed? ==> v == if goal == Return then RecordSwept(end.tx) else RecordDone(end.tx)
    requires end.Stopped? ==> AfterFault(cfg, who, goal, attempt, end.why) == Closing(v)
    requires end == Stopped(Unconfirmed) ==> mid.submitted.Some?
    ensures Ends(who, goal, end, r, q)
  {
  }

  /** The row q that a sweep from r leaves, its decision written at `mark` and its
      end at `last`: nothing is sent unless the decision is known to be kept. */
  predicate Sweeps(who: Actor, mark: World, last: World, end: Option<Transferred>, r: Row, q: Row) {
    var decided := if mark.fate.Applied() then r.(sweep := true) else r;
    && (end.None? <==> mark.fate != Kept)
    && (last.fate.Applied() ==>
          if end.None? then IsCharged(decided, q, PendingRetry) else Ends(who, Return, end.value, decided, q))
  }

  /** The deposit is to be credited, by what the lookup found. */
  predicate Credits(cfg: Config, snap: Row, w: World) {
    && cfg.Accepts(snap.asset) && w.reached && snap.memo in w.intents
    && snap.landedAt <= w.intents[snap.memo].expiresAt
  }

  /** Only a lookup that failed leaves it open where an accepted asset goes. */
  predicate Unknown(cfg: Config, snap: Row, w: World) { cfg.Accepts(snap.asset) && !w.reached }

  /** The recorded transfer has paid nothing and, as far as the answer tells, never
      will: it failed for a cause that may pass, or is not found past its max time
      in a range that begins early enough or is not reported. */
  predicate MayRebuild(cfg: Config, resp: Response, until: int, now: int) {
    match resp.status
    case FoundOk => false
    case FoundFailed(result) => CodeOf(result) != Some(OtherCode)
    case NotFound =>
      !MayLand(cfg, resp, until, now) && (resp.oldest != 0 ==> resp.oldest <= until - cfg.validity)
  }

  /** The row q that resolveSubmitted leaves of r, by RPC's answer in w and what
      becomes of the statement that follows. */
  predicate Resolved(cfg: Config, snap: Row, w: World, fate: Fate, r: Row, q: Row)
    requires snap.submitted.Some?
  {
    var sub := snap.submitted.value;
    if !fate.Applied() then q == r
    else if !w.answered then Requeues(r, q)
    else if MayRebuild(cfg, w.response, sub.until, w.now) then LetsGo(r, q)
    else match w.response.status
      case FoundOk => Names(if snap.sweep then Swept else Done, sub.tx, r, q)
      case FoundFailed(_) => GivesUp(r, q, Refused)
      case NotFound =>
        if MayLand(cfg, w.response, sub.until, w.now) then Requeues(r, q) else GivesUp(r, q, Unresolvable)
  }

  /** The row q that a retry leaves of r once no transfer is left to resolve: w is
      the world it decides in, next that of its next call, last that of its last. */
  predicate Retried(
    cfg: Config, snap: Row, w: World, next: World, last: World, end: Option<Transferred>, r: Row, q: Row) {
    if snap.retries >= cfg.maxRetries then last.fate.Applied() ==> GivesUp(r, q, AtCeiling)
    else if snap.sweep then end.Some? && (last.fate.Applied() ==> Ends(Retrier, Return, end.value, r, q))
    else if Credits(cfg, snap, w) then
      var goal := Pay(w.intents[snap.memo].cAddress);
      end.Some? && (last.fate.Applied() ==> Ends(Retrier, goal, end.value, r, q))
    else if Unknown(cfg, snap, w) then last.fate.Applied() ==> IsCharged(r, q, PendingRetry)
    else Sweeps(Retrier, next, last, end, r, q)
  }

  lemma SameRetried(cfg: Config, snap: Row, w: World, next: World, last: World, end: Option<Transferred>, r: Row,
                    like: Row, q: Row)
    requires Retried(cfg, snap, w, next, last, end, r, q) && LetsGo(like, r)
    ensures Retried(cfg, snap, w, next, last, end, like.(submitted := None), q)
  {
  }

  datatype Sent = Accepted | Err(fault: Fault)

  /** Time does not go back, and a store call that commits gets a time later than
      every call before it. Nothing else is asked of when the calls are made. */
  ghost predicate Clock(world: nat -> World) {
    forall i, j :: 0 <= i < j ==>
      world(i).now <= world(j).now && (world(j).fate.Applied() ==> world(i).now < world(j).now)
  }

  /** The row was last written before the calls from `made` on. */
  ghost predicate Timely(world: nat -> World, made: nat, updatedAt: int) {
    forall i :: made <= i ==> updatedAt <= world(i).now && (world(i).fate.Applied() ==> updatedAt < world(i).now)
  }

  datatype Transferred = Landed(tx: Tx) | Stopped(why: Fault)

  /** Where a worker goes from one send. */
  function AfterSend(
    cfg: Config, who: Actor, goal: Goal, attempt: nat, bump: nat, tx: Tx, tries: nat, reply: SendReply): Phase {
    match reply
    case Queued => Polling(goal, attempt, tx)
    case Broken(_) => AfterFault(cfg, who, goal, attempt, Unconfirmed)
    case TryLater => if tries < cfg.tryAgain then Sending(goal, attempt, bump, tx, tries + 1)
      else Forgetting(Report(goal, attempt, Transient))
    case Rejected(result) =>
      var fault := Classify(result);
      Forgetting(if fault == FeeTooLow && bump < cfg.feeRetries
                 then Reprice(goal, attempt, bump + 1, tx.maxTime, tx.source, tx.sequence)
                 else Report(goal, attempt, if fault == FeeTooLow then Transient else fault))
  }

  /** The fault raised when a transfer cannot be prepared. */
  function PrepFault(goal: Goal, prep: Prep): Fault
    requires !prep.Ready?
  {
    match prep
    case CannotBuild => Permanent
    case TryAnother => Transient
    case Busy => Contention
    case NoTrustline => if goal == Return then AwaitTrustline else Transient
  }

  lemma DraftStep(cfg: Config, who: Actor, snap: Row, row: Row, w: World, goal: Goal, attempt: nat)
    requires w.prep.Ready? && 0 < cfg.second && (attempt > 0 ==> !w.cancelled)
    ensures var until := WholeSeconds(w.now + cfg.validity, cfg.second);
            var p, a := Drafting(goal, attempt), Draft(w.prep.source, w.prep.sequence, until);
            && until % cfg.second == 0 && until <= w.now + cfg.validity < until + cfg.second && Heard(cfg, p, w, a)
            && Step(cfg, who, snap, row, p, w, a)
               == Some((row, Pricing(goal, attempt, 0, until, w.prep.source, w.prep.sequence)))
  {
    WholeSecondsOk(w.now + cfg.validity, cfg.second);
  }

  lemma StumbleStep(cfg: Config, who: Actor, snap: Row, row: Row, w: World, goal: Goal, attempt: nat)
    requires !w.prep.Ready? && (attempt > 0 ==> !w.cancelled)
    ensures var p, fault := Drafting(goal, attempt), PrepFault(goal, w.prep);
            && Heard(cfg, p, w, Stumble(fault))
            && Step(cfg, who, snap, row, p, w, Stumble(fault))
               == Some((row, AfterFault(cfg, who, goal, attempt, fault)))
  {
  }

  lemma AnswerStep(cfg: Config, snap: Row, row: Row, w: World, sub: Submission)
    requires w.answered && Truthful(w.chain, sub.tx, w.response) && (cfg.reports ==> ReportsRange(w.response))
    ensures var p := Step(cfg, Retrier, snap, row, Resolving(sub), w, Answer(w.response));
            && Heard(cfg, Resolving(sub), w, Answer(w.response)) && p.Some? && p.value.0 == row
            && (MayRebuild(cfg, w.response, sub.until, w.now) ==> p.value.1 == Forgetting(Resume))
            && (!MayRebuild(cfg, w.response, sub.until, w.now) ==>
                  p.value.1 == Closing(
                    match w.response.status
                    case FoundOk => if snap.sweep then RecordSwept(sub.tx) else RecordDone(sub.tx)
                    case FoundFailed(_) => GiveUp(Refused)
                    case NotFound => if MayLand(cfg, w.response, sub.until, w.now) then Requeue
                                     else GiveUp(Unresolvable)))
  {
  }

  lemma SendStep(
    cfg: Config, who: Actor, snap: Row, row: Row, w: World, goal: Goal, attempt: nat, bump: nat, tx: Tx, tries: nat)
    requires tries > 0 ==> !w.cancelled
    ensures var p := Sending(goal, attempt, bump, tx, tries);
            && Heard(cfg, p, w, Send(w.send))
            && Step(cfg, who, snap, row, p, w, Send(w.send))
               == Some((row, AfterSend(cfg, who, goal, attempt, bump, tx, tries, w.send)))
  {
  }

  class Worker {
    const cfg: Config
    const who: Actor
    const snap: Row
    const world: nat -> World
    var row: Row
    var made: nat
    ghost const first: (Row, Phase)
    ghost var phase: Phase
    ghost var states: seq<(Row, Phase)>
    ghost var actions: seq<Action>
    /** The world at the last call. */
    ghost var last: World
    /** The fees of the transactions recorded so far. */
    ghost var fees: seq<nat>

    ghost predicate Valid() reads this {
      && Trace(cfg, who, snap, world, states, actions) && |actions| == made
      && states[0] == first && states[made] == (row, phase)
      && row.SameDeposit(snap) && 0 < cfg.second && 0 < cfg.attempts
      && Clock(world) && Timely(world, made, row.updatedAt)
    }

    constructor (cfg: Config, who: Actor, snap: Row, row: Row, ghost phase: Phase, world: nat -> World)
      requires 0 < cfg.second && 0 < cfg.attempts && row.SameDeposit(snap)
      requires Clock(world) && Timely(world, 0, row.updatedAt)
      ensures Valid() && made == 0 && this.row == row && this.phase == phase && first == (row, phase) && fees == []
      ensures this.cfg == cfg && this.who == who && this.snap == snap && this.world == world
    {
      this.cfg, this.who, this.snap, this.world, this.row, made := cfg, who, snap, world, row, 0;
      this.first, this.phase, states, actions, fees := (row, phase), phase, [(row, phase)], [], [];
      last := world(0);
    }

    ghost function Taken(a: Action): Option<(Row, Phase)> reads this {
      Step(cfg, who, snap, row, phase, world(made), a)
    }

    /** Make the call `a`, which leaves the row as `to`. */
    method Do(ghost a: Action, to: Row)
      requires Valid() && Taken(a).Some? && Taken(a).value.0 == to && to.SameDeposit(snap)
               && to.updatedAt <= world(made).now && Heard(cfg, phase, world(made), a)
      modifies this
      ensures Valid() && row == to && phase == old(Taken(a)).value.1
      ensures made == old(made) + 1 && last == world(old(made))
      ensures fees == old(fees) + if a.Record? then [a.fee] else []
    {
      TraceMore(cfg, who, snap, world, states, actions, a);
      phase := Taken(a).value.1;
      states, actions := states + [(to, phase)], actions + [a];
      fees := fees + if a.Record? then [a.fee] else [];
      row, last := to, world(made);
      made := made + 1;
    }

    // ---- The calls ----

    method RecordSubmission(
      tx: Tx, ghost goal: Goal, ghost attempt: nat, ghost bump: nat) returns (refused: Option<Fault>)
      requires Valid() && phase == Pricing(goal, attempt, bump, tx.maxTime, tx.source, tx.sequence)
               && tx.body == BodyFor(goal, snap) && world(made).sealed
      modifies this
      ensures Valid()
      ensures refused.None? ==> phase == Sending(goal, attempt, bump, tx, 0)
      ensures refused.Some? ==> phase == AfterFault(cfg, who, goal, attempt, refused.value)
      ensures var w := world(old(made));
              && (refused.None? <==> w.fate == Kept && tx !in w.claims)
              && (refused == Some(Contention) <==> w.fate == Kept && tx in w.claims)
              && (refused.Some? ==> refused.value in {Contention, Transient})
      ensures InFlightOnly(old(row), row) && fees == old(fees) + [tx.fee] && made == old(made) + 1
      ensures refused.None? ==> row.submitted == Some(Submission(tx, tx.maxTime))
    {
      var w := world(made);
      var claimed := tx in w.claims;
      var to := if !claimed && w.fate.Applied() then row.Recorded(tx, tx.maxTime, w.now) else row;
      Do(Record(tx.fee, w.fate), to);
      refused := if w.fate == Kept && !claimed then None else Some(if w.fate == Kept then Contention else Transient);
    }

    method SendTransaction(
      ghost goal: Goal, ghost attempt: nat, ghost bump: nat, tx: Tx, ghost tries: nat) returns (reply: SendReply)
      requires Valid() && phase == Sending(goal, attempt, bump, tx, tries) && (tries > 0 ==> !world(made).cancelled)
      modifies this
      ensures Valid() && phase == AfterSend(cfg, who, goal, attempt, bump, tx, tries, reply)
      ensures reply == world(old(made)).send && row == old(row) && fees == old(fees) && made == old(made) + 1
    {
      reply := world(made).send;
      SendStep(cfg, who, snap, row, world(made), goal, attempt, bump, tx, tries);
      Do(Send(reply), row);
    }

    /** forgetSubmission: whether the hash was cleared. */
    method ForgetSubmission() returns (cleared: bool)
      requires Valid() && phase.Forgetting?
      modifies this
      ensures Valid()
      ensures (cleared <==> last.fate == Kept) && made == old(made) + 1 && last == world(old(made))
      ensures fees == old(fees)
      ensures if last.fate.Applied() then LetsGo(old(row), row) else row == old(row)
      ensures phase == match old(phase).next
                       case Resume => if cleared then Deciding else Over
                       case Reprice(goal, attempt, bump, until, source, sequence) =>
                         Pricing(goal, attempt, bump, until, source, sequence)
                       case Report(goal, attempt, fault) => AfterFault(cfg, who, goal, attempt, fault)
    {
      var w := world(made);
      cleared := w.fate == Kept;
      Do(Write(w.fate), if w.fate.Applied() then row.Cleared(w.now) else row);
    }

    /** The statement that records an outcome; its own error is not looked at. */
    method Settle(verdict: Verdict)
      requires Valid() && phase == Closing(verdict)
      modifies this
      ensures Valid() && phase == Over && made == old(made) + 1 && last == world(old(made)) && fees == old(fees)
      ensures if last.fate.Applied() then Written(verdict, old(row), row) else row == old(row)
    {
      var w := world(made);
      Do(Write(w.fate), if w.fate.Applied() then Conclude(row, verdict, w.now) else row);
    }

    // ---- The submit pipeline ----

    /** signAndSend: recorded, then sent, again on TRY_AGAIN_LATER. */
    method SignAndSend(tx: Tx, ghost goal: Goal, ghost attempt: nat, ghost bump: nat) returns (sent: Sent)
      requires Valid() && phase == Pricing(goal, attempt, bump, tx.maxTime, tx.source, tx.sequence)
               && tx.body == BodyFor(goal, snap)
      modifies this
      ensures Valid()
      ensures sent.Accepted? ==> phase == Polling(goal, attempt, tx)
      ensures sent == Err(FeeTooLow) ==>
                phase == if bump < cfg.feeRetries
                  then Pricing(goal, attempt, bump + 1, tx.maxTime, tx.source, tx.sequence)
                         else AfterFault(cfg, who, goal, attempt, Transient)
      ensures sent.Err? && sent.fault != FeeTooLow ==> phase == AfterFault(cfg, who, goal, attempt, sent.fault)
      ensures InFlightOnly(old(row), row) && old(made) < made
      ensures sent == Accepted || sent == Err(Unconfirmed) ==> row.submitted == Some(Submission(tx, tx.maxTime))
      ensures fees == old(fees) + if sent == Err(Permanent) && !world(old(made)).sealed then [] else [tx.fee]
    {
      if !world(made).sealed {
        Do(Stumble(Permanent), row);
        return Err(Permanent);
      }
      var refused := RecordSubmission(tx, goal, attempt, bump);
      if refused.Some? {
        return Err(refused.value);
      }
      for tries := 0 to cfg.tryAgain + 1
        invariant Valid()
        invariant phase == if tries <= cfg.tryAgain then Sending(goal, attempt, bump, tx, tries)
                  else Forgetting(Report(goal, attempt, Transient))
        invariant InFlightOnly(old(row), row) && row.submitted == Some(Submission(tx, tx.maxTime))
        invariant fees == old(fees) + [tx.fee] && old(made) < made
      {
        if tries > 0 && world(made).cancelled {
          Do(Cancel, row);
          var _ := ForgetSubmission();
          return Err(Transient);
        }
        var reply := SendTransaction(goal, attempt, bump, tx, tries);
        match reply
        case Queued => return Accepted;
        case Broken(_) => return Err(Unconfirmed);
        case TryLater =>
        case Rejected(result) =>
          var _ := ForgetSubmission();
          return Err(Classify(result));
      }
      var _ := ForgetSubmission();
      return Err(Transient);
    }

    /** pollResult: what RPC saw, which is the truth or nothing. */
    method PollResult(tx: Tx, ghost goal: Goal, ghost attempt: nat) returns (fault: Option<Fault>)
      requires Valid() && phase == Polling(goal, attempt, tx)
      modifies this
      ensures Valid()
      ensures var w := world(old(made));
              fault.None? <==> w.heard && tx in w.chain.landed && w.chain.landed[tx].ok
      ensures var w := world(old(made));
              fault.Some? ==>
                fault.value == if !w.heard || tx !in w.chain.landed then Unconfirmed else FaultOf(w.result)
      ensures row == old(row) && fees == old(fees) && made == old(made) + 1
      ensures fault.None? ==> phase == Closing(if goal == Return then RecordSwept(tx) else RecordDone(tx))
      ensures fault == Some(Unconfirmed) ==> phase == AfterFault(cfg, who, goal, attempt, Unconfirmed)
      ensures fault.Some? && fault.value != Unconfirmed ==> phase == Forgetting(Report(goal, attempt, fault.value))
    {
      var w := world(made);
      if !w.heard || tx !in w.chain.landed {
        Do(Poll(Unseen), row);
        fault := Some(Unconfirmed);
      } else if w.chain.landed[tx].ok {
        Do(Poll(SeenOk), row);
        fault := None;
      } else {
        Do(Poll(SeenFailed(w.result)), row);
        fault := Some(Classify(w.result));
      }
    }

    /** The confirmation; a transfer seen to fail is forgotten. */
    method Confirm(tx: Tx, ghost goal: Goal, ghost attempt: nat) returns (end: Transferred)
      requires Valid() && phase == Polling(goal, attempt, tx)
      modifies this
      ensures Valid()
      ensures end.Landed? ==> phase == Closing(if goal == Return then RecordSwept(end.tx) else RecordDone(end.tx))
      ensures end.Stopped? ==> phase == AfterFault(cfg, who, goal, attempt, end.why)
      ensures (end.Landed? <==> var w := world(old(made)); w.heard && tx in w.chain.landed && w.chain.landed[tx].ok)
              && (end.Landed? ==> end.tx == tx)
      ensures InFlightOnly(old(row), row) && fees == old(fees) && old(made) < made
      ensures end.Landed? || end == Stopped(Unconfirmed) ==> row.submitted == old(row).submitted
    {
      var fault := PollResult(tx, goal, attempt);
      if fault.None? {
        return Landed(tx);
      }
      if fault.value != Unconfirmed {
        var _ := ForgetSubmission();
      }
      return Stopped(fault.value);
    }

    /** A sequence number, the max time in whole seconds, and the simulation. */
    method Prepare(goal: Goal, ghost attempt: nat) returns (prep: Prep, until: int)
      requires Valid() && phase == Drafting(goal, attempt) && (attempt > 0 ==> !world(made).cancelled)
      modifies this
      ensures Valid()
      ensures prep.Ready? ==>
                until % cfg.second == 0 && until <= world(old(made)).now + cfg.validity < until + cfg.second
      ensures phase == if prep.Ready? then Pricing(goal, attempt, 0, until, prep.source, prep.sequence)
                       else AfterFault(cfg, who, goal, attempt, PrepFault(goal, prep))
      ensures prep == world(old(made)).prep && row == old(row) && fees == old(fees) && made == old(made) + 1
    {
      var w := world(made);
      prep, until := w.prep, WholeSeconds(w.now + cfg.validity, cfg.second);
      if prep.Ready? {
        DraftStep(cfg, who, snap, row, w, goal, attempt);
        Do(Draft(prep.source, prep.sequence, until), row);
      } else {
        StumbleStep(cfg, who, snap, row, w, goal, attempt);
        Do(Stumble(PrepFault(goal, prep)), row);
      }
    }

    /** One price: setFee, then signAndSend. */
    method Bid(
      goal: Goal, ghost attempt: nat, ghost bump: nat, prep: Prep, inclusion: nat, until: int, ghost before: seq<nat>)
      returns (tx: Tx, sent: Sent, ghost bid: seq<nat>)
      requires prep.Ready? && BiddingNext(before, prep.resource, prep.viaChannel, inclusion)
      requires Valid() && phase == Pricing(goal, attempt, bump, until, prep.source, prep.sequence)
      modifies this
      ensures Valid() && InFlightOnly(old(row), row) && old(made) <= made
      ensures sent.Accepted? ==> phase == Polling(goal, attempt, tx)
      ensures sent == Err(FeeTooLow) ==>
                phase == if bump < cfg.feeRetries
                         then Pricing(goal, attempt, bump + 1, until, prep.source, prep.sequence)
                         else AfterFault(cfg, who, goal, attempt, Transient)
      ensures sent.Err? && sent.fault != FeeTooLow ==> phase == AfterFault(cfg, who, goal, attempt, sent.fault)
      ensures sent == Accepted || sent == Err(Unconfirmed) ==> row.submitted == Some(Submission(tx, tx.maxTime))
      ensures |bid| <= 1 && fees == old(fees) + bid && Doubling(before + bid, prep.resource, prep.viaChannel)
      ensures sent == Err(FeeTooLow) ==>
                |bid| == 1 && BiddingNext(before + bid, prep.resource, prep.viaChannel, 2 * inclusion)
    {
      ghost var was := fees;
      var fee := (if prep.viaChannel then 2 * inclusion else inclusion) + prep.resource;
      tx := Tx(BodyFor(goal, snap), prep.source, prep.sequence, fee, until);
      sent := SignAndSend(tx, goal, attempt, bump);
      bid := if fees == was then [] else [fee];
      DoublingMore(before, prep.resource, prep.viaChannel, inclusion, bid);
    }

    /** The fee loop: the inclusion fee doubles on each tx_insufficient_fee, at most
        feeRetries times. */
    method BidUp(goal: Goal, ghost attempt: nat, prep: Prep, until: int)
      returns (end: Transferred, ghost bids: seq<nat>)
      requires Valid() && prep.Ready? && phase == Pricing(goal, attempt, 0, until, prep.source, prep.sequence)
      modifies this
      ensures Valid() && InFlightOnly(old(row), row) && old(made) <= made
      ensures end.Landed? ==> phase == Closing(if goal == Return then RecordSwept(end.tx) else RecordDone(end.tx))
      ensures end.Stopped? ==> phase == AfterFault(cfg, who, goal, attempt, end.why)
      ensures end.Landed? ==> row.submitted == Some(Submission(end.tx, end.tx.maxTime))
      ensures end == Stopped(Unconfirmed) ==> row.submitted.Some?
      ensures fees == old(fees) + bids && |bids| <= cfg.feeRetries + 1
      ensures Doubling(bids, prep.resource, prep.viaChannel)
    {
      bids := [];
      var inclusion: nat := MIN_BASE_FEE;
      for bump := 0 to cfg.feeRetries + 1
        invariant Valid() && InFlightOnly(old(row), row) && old(made) <= made
        invariant phase == if bump <= cfg.feeRetries
                  then Pricing(goal, attempt, bump, until, prep.source, prep.sequence)
                  else AfterFault(cfg, who, goal, attempt, Transient)
        invariant fees == old(fees) + bids && |bids| == bump
        invariant BiddingNext(bids, prep.resource, prep.viaChannel, inclusion)
      {
        var tx, sent, bid := Bid(goal, attempt, bump, prep, inclusion, until, bids);
        assert old(fees) + bids + bid == old(fees) + (bids + bid);
        bids := bids + bid;
        if sent.Accepted? {
          end := Confirm(tx, goal, attempt);
          return;
        }
        if sent.fault != FeeTooLow {
          return Stopped(sent.fault), bids;
        }
        inclusion := 2 * inclusion;
      }
      return Stopped(Transient), bids;
    }

    /** transfer and transferViaChannel. */
    method Transfer(goal: Goal, ghost attempt: nat) returns (end: Transferred, ghost bids: seq<nat>)
      requires Valid() && phase == Drafting(goal, attempt) && (attempt > 0 ==> !world(made).cancelled)
      modifies this
      ensures Valid() && InFlightOnly(old(row), row) && old(made) < made
      ensures end.Landed? ==> phase == Closing(if goal == Return then RecordSwept(end.tx) else RecordDone(end.tx))
      ensures end.Stopped? ==> phase == AfterFault(cfg, who, goal, attempt, end.why)
      ensures end.Landed? ==> row.submitted == Some(Submission(end.tx, end.tx.maxTime))
      ensures end == Stopped(Unconfirmed) ==> row.submitted.Some?
      ensures fees == old(fees) + bids && |bids| <= cfg.feeRetries + 1
      ensures var prep := world(old(made)).prep;
              if prep.Ready? then Doubling(bids, prep.resource, prep.viaChannel)
              else bids == [] && end == Stopped(PrepFault(goal, prep))
    {
      var prep, until := Prepare(goal, attempt);
      if prep.Ready? {
        end, bids := BidUp(goal, attempt, prep, until);
      } else {
        end, bids := Stopped(PrepFault(goal, prep)), [];
      }
    }

    // ---- Deciding ----

    ghost function Decided(l: Lookup): Phase reads this {
      match if who == Watcher then FirstRoute(cfg, row, l) else RetryRoute(cfg, snap, l)
      case CloseAtCeiling => Closing(GiveUp(AtCeiling))
      case FinishSweep => Drafting(Return, 0)
      case StartSweep => MarkingSweep
      case PayTo(to) => Drafting(Pay(to), 0)
      case LookupFailed => Closing(Charge)
    }

    method GetIntent() returns (l: Lookup)
      requires Valid() && phase == Deciding
      modifies this
      ensures Valid() && row == old(row) && phase == old(Decided(l)) && made == old(made) + 1
      ensures l == LookUp(world(old(made)).intents, snap.memo, world(old(made)).reached)
    {
      var w := world(made);
      l := LookUp(w.intents, snap.memo, w.reached);
      Do(Route(w.reached), row);
    }

    /** A decision that needs no lookup. */
    method DecideAtOnce()
      requires Valid() && phase == Deciding
      modifies this
      ensures Valid() && row == old(row) && made == old(made) + 1
      ensures exists l :: phase == old(Decided(l))
    {
      ghost var l := LookUp(world(made).intents, snap.memo, world(made).reached);
      ghost var decided := Decided(l);
      Do(Route(world(made).reached), row);
      assert phase == decided;
    }

    /** The statement for how a transfer from `was` ended. */
    method SettleEnd(verdict: Verdict, ghost goal: Goal, ghost attempt: nat, ghost end: Transferred, ghost was: Row)
      requires Valid() && phase == Closing(verdict) && InFlightOnly(was, row)
      requires end.Landed? ==> verdict == if goal == Return then RecordSwept(end.tx) else RecordDone(end.tx)
      requires end.Stopped? ==> AfterFault(cfg, who, goal, attempt, end.why) == Closing(verdict)
      requires end == Stopped(Unconfirmed) ==> row.submitted.Some?
      modifies this
      ensures Valid() && phase == Over && made == old(made) + 1
      ensures last.fate.Applied() ==> Ends(who, goal, end, was, row)
    {
      ghost var mid := row;
      Settle(verdict);
      if last.fate.Applied() { EndWritten(cfg, who, goal, attempt, end, was, mid, verdict, row); }
    }

    /** startSweep: the decision is persisted before anything is sent. */
    method BeginSweep() returns (ghost end: Option<Transferred>)
      requires Valid() && phase == MarkingSweep
      modifies this
      ensures Valid() && phase == Over && old(made) < made
      ensures Sweeps(who, world(old(made)), last, end, old(row), row)
    {
      var w := world(made);
      Do(Write(w.fate), if w.fate.Applied() then row.MarkedSweep(w.now) else row);
      if w.fate != Kept {
        Settle(Charge);
        end := None;
      } else {
        ghost var ended := SweepDeposit();
        end := Some(ended);
      }
    }

    method SweepDeposit() returns (ghost end: Transferred)
      requires Valid() && phase == Drafting(Return, 0)
      modifies this
      ensures Valid() && phase == Over && old(made) < made
      ensures last.fate.Applied() ==> Ends(who, Return, end, old(row), row)
    {
      ghost var was := row;
      var ended, _ := Transfer(Return, 0);
      end := ended;
      match ended
      case Landed(tx) => SettleEnd(RecordSwept(tx), Return, 0, ended, was);
      case Stopped(why) =>
        if why == AwaitTrustline || why == Unconfirmed || why == Contention {
          SettleEnd(Requeue, Return, 0, ended, was);
        } else if why == Permanent {
          SettleEnd(GiveUp(Refused), Return, 0, ended, was);
        } else {
          SettleEnd(Charge, Return, 0, ended, was);
        }
    }

    // ---- The two entry points ----

    /** The in-process attempts at a credit: the outcome is recorded, unless the
        deadline cuts the worker off between two of them. */
    method Attempts(goal: Goal) returns (cut: bool, ghost end: Transferred)
      requires Valid() && who == Watcher && goal.Pay? && phase == Drafting(goal, 0)
      modifies this
      ensures Valid() && old(made) < made
      ensures if cut then phase.Drafting? && phase.goal == goal && 0 < phase.attempt < cfg.attempts else phase == Over
      ensures if cut then world(made).cancelled && InFlightOnly(old(row), row)
              else last.fate.Applied() ==> Ends(who, goal, end, old(row), row)
    {
      ghost var was := row;
      var reason := Transient;
      cut, end := false, Stopped(reason);
      for attempt := 0 to cfg.attempts
        invariant Valid() && attempt <= cfg.attempts && InFlightOnly(old(row), row)
        invariant old(made) <= made && (0 < attempt ==> old(made) < made)
        invariant phase == if attempt < cfg.attempts then Drafting(goal, attempt)
                           else Closing(if reason == Contention then Requeue else Charge)
        invariant end == Stopped(reason) && reason != Unconfirmed && reason != Permanent
      {
        if attempt > 0 && world(made).cancelled {
          cut := true;
          return;
        }
        var ended, _ := Transfer(goal, attempt);
        end := ended;
        match ended
        case Landed(tx) =>
          SettleEnd(RecordDone(tx), goal, attempt, ended, was);
          return;
        case Stopped(why) =>
          if why == Unconfirmed {
            SettleEnd(Requeue, goal, attempt, ended, was);
            return;
          }
          if why == Permanent {
            SettleEnd(ChargeAndFail, goal, attempt, ended, was);
            return;
          }
          reason := why;
      }
      if reason == Contention {
        SettleEnd(Requeue, goal, cfg.attempts, end, was);
      } else {
        SettleEnd(Charge, goal, cfg.attempts, end, was);
      }
    }

    /** ForwardRecorded, once the row is claimed: a deposit to be credited is
        attempted, one that is not is swept, and one whose lookup failed is charged
        and queued. */
    method ForwardRecorded() returns (cut: bool, ghost end: Option<Transferred>)
      requires Valid() && who == Watcher && phase == Deciding
      modifies this
      ensures Valid() && old(made) < made
      ensures if cut then phase.Drafting? && phase.goal.Pay? && 0 < phase.attempt < cfg.attempts else phase == Over
      ensures var w := world(old(made));
              if Credits(cfg, snap, w) then
                if cut then world(made).cancelled && InFlightOnly(old(row), row)
                else
                  end.Some? && (last.fate.Applied() ==>
                    Ends(who, Pay(w.intents[snap.memo].cAddress), end.value, old(row), row))
              else if Unknown(cfg, snap, w) then
                !cut && (last.fate.Applied() ==> IsCharged(old(row), row, PendingRetry))
              else !cut && Sweeps(who, world(old(made) + 1), last, end, old(row), row)
    {
      cut, end := false, None;
      if !cfg.Accepts(snap.asset) {
        DecideAtOnce();
        end := BeginSweep();
        return;
      }
      var l := GetIntent();
      if l == NoRows {
        end := BeginSweep();
        return;
      }
      if l == Errored {
        Settle(Charge);
        return;
      }
      if snap.landedAt > l.intent.expiresAt {
        end := BeginSweep();
        return;
      }
      ghost var ended;
      cut, ended := Attempts(Pay(l.intent.cAddress));
      end := Some(ended);
    }

    /** resolveSubmitted: what RPC answers about the transfer in flight settles the
        row, keeps it waiting, or clears the way for a new transfer; false only in
        the last case. */
    method ResolveSubmitted() returns (settled: bool)
      requires Valid() && who == Retrier && snap.submitted.Some? && phase == Resolving(snap.submitted.value)
      requires var w := world(made); w.answered ==>
               Truthful(w.chain, snap.submitted.value.tx, w.response) && (cfg.reports ==> ReportsRange(w.response))
      modifies this
      ensures Valid() && phase == (if settled then Over else Deciding)
      ensures made == old(made) + 2 && last == world(old(made) + 1)
      ensures var w, sub := world(old(made)), snap.submitted.value; var resp := w.response;
              && (settled <==> !(w.answered && MayRebuild(cfg, resp, sub.until, w.now) && last.fate == Kept))
              && Resolved(cfg, snap, w, last.fate, old(row), row)
    {
      var w := world(made);
      var sub := snap.submitted.value;
      if !w.answered {
        Do(NoAnswer, row);
        Settle(Requeue);
        return true;
      }
      AnswerStep(cfg, snap, row, w, sub);
      Do(Answer(w.response), row);
      match w.response.status
      case FoundOk =>
        Settle(if snap.sweep then RecordSwept(sub.tx) else RecordDone(sub.tx));
        return true;
      case FoundFailed(result) =>
        if Classify(result) == Permanent {
          Settle(GiveUp(Refused));
          return true;
        }
        var cleared := ForgetSubmission();
        return !cleared;
      case NotFound =>
        if !PastMaxTime(cfg.grace, w.response, sub.until, w.now) {
          Settle(Requeue);
          return true;
        }
        if w.response.oldest != 0 && w.response.oldest > sub.until - cfg.validity {
          Settle(GiveUp(Unresolvable));
          return true;
        }
        var cleared := ForgetSubmission();
        return !cleared;
    }

    /** The rest of Retry, with no transfer left to resolve: close the row at the
        ceiling, finish a sweep already decided, and otherwise as at first, in one
        attempt. */
    method RetryUnsent() returns (ghost end: Option<Transferred>)
      requires Valid() && who == Retrier && phase == Deciding
      modifies this
      ensures Valid() && phase == Over && old(made) < made
      ensures Retried(cfg, snap, world(old(made)), world(old(made) + 1), last, end, old(row), row)
    {
      end := None;
      if snap.retries >= cfg.maxRetries {
        DecideAtOnce();
        Settle(GiveUp(AtCeiling));
        return;
      }
      if snap.sweep {
        DecideAtOnce();
        ghost var ended := SweepDeposit();
        end := Some(ended);
        return;
      }
      if !cfg.Accepts(snap.asset) {
        DecideAtOnce();
        end := BeginSweep();
        return;
      }
      var l := GetIntent();
      if l == NoRows {
        end := BeginSweep();
        return;
      }
      if l == Errored {
        Settle(Charge);
        return;
      }
      if snap.landedAt > l.intent.expiresAt {
        end := BeginSweep();
        return;
      }
      ghost var ended := CreditOnce(Pay(l.intent.cAddress));
      end := Some(ended);
    }

    /** A retry's one attempt at a credit. */
    method CreditOnce(goal: Goal) returns (ghost end: Transferred)
      requires Valid() && who == Retrier && goal.Pay? && phase == Drafting(goal, 0)
      modifies this
      ensures Valid() && phase == Over && old(made) < made
      ensures last.fate.Applied() ==> Ends(who, goal, end, old(row), row)
    {
      ghost var was := row;
      var ended, _ := Transfer(goal, 0);
      end := ended;
      match ended
      case Landed(tx) => SettleEnd(RecordDone(tx), goal, 0, ended, was);
      case Stopped(why) =>
        if why == Unconfirmed || why == Contention {
          SettleEnd(Requeue, goal, 0, ended, was);
        } else if why == Permanent {
          SettleEnd(GiveUp(Refused), goal, 0, ended, was);
        } else {
          SettleEnd(Charge, goal, 0, ended, was);
        }
    }

    /** Retry, once a pending row is claimed. It always ends with a statement
        that records the outcome, or one that failed. */
    method Retry() returns (ghost end: Option<Transferred>)
      requires Valid() && who == Retrier && phase == FirstPhase(snap)
      requires var w := world(made);
               snap.submitted.Some? && w.answered ==>
                 Truthful(w.chain, snap.submitted.value.tx, w.response) && (cfg.reports ==> ReportsRange(w.response))
      modifies this
      ensures Valid() && phase == Over
      ensures var w, next := world(old(made)), world(old(made) + 1);
              if snap.submitted.None? then Retried(cfg, snap, w, next, last, end, old(row), row)
              else if w.answered && MayRebuild(cfg, w.response, snap.submitted.value.until, w.now) && next.fate == Kept
              then Retried(cfg, snap, world(old(made) + 2), world(old(made) + 3), last, end,
                           old(row).(submitted := None), row)
              else Resolved(cfg, snap, w, next.fate, old(row), row)
    {
      end := None;
      if snap.submitted.Some? {
        var settled := ResolveSubmitted();
        if settled {
          return;
        }
      }
      ghost var mid := row;
      end := RetryUnsent();
      if snap.submitted.Some? {
        SameRetried(cfg, snap, world(old(made) + 2), world(old(made) + 3), last, end, mid, old(row), row);
      }
    }
  }
}
