/** The deposit bridge as a machine: watcher workers, one retry worker, the
    forwards table and the network, interleaved one store or RPC call at a time.

    Assumptions built into the steps: one process with one sequential retry
    worker; ERROR and TRY_AGAIN_LATER leave a transaction unqueued; every row
    write gets a fresh updated_at; RPC answers are truthful. */
module Bridge {
  import opened Common
  import opened Ledger
  import opened Resolution
  import opened ForwardTable

  /** reports: RPC always reports both ends of the ledger range it answers from. */
  datatype Config = Config(
    validity: nat, grace: nat, second: nat, deadline: nat, cutoff: nat, replyLag: nat,
    maxRetries: nat, attempts: nat, feeRetries: nat, tryAgain: nat, batch: nat, accepted: set<string>,
    reports: bool)
  {
    predicate Accepts(asset: string) { accepted == {} || asset in accepted }

    predicate Positive() { 0 < maxRetries && 0 < attempts }

    /** How long after its claim committed a watcher worker may still act.
        replyLag bounds the claim's reply, and the deadline starts at that reply. */
    function Hold(): nat { replyLag + deadline }

    /** The hold reaches at most the first instant at which the retry worker may
        take the row; the worker's claim then wins every later write. */
    predicate Ok() { Positive() && Hold() <= cutoff + 1 }
  }

  /** The constants of the code, in milliseconds. A claim's reply may take up to
      the minute by which the deadline undercuts the cutoff. */
  const DEPLOYED: Config := Config(120_000, 30_000, 1_000, 240_000, 300_000, 60_000, 5, 3, 2, 5, 200, {"native"}, true)

  // ---- Routing ----

  datatype Lookup = Found(intent: Intent) | NoRows | Errored

  function LookUp(intents: map<nat, Intent>, memo: nat, reached: bool): Lookup {
    if !reached then Errored else if memo in intents then Found(intents[memo]) else NoRows
  }

  datatype Decision = CloseAtCeiling | FinishSweep | StartSweep | PayTo(to: string) | LookupFailed

  /** ForwardRecorded's routing. */
  function FirstRoute(cfg: Config, r: Row, l: Lookup): Decision {
    if !cfg.Accepts(r.asset) then StartSweep
    else match l
      case NoRows => StartSweep
      case Errored => LookupFailed
      case Found(i) => if r.landedAt > i.expiresAt then StartSweep else PayTo(i.cAddress)
  }

  /** Retry's routing, once no transfer is left to resolve. */
  function RetryRoute(cfg: Config, r: Row, l: Lookup): Decision {
    if r.retries >= cfg.maxRetries then CloseAtCeiling
    else if r.sweep then FinishSweep
    else if !cfg.Accepts(r.asset) then StartSweep
    else match l
      case NoRows => StartSweep
      case Errored => LookupFailed
      case Found(i) => if r.landedAt > i.expiresAt then StartSweep else PayTo(i.cAddress)
  }

  /** The rule both must follow: accepted asset, known intent, landed in time. */
  predicate Creditable(cfg: Config, r: Row, intents: map<nat, Intent>) {
    cfg.Accepts(r.asset) && r.memo in intents && r.landedAt <= intents[r.memo].expiresAt
  }

  // ---- One worker ----

  datatype Actor = Watcher | Retrier

  datatype Goal = Pay(to: string) | Return

  function BodyFor(goal: Goal, r: Row): Body {
    match goal
    case Pay(to) => Credit(to, r.pool, r.amount, r.asset)
    case Return => Recovery(r.pool, r.amount, r.asset)
  }

  datatype Verdict = RecordDone(tx: Tx) | RecordSwept(tx: Tx) | Requeue | Charge | ChargeAndFail | GiveUp(why: Note)

  function Conclude(r: Row, v: Verdict, now: int): Row {
    match v
    case RecordDone(tx) => r.MarkedDone(tx, now)
    case RecordSwept(tx) => r.MarkedSwept(tx, now)
    case Requeue => r.Requeued(now)
    case Charge => r.MarkedFailed(PendingRetry, now)
    case ChargeAndFail => r.MarkedFailed(Failed, now)
    case GiveUp(why) => r.FailedForGood(why, now)
  }

  /** What follows a ClearSubmission. */
  datatype Next =
    | Resume  // Retry goes on to route, if the clear succeeded
    | Reprice(goal: Goal, attempt: nat, bump: nat, until: int, source: string, sequence: int)
    | Report(goal: Goal, attempt: nat, fault: Fault)

  /** Where a worker stands: the store or RPC call it makes next. */
  datatype Phase =
    | Resolving(sub: Submission)             // getTransaction
    | Deciding                               // GetIntentByMemoID
    | MarkingSweep                           // MarkSweep
    | Drafting(goal: Goal, attempt: nat)     // sequence number, simulation
    | Pricing(goal: Goal, attempt: nat, bump: nat, until: int, source: string, sequence: int) // seal, RecordSubmission
    | Sending(goal: Goal, attempt: nat, bump: nat, tx: Tx, tries: nat) // sendTransaction
    | Polling(goal: Goal, attempt: nat, tx: Tx)                        // pollTransaction
    | Forgetting(next: Next)                 // ClearSubmission
    | Closing(verdict: Verdict)              // the statement recording the outcome
    | Over

  /** How an error from the submit pipeline is handled: in-process attempts for
      a watcher's credit, one attempt for a retry or a sweep. */
  function AfterFault(cfg: Config, who: Actor, goal: Goal, attempt: nat, fault: Fault): Phase {
    match goal
    case Return =>
      (match fault
       case Unconfirmed => Closing(Requeue)
       case Contention => Closing(Requeue)
       case AwaitTrustline => Closing(Requeue)
       case Permanent => Closing(GiveUp(Refused))
       case _ => Closing(Charge))
    case Pay(_) =>
      if fault == Unconfirmed then Closing(Requeue)
      else if fault == Permanent then Closing(if who == Watcher then ChargeAndFail else GiveUp(Refused))
      else if who == Watcher && attempt + 1 < cfg.attempts then Drafting(goal, attempt + 1)
      else if fault == Contention then Closing(Requeue)
      else Closing(Charge)
  }

  datatype SendReply = Queued | TryLater | Rejected(result: Result) | Broken(reached: bool)

  datatype PollReply = SeenOk | SeenFailed(result: Result) | Unseen

  /** What happens at a worker's next call. */
  datatype Action =
    | Answer(resp: Response) | NoAnswer
    | Route(reached: bool)
    | Draft(source: string, sequence: int, until: int) | Stumble(fault: Fault)
    | Record(fee: nat, fate: Fate)
    | Send(reply: SendReply) | Cancel
    | Poll(seen: PollReply)
    | Write(fate: Fate)

  /** The part of the world one worker's call can change. */
  datatype View = View(row: Row, phase: Phase, chain: Chain)

  /** An UPDATE of the row: it may be lost, and if it commits its updated_at is new. */
  ghost function Update(v: View, fate: Fate, to: Row, phase: Phase, now: int): Option<View> {
    if !fate.Applied() then Some(v.(phase := phase))
    else if now <= v.row.updatedAt then None
    else Some(v.(row := to, phase := phase))
  }

  /** Where a call is made: by whom, on which deposit, when. `claims` is every
      transaction other rows hold, `snap` the row as the worker read it. */
  datatype Scene = Scene(
    cfg: Config, who: Actor, key: string, now: int, intents: map<nat, Intent>, claims: set<Tx>, snap: Row)

  /** One call by a worker. None: not possible. */
  ghost function Perform(x: Scene, v: View, a: Action): Option<View> {
    match (v.phase, a)
    case (Resolving(sub), NoAnswer) => Some(v.(phase := Closing(Requeue)))
    case (Resolving(sub), Answer(resp)) =>
      if !Truthful(v.chain, sub.tx, resp) || (x.cfg.reports && !ReportsRange(resp)) then None
      else Some(v.(phase := match Resolve(x.cfg.validity, x.cfg.grace, resp, sub.until, x.now)
        case Settled => Closing(if x.snap.sweep then RecordSwept(sub.tx) else RecordDone(sub.tx))
        case Waiting => Closing(Requeue)
        case FailedForGood => Closing(GiveUp(Refused))
        case HistoryGone => Closing(GiveUp(Unresolvable))
        case Rebuild => Forgetting(Resume)))
    case (Deciding, Route(reached)) =>
      var l := LookUp(x.intents, x.snap.memo, reached);
      Some(v.(phase := match (if x.who == Watcher then FirstRoute(x.cfg, x.snap, l) else RetryRoute(x.cfg, x.snap, l))
        case CloseAtCeiling => Closing(GiveUp(AtCeiling))
        case FinishSweep => Drafting(Return, 0)
        case StartSweep => MarkingSweep
        case PayTo(to) => Drafting(Pay(to), 0)
        case LookupFailed => Closing(Charge)))
    case (MarkingSweep, Write(fate)) =>
      Update(v, fate, v.row.MarkedSweep(x.now), if fate == Kept then Drafting(Return, 0) else Closing(Charge), x.now)
    case (Drafting(goal, attempt), Stumble(fault)) =>
      if fault == Unconfirmed || fault == FeeTooLow || (fault == AwaitTrustline && goal != Return) then None
      else Some(v.(phase := AfterFault(x.cfg, x.who, goal, attempt, fault)))
    case (Drafting(goal, attempt), Draft(source, sequence, until)) =>
      // the max time is the build time plus the validity, cut to a whole second
      if !(until <= x.now + x.cfg.validity < until + x.cfg.second) then None
      else Some(v.(phase := Pricing(goal, attempt, 0, until, source, sequence)))
    case (Pricing(goal, attempt, bump, until, source, sequence), Stumble(fault)) =>
      if fault != Permanent then None else Some(v.(phase := AfterFault(x.cfg, x.who, goal, attempt, fault)))
    case (Pricing(goal, attempt, bump, until, source, sequence), Record(fee, fate)) =>
      var tx := Tx(BodyFor(goal, x.snap), source, sequence, fee, until);
      if tx in x.claims then
        // ErrSubmissionClaimed when the reply arrives; no row changes either way
        Some(v.(phase := AfterFault(x.cfg, x.who, goal, attempt, if fate == Kept then Contention else Transient)))
      else
        Update(v, fate, v.row.Recorded(tx, until, x.now),
               if fate == Kept then Sending(goal, attempt, bump, tx, 0)
                 else AfterFault(x.cfg, x.who, goal, attempt, Transient), x.now)
    case (Sending(goal, attempt, bump, tx, tries), Cancel) =>
      if tries == 0 then None else Some(v.(phase := Forgetting(Report(goal, attempt, Transient))))
    case (Sending(goal, attempt, bump, tx, tries), Send(reply)) =>
      (match reply
       case Queued => Some(v.(chain := Accept(v.chain, tx, x.key), phase := Polling(goal, attempt, tx)))
       case TryLater =>
         Some(v.(phase := if tries < x.cfg.tryAgain then Sending(goal, attempt, bump, tx, tries + 1)
                          else Forgetting(Report(goal, attempt, Transient))))
       case Rejected(result) =>
         var fault := Classify(result);
         Some(v.(phase := Forgetting(
           if fault == FeeTooLow && bump < x.cfg.feeRetries
           then Reprice(goal, attempt, bump + 1, tx.maxTime, tx.source, tx.sequence)
           else Report(goal, attempt, if fault == FeeTooLow then Transient else fault))))
       case Broken(reached) =>
         Some(v.(chain := if reached then Accept(v.chain, tx, x.key) else v.chain,
                 phase := AfterFault(x.cfg, x.who, goal, attempt, Unconfirmed))))
    case (Polling(goal, attempt, tx), Poll(seen)) =>
      (match seen
       case SeenOk =>
         if !(tx in v.chain.landed && v.chain.landed[tx].ok) then None
         else Some(v.(phase := Closing(if goal == Return then RecordSwept(tx) else RecordDone(tx))))
       case SeenFailed(result) =>
         if !(tx in v.chain.landed && !v.chain.landed[tx].ok) then None
         else Some(v.(phase := Forgetting(Report(goal, attempt, Classify(result)))))
       case Unseen => Some(v.(phase := AfterFault(x.cfg, x.who, goal, attempt, Unconfirmed))))
    case (Forgetting(next), Write(fate)) =>
      Update(v, fate, v.row.Cleared(x.now), match next
        case Resume => if fate == Kept then Deciding else Over
        case Reprice(goal, attempt, bump, until, source, sequence) =>
          Pricing(goal, attempt, bump, until, source, sequence)
        case Report(goal, attempt, fault) => AfterFault(x.cfg, x.who, goal, attempt, fault), x.now)
    case (Closing(verdict), Write(fate)) =>
      Update(v, fate, Conclude(v.row, verdict, x.now), Over, x.now)
    case _ => None
  }

  // ---- All of them ----

  /** A watcher worker's hold on a deposit. */
  datatype Watch = NoJob | Enqueued | Claimed(at: int) | Active(deadline: int, phase: Phase)

  datatype Retry = Idle | Running(snap: Row, phase: Phase)

  /** One deposit: its row, and whatever in memory refers to it. ticket is the
      row as fetched into the retry worker's current batch. */
  datatype Cell = Cell(row: Row, watch: Watch, ticket: Option<Row>, retry: Retry)

  datatype State = State(
    now: int, chain: Chain, intents: map<nat, Intent>, cells: map<string, Cell>, busy: Option<string>)

  const INITIAL: State := State(0, EMPTY_CHAIN, map[], map[], None)

  datatype Event =
    | Elapse(to: int)
    | CloseLedger(at: int, landings: map<Tx, Landing>)
    | CreateIntent(memo: nat, cAddress: string, expiresAt: int)
    | TouchIntent(memo: nat, status: IntentStatus)
    | Insert(key: string, memo: nat, pool: string, amount: string, asset: string, landedAt: int, dispatched: bool)
    | Claim(key: string, fate: Fate)
    | Begin(key: string)
    | WatchDoes(key: string, action: Action)
    | WatchStops(key: string)
    | Tick(keys: set<string>)
    | PickUp(key: string, fate: Fate)
    | RetryDoes(key: string, action: Action)
    | Crash

  ghost function ClaimsOfOthers(s: State, key: string): set<Tx> {
    set j, tx | j in s.cells && j != key && tx in s.cells[j].row.Held() :: tx
  }

  ghost function At(cfg: Config, s: State, key: string, who: Actor, snap: Row): Scene {
    Scene(cfg, who, key, s.now, s.intents, ClaimsOfOthers(s, key), snap)
  }

  function FirstPhase(snap: Row): Phase {
    if snap.submitted.Some? then Resolving(snap.submitted.value) else Deciding
  }

  ghost function Put(s: State, key: string, c: Cell): State { s.(cells := s.cells[key := c]) }

  /** The row as the retry worker's next batch holds it. */
  function Fetched(c: Cell): Cell { c.(ticket := Some(c.row)) }

  function Dropped(c: Cell): Cell { Cell(c.row, NoJob, None, Idle) }

  /** The next state, or None if the event cannot happen here. */
  ghost function Apply(cfg: Config, s: State, e: Event): Option<State> {
    match e
    case Elapse(to) => if to < s.now then None else Some(s.(now := to))
    case CloseLedger(at, landings) =>
      if !CanClose(cfg.validity, s.chain, at, landings) then None else Some(s.(chain := Close(s.chain, at, landings)))
    case CreateIntent(memo, cAddress, expiresAt) =>
      if memo in s.intents then None
      else Some(s.(intents := s.intents[memo := Intent(cAddress, expiresAt, IntentPending)]))
    case TouchIntent(memo, status) =>
      if memo !in s.intents then None else Some(s.(intents := s.intents[memo := s.intents[memo].(status := status)]))
    case Insert(key, memo, pool, amount, asset, landedAt, dispatched) =>
      if key in s.cells then Some(s)  // ON CONFLICT DO NOTHING, and not dispatched again
      else
        var row := NewRow(key, memo, pool, amount, asset, landedAt, s.now);
        Some(Put(s, key, Cell(row, if dispatched then Enqueued else NoJob, None, Idle)))
    case Claim(key, fate) =>
      if key !in s.cells || s.cells[key].watch != Enqueued then None
      else
        var c := s.cells[key];
        if !fate.Applied() then Some(Put(s, key, c.(watch := NoJob)))
        else if !(c.row.status == Pending && c.row.updatedAt == c.row.createdAt) then
          Some(Put(s, key, c.(watch := NoJob)))
        else if s.now <= c.row.updatedAt then None
        else Some(Put(s, key, c.(row := c.row.Touched(s.now), watch := if fate == Kept then Claimed(s.now) else NoJob)))
    case Begin(key) =>
      if key !in s.cells || !s.cells[key].watch.Claimed? || s.now > s.cells[key].watch.at + cfg.replyLag then None
      else Some(Put(s, key, s.cells[key].(watch := Active(s.now + cfg.deadline, Deciding))))
    case WatchDoes(key, action) =>
      if key !in s.cells || !s.cells[key].watch.Active? || s.now > s.cells[key].watch.deadline then None
      else
        var c := s.cells[key];
        var v := Perform(At(cfg, s, key, Watcher, c.row), View(c.row, c.watch.phase, s.chain), action);
        if v.None? then None
        else Some(Put(s, key, c.(row := v.value.row,
                                 watch := if v.value.phase == Over then NoJob else c.watch.(phase := v.value.phase)))
                  .(chain := v.value.chain))
    case WatchStops(key) =>
      if key !in s.cells then None else Some(Put(s, key, s.cells[key].(watch := NoJob)))
    case Tick(keys) =>
      if !(s.busy == None && keys <= s.cells.Keys && |keys| <= cfg.batch) then None
      else if !(forall k :: k in s.cells ==> s.cells[k].ticket == None) then None
      else if !(forall k :: k in keys ==> Eligible(s.cells[k].row, cfg.cutoff, s.now)) then None
      else Some(s.(cells := map k | k in s.cells :: if k in keys then Fetched(s.cells[k]) else s.cells[k]))
    case PickUp(key, fate) =>
      if key !in s.cells || s.busy != None || s.cells[key].ticket == None then None
      else
        var c := s.cells[key].(ticket := None);
        var snap := s.cells[key].ticket.value;
        var taken := Running(snap, FirstPhase(snap));
        if snap.status != Pending then Some(Put(s, key, c.(retry := taken)).(busy := Some(key)))
        else if !fate.Applied() then Some(Put(s, key, c))
        else if !(c.row.status == Pending && c.row.updatedAt == snap.updatedAt) then Some(Put(s, key, c))
        else if s.now <= c.row.updatedAt then None
        else if fate == Unheard then Some(Put(s, key, c.(row := c.row.Touched(s.now))))
        else Some(Put(s, key, c.(row := c.row.Touched(s.now), retry := taken)).(busy := Some(key)))
    case RetryDoes(key, action) =>
      if key !in s.cells || !s.cells[key].retry.Running? then None
      else
        var c := s.cells[key];
        var v := Perform(At(cfg, s, key, Retrier, c.retry.snap), View(c.row, c.retry.phase, s.chain), action);
        if v.None? then None
        else if v.value.phase == Over then
          Some(Put(s, key, c.(row := v.value.row, retry := Idle)).(chain := v.value.chain, busy := None))
        else
          var retry := c.retry.(phase := v.value.phase);
          Some(Put(s, key, c.(row := v.value.row, retry := retry)).(chain := v.value.chain))
    case Crash => Some(s.(cells := map k | k in s.cells :: Dropped(s.cells[k]), busy := None))
  }

  /** The state after a sequence of events, if each could happen in turn. */
  ghost function Run(cfg: Config, s: State, events: seq<Event>): Option<State>
    decreases |events|
  {
    if events == [] then Some(s)
    else
      var t := Apply(cfg, s, events[0]);
      if t.None? then None else Run(cfg, t.value, events[1..])
  }

  ghost predicate Reachable(cfg: Config, s: State) {
    exists events :: Run(cfg, INITIAL, events) == Some(s)
  }
}
