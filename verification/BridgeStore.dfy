/** The bridge machine writes the forwards table through the store's statements
    and in no other way. */
module BridgeStore {
  import opened Common
  import opened Ledger
  import opened Resolution
  import opened ForwardTable
  import opened Bridge
  import opened BridgeProof
  import opened BridgeTheorems
  import S = ForwardStore

  ghost function RowsOf(s: State): S.Rows { map k | k in s.cells :: s.cells[k].row }

  /** The statement that records an outcome. */
  function Closes(key: string, v: Verdict): S.Statement {
    match v
    case RecordDone(tx) => S.MarkForwardDone(key, tx)
    case RecordSwept(tx) => S.MarkSwept(key, tx)
    case Requeue => S.RequeueForContention(key)
    case Charge => S.MarkForwardFailed(key, PendingRetry)
    case ChargeAndFail => S.MarkForwardFailed(key, Failed)
    case GiveUp(why) => S.PermanentlyFail(key, why)
  }

  /** The statement a worker's call commits, if any. */
  function Commits(key: string, snap: Row, p: Phase, a: Action): Option<S.Statement> {
    match (p, a)
    case (MarkingSweep, Write(fate)) => if fate.Applied() then Some(S.MarkSweep(key)) else None
    case (Pricing(goal, _, _, until, source, sequence), Record(fee, fate)) =>
      if fate.Applied()
        then Some(S.RecordSubmission(key, Tx(BodyFor(goal, snap), source, sequence, fee, until), until)) else None
    case (Forgetting(_), Write(fate)) => if fate.Applied() then Some(S.ClearSubmission(key)) else None
    case (Closing(v), Write(fate)) => if fate.Applied() then Some(Closes(key, v)) else None
    case _ => None
  }

  function Statement(s: State, e: Event): Option<S.Statement> {
    match e
    case Insert(key, memo, pool, amount, asset, landedAt, _) =>
      Some(S.InsertForward(key, memo, pool, amount, asset, landedAt))
    case Claim(key, fate) => if fate.Applied() then Some(S.ClaimNewForward(key)) else None
    case PickUp(key, fate) =>
      if key in s.cells && s.cells[key].ticket.Some? && s.cells[key].ticket.value.status == Pending && fate.Applied()
      then Some(S.ClaimPendingForward(key, s.cells[key].ticket.value.updatedAt)) else None
    case WatchDoes(key, a) =>
      if key in s.cells && s.cells[key].watch.Active?
        then Commits(key, s.cells[key].row, s.cells[key].watch.phase, a) else None
    case RetryDoes(key, a) =>
      if key in s.cells && s.cells[key].retry.Running?
        then Commits(key, s.cells[key].retry.snap, s.cells[key].retry.phase, a) else None
    case _ => None
  }

  lemma ClaimsAreHeld(s: State, key: string, tx: Tx)
    ensures tx in ClaimsOfOthers(s, key) <==> !S.Unclaimed(RowsOf(s), key, tx)
  {
    var rows := RowsOf(s);
    if tx in ClaimsOfOthers(s, key) {
      var j :| j in s.cells && j != key && tx in s.cells[j].row.Held();
      assert rows[j] == s.cells[j].row;
    } else {
      forall j | j in rows && j != key ensures tx !in rows[j].Held() { }
    }
  }

  lemma CallCommits(x: Scene, v: View, a: Action)
    requires Perform(x, v, a).Some?
    ensures var st := Commits(x.key, x.snap, v.phase, a);
            var refused := st.Some? && st.value.RecordSubmission? && st.value.tx in x.claims;
            Perform(x, v, a).value.row == if st.Some? && !refused then S.Rewritten(v.row, st.value, x.now) else v.row
  {
  }

  /** Every event changes the rows exactly as the one statement it commits does,
      and not at all if it commits none. */
  lemma EventIsStatement(cfg: Config, s: State, e: Event)
    requires Apply(cfg, s, e).Some?
    ensures var st := Statement(s, e);
            RowsOf(Apply(cfg, s, e).value) == if st.Some? then S.Execute(RowsOf(s), st.value, s.now) else RowsOf(s)
  {
    match e
    case WatchDoes(_, _) => WatchWrites(cfg, s, e);
    case RetryDoes(_, _) => RetryWrites(cfg, s, e);
    case Insert(_, _, _, _, _, _, _) => InsertWrites(cfg, s, e);
    case Claim(_, _) => ClaimWrites(cfg, s, e);
    case PickUp(_, _) => ClaimWrites(cfg, s, e);
    case _ => NothingWritten(cfg, s, e);
  }

  lemma WatchWrites(cfg: Config, s: State, e: Event)
    requires e.WatchDoes? && Apply(cfg, s, e).Some?
    ensures var st := Statement(s, e);
            RowsOf(Apply(cfg, s, e).value) == if st.Some? then S.Execute(RowsOf(s), st.value, s.now) else RowsOf(s)
  {
    WatchRow(cfg, s, e.key, e.action);
    var c := s.cells[e.key];
    CallCommits(At(cfg, s, e.key, Watcher, c.row), View(c.row, c.watch.phase, s.chain), e.action);
    if Statement(s, e).Some? { CallExecutes(s, e.key, Statement(s, e).value); }
  }

  lemma RetryWrites(cfg: Config, s: State, e: Event)
    requires e.RetryDoes? && Apply(cfg, s, e).Some?
    ensures var st := Statement(s, e);
            RowsOf(Apply(cfg, s, e).value) == if st.Some? then S.Execute(RowsOf(s), st.value, s.now) else RowsOf(s)
  {
    RetryRow(cfg, s, e.key, e.action);
    var c := s.cells[e.key];
    CallCommits(At(cfg, s, e.key, Retrier, c.retry.snap), View(c.row, c.retry.phase, s.chain), e.action);
    if Statement(s, e).Some? { CallExecutes(s, e.key, Statement(s, e).value); }
  }

  /** So the store is valid in every reachable state, its two statements that do
      not check a claim included. */
  lemma StoreStaysValid(cfg: Config, s: State)
    requires cfg.Ok() && Reachable(cfg, s)
    ensures Separate(RowsOf(s)) && forall k :: k in RowsOf(s) ==> RowsOf(s)[k].key == k
  {
    ReachableKeeps(cfg, s);
    forall k | k in s.cells ensures s.cells[k].row.key == k {
      assert CellOk(cfg, s.now, s.intents, s.chain, k, s.cells[k]);
    }
    assert SeparateCells(s.cells);
  }

  lemma InsertWrites(cfg: Config, s: State, e: Event)
    requires e.Insert? && Apply(cfg, s, e).Some?
    ensures RowsOf(Apply(cfg, s, e).value) == S.Execute(RowsOf(s), Statement(s, e).value, s.now)
  {
  }

  lemma ClaimWrites(cfg: Config, s: State, e: Event)
    requires (e.Claim? || e.PickUp?) && Apply(cfg, s, e).Some?
    ensures var st := Statement(s, e);
            RowsOf(Apply(cfg, s, e).value) == if st.Some? then S.Execute(RowsOf(s), st.value, s.now) else RowsOf(s)
  {
  }

  lemma NothingWritten(cfg: Config, s: State, e: Event)
    requires !e.Insert? && !e.Claim? && !e.PickUp? && !e.WatchDoes? && !e.RetryDoes? && Apply(cfg, s, e).Some?
    ensures RowsOf(Apply(cfg, s, e).value) == RowsOf(s)
  {
  }

  /** The row a call leaves, and that it leaves every other row alone. */
  lemma RetryRow(cfg: Config, s: State, key: string, a: Action)
    requires Apply(cfg, s, RetryDoes(key, a)).Some?
    ensures key in s.cells && s.cells[key].retry.Running?
    ensures var c, t := s.cells[key], Apply(cfg, s, RetryDoes(key, a)).value;
            var w := Perform(At(cfg, s, key, Retrier, c.retry.snap), View(c.row, c.retry.phase, s.chain), a);
            w.Some? && RowsOf(t) == RowsOf(s)[key := w.value.row]
  {
  }

  lemma WatchRow(cfg: Config, s: State, key: string, a: Action)
    requires Apply(cfg, s, WatchDoes(key, a)).Some?
    ensures key in s.cells && s.cells[key].watch.Active?
    ensures var c, t := s.cells[key], Apply(cfg, s, WatchDoes(key, a)).value;
            var w := Perform(At(cfg, s, key, Watcher, c.row), View(c.row, c.watch.phase, s.chain), a);
            w.Some? && RowsOf(t) == RowsOf(s)[key := w.value.row]
  {
  }

  /** A statement of a worker's call, on rows that hold the deposit's. */
  predicate OfCall(st: S.Statement) { !st.InsertForward? && !st.ClaimNewForward? && !st.ClaimPendingForward? }

  lemma CallExecutes(s: State, key: string, st: S.Statement)
    requires key in s.cells && st.key == key && OfCall(st)
    ensures var refused := st.RecordSubmission? && st.tx in ClaimsOfOthers(s, key);
            S.Execute(RowsOf(s), st, s.now)
            == RowsOf(s)[key := if refused then s.cells[key].row else S.Rewritten(s.cells[key].row, st, s.now)]
  {
    if st.RecordSubmission? { ClaimsAreHeld(s, key, st.tx); }
  }
}
