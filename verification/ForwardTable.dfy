/** The forwards and intents tables, one function per statement. */
module ForwardTable {
  import opened Common
  import opened Ledger

  datatype Status = Pending | PendingRetry | Done | Swept | Failed {
    predicate Final() { Done? || Swept? || Failed? }
  }

  /** Why a row was closed, as far as the model distinguishes it. */
  datatype Note = NoNote | AtCeiling | Unresolvable | Refused

  /** submitted_tx and submitted_until, which are always written together. */
  datatype Submission = Submission(tx: Tx, until: int)

  datatype Row = Row(
    key: string, memo: nat, pool: string, amount: string, asset: string, landedAt: int,
    createdAt: int, updatedAt: int, status: Status, retries: nat,
    submitted: Option<Submission>, forwardTx: Option<Tx>, sweep: bool, note: Note)
  {
    /** The outbound transactions this row claims, in flight or settled. */
    function Held(): set<Tx> {
      (if submitted.Some? then {submitted.value.tx} else {}) +
      (if forwardTx.Some? then {forwardTx.value} else {})
    }

    /** Untouched since InsertForward. */
    predicate Fresh() {
      status == Pending && retries == 0 && submitted == None && forwardTx == None && !sweep
    }

    /** What was paid, where and for which intent. */
    predicate Names(m: nat, p: string, n: string, a: string) { memo == m && pool == p && amount == n && asset == a }

    /** The columns no statement ever rewrites. */
    predicate SameDeposit(r: Row) {
      && key == r.key && memo == r.memo && pool == r.pool && amount == r.amount
      && asset == r.asset && landedAt == r.landedAt && createdAt == r.createdAt
    }

    function Touched(now: int): Row { this.(updatedAt := now) }

    function MarkedDone(tx: Tx, now: int): Row {
      this.(status := Done, forwardTx := Some(tx), submitted := None, updatedAt := now)
    }

    function MarkedSweep(now: int): Row { this.(sweep := true, updatedAt := now) }

    function MarkedSwept(tx: Tx, now: int): Row {
      this.(status := Swept, forwardTx := Some(tx), submitted := None, updatedAt := now)
    }

    function Recorded(tx: Tx, until: int, now: int): Row {
      this.(submitted := Some(Submission(tx, until)), updatedAt := now)
    }

    function Cleared(now: int): Row { this.(submitted := None, updatedAt := now) }

    function MarkedFailed(to: Status, now: int): Row {
      this.(status := to, retries := retries + 1, updatedAt := now)
    }

    function Requeued(now: int): Row { this.(status := PendingRetry, updatedAt := now) }

    function FailedForGood(why: Note, now: int): Row { this.(status := Failed, note := why, updatedAt := now) }
  }

  function NewRow(
    key: string, memo: nat, pool: string, amount: string, asset: string, landedAt: int, now: int): (r: Row)
    ensures r.Fresh() && r.createdAt == r.updatedAt == now
    ensures r.key == key && r.Names(memo, pool, amount, asset) && r.landedAt == landedAt
  {
    Row(key, memo, pool, amount, asset, landedAt, now, now, Pending, 0, None, None, false, NoNote)
  }

  /** The rows the retry worker fetches: queued ones, and 'pending' ones nobody
      has touched for longer than the cutoff. */
  predicate Eligible(r: Row, cutoff: nat, now: int) {
    r.status == PendingRetry || (r.status == Pending && r.updatedAt < now - cutoff)
  }

  datatype IntentStatus = IntentPending | IntentCompleted | IntentExpired | IntentFailed

  datatype Intent = Intent(cAddress: string, expiresAt: int, status: IntentStatus)

  /** No two rows claim one outbound transaction. */
  ghost predicate Separate(rows: map<string, Row>) {
    forall j, k :: j in rows && k in rows && j != k ==> rows[j].Held() !! rows[k].Held()
  }
}
