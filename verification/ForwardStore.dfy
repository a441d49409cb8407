/** The store's statements on the forwards table, and the store itself. */
module ForwardStore {
  import opened Common
  import opened Ledger
  import opened ForwardTable

  type Rows = map<string, Row>

  datatype Statement =
    | InsertForward(key: string, memo: nat, pool: string, amount: string, asset: string, landedAt: int)
    | ClaimNewForward(key: string)
    | ClaimPendingForward(key: string, seen: int)
    | RecordSubmission(key: string, tx: Tx, until: int)
    | ClearSubmission(key: string)
    | MarkForwardDone(key: string, tx: Tx)
    | MarkSweep(key: string)
    | MarkSwept(key: string, tx: Tx)
    | MarkForwardFailed(key: string, to: Status)
    | RequeueForContention(key: string)
    | PermanentlyFail(key: string, why: Note)

  /** No other row holds the transaction, in flight or settled. */
  predicate Unclaimed(rows: Rows, key: string, tx: Tx) {
    forall j :: j in rows && j != key ==> tx !in rows[j].Held()
  }

  /** The statement's WHERE clause. */
  predicate Matches(rows: Rows, st: Statement) {
    if st.InsertForward? then st.key !in rows
    else
      && st.key in rows
      && match st
         case ClaimNewForward(k) => rows[k].status == Pending && rows[k].updatedAt == rows[k].createdAt
         case ClaimPendingForward(k, seen) => rows[k].status == Pending && rows[k].updatedAt == seen
         case RecordSubmission(k, tx, _) => Unclaimed(rows, k, tx)
         case _ => true
  }

  function Rewritten(r: Row, st: Statement, now: int): Row {
    match st
    case InsertForward(key, memo, pool, amount, asset, landedAt) =>
      NewRow(key, memo, pool, amount, asset, landedAt, now)
    case ClaimNewForward(_) => r.Touched(now)
    case ClaimPendingForward(_, _) => r.Touched(now)
    case RecordSubmission(_, tx, until) => r.Recorded(tx, until, now)
    case ClearSubmission(_) => r.Cleared(now)
    case MarkForwardDone(_, tx) => r.MarkedDone(tx, now)
    case MarkSweep(_) => r.MarkedSweep(now)
    case MarkSwept(_, tx) => r.MarkedSwept(tx, now)
    case MarkForwardFailed(_, to) => r.MarkedFailed(to, now)
    case RequeueForContention(_) => r.Requeued(now)
    case PermanentlyFail(_, why) => r.FailedForGood(why, now)
  }

  /** The table after a statement. */
  function Execute(rows: Rows, st: Statement, now: int): Rows {
    if !Matches(rows, st) then rows
    else if st.InsertForward?
      then rows[st.key := NewRow(st.key, st.memo, st.pool, st.amount, st.asset, st.landedAt, now)]
    else rows[st.key := Rewritten(rows[st.key], st, now)]
  }

  // ---- What a statement can do ----

  /** No row is lost, only the named one changes, and never its deposit. */
  ghost predicate Touches(rows: Rows, later: Rows, key: string) {
    && rows.Keys <= later.Keys <= rows.Keys + {key}
    && (forall j :: j in rows && j != key ==> later[j] == rows[j])
    && (key in rows ==> later[key].SameDeposit(rows[key]))
  }

  /** Nothing about how the deposit ended, or is to end, differs. */
  predicate SameOutcome(r: Row, q: Row) {
    && q.status == r.status && q.retries == r.retries && q.sweep == r.sweep && q.forwardTx == r.forwardTx
    && q.note == r.note
  }

  /** Whatever the statement: one row, charged only by MarkForwardFailed and then
      by one, its in-flight transaction replaced only by the four statements about
      it, its sweep decision never undone. */
  lemma StatementEffects(rows: Rows, st: Statement, now: int)
    ensures var later := Execute(rows, st, now);
            && Touches(rows, later, st.key)
            && (st.key in rows ==>
                  var r, q := rows[st.key], later[st.key];
                  && q.retries == r.retries + (if st.MarkForwardFailed? then 1 else 0)
                  && (r.sweep ==> q.sweep) && (q.sweep ==> r.sweep || st.MarkSweep?)
                  && (q.submitted != r.submitted ==>
                        st.RecordSubmission? || st.ClearSubmission? || st.MarkForwardDone? || st.MarkSwept?)
                  && (q.forwardTx != r.forwardTx ==> st.MarkForwardDone? || st.MarkSwept?))
  {
  }

  /** Claims stay separate under every statement, except a MarkForwardDone or
      MarkSwept that settles a row on a transaction another row holds. */
  lemma SeparateIff(rows: Rows, st: Statement, now: int)
    requires Separate(rows)
    ensures Separate(Execute(rows, st, now)) <==>
            (st.MarkForwardDone? || st.MarkSwept?) && st.key in rows ==> Unclaimed(rows, st.key, st.tx)
  {
    var later := Execute(rows, st, now);
    if (st.MarkForwardDone? || st.MarkSwept?) && st.key in rows {
      assert st.tx in later[st.key].Held();
      if !Unclaimed(rows, st.key, st.tx) {
        var j :| j in rows && j != st.key && st.tx in rows[j].Held();
        assert later[j] == rows[j];
      }
    }
  }

  // ---- The store ----

  class Store {
    var rows: Rows

    ghost predicate Valid() reads this {
      Separate(rows) && forall k :: k in rows ==> rows[k].key == k
    }

    constructor ()
      ensures Valid() && rows == map[]
    {
      rows := map[];
    }

    method InsertForward(key: string, memo: nat, pool: string, amount: string, asset: string, landedAt: int, now: int)
      returns (inserted: bool)
      requires Valid()
      modifies this
      ensures Valid() && rows
              == Execute(old(rows), Statement.InsertForward(key, memo, pool, amount, asset, landedAt), now)
      ensures inserted <==> key !in old(rows)
      ensures inserted ==> rows[key].Fresh() && old(rows) == rows - {key}
      ensures inserted ==>
                && rows[key].Names(memo, pool, amount, asset) && rows[key].landedAt == landedAt
                && rows[key].createdAt == rows[key].updatedAt == now
      ensures !inserted ==> rows == old(rows)
    {
      inserted := key !in rows;
      if inserted {
        rows := rows[key := NewRow(key, memo, pool, amount, asset, landedAt, now)];
      }
    }

    method ClaimNewForward(key: string, now: int) returns (claimed: bool)
      requires Valid()
      modifies this
      ensures Valid() && rows == Execute(old(rows), Statement.ClaimNewForward(key), now)
      ensures claimed <==>
                && key in old(rows) && old(rows)[key].status == Pending
                && old(rows)[key].updatedAt == old(rows)[key].createdAt
      ensures rows == if claimed then old(rows)[key := old(rows)[key].(updatedAt := now)] else old(rows)
    {
      claimed := key in rows && rows[key].status == Pending && rows[key].updatedAt == rows[key].createdAt;
      if claimed {
        rows := rows[key := rows[key].Touched(now)];
      }
    }

    method ClaimPendingForward(key: string, seen: int, now: int) returns (claimed: bool)
      requires Valid()
      modifies this
      ensures Valid() && rows == Execute(old(rows), Statement.ClaimPendingForward(key, seen), now)
      ensures claimed <==> key in old(rows) && old(rows)[key].status == Pending && old(rows)[key].updatedAt == seen
      ensures rows == if claimed then old(rows)[key := old(rows)[key].(updatedAt := now)] else old(rows)
    {
      claimed := key in rows && rows[key].status == Pending && rows[key].updatedAt == seen;
      if claimed {
        rows := rows[key := rows[key].Touched(now)];
      }
    }

    /** False is ErrSubmissionClaimed: the row is gone, or another row already
        claims the transaction. Valid() is what the refusal buys: one outbound
        transaction never belongs to two deposits. */
    method RecordSubmission(key: string, tx: Tx, until: int, now: int) returns (recorded: bool)
      requires Valid()
      modifies this
      ensures Valid() && rows == Execute(old(rows), Statement.RecordSubmission(key, tx, until), now)
      ensures recorded <==> key in old(rows) && Unclaimed(old(rows), key, tx)
      ensures if recorded
              then Touches(old(rows), rows, key) && rows[key].submitted == Some(Submission(tx, until))
                   && SameOutcome(old(rows)[key], rows[key]) && rows[key].updatedAt == now
              else rows == old(rows)
    {
      var left := rows.Keys - {key};
      recorded := key in rows;
      while left != {} && recorded
        invariant left <= rows.Keys - {key}
        invariant recorded ==> key in rows && forall j :: j in rows && j != key && j !in left ==> tx !in rows[j].Held()
        invariant !recorded ==> key !in rows || exists j :: j in rows && j != key && tx in rows[j].Held()
        invariant rows == old(rows)
        decreases left, recorded
      {
        var j :| j in left;
        if tx in rows[j].Held() {
          recorded := false;
        } else {
          left := left - {j};
        }
      }
      if recorded {
        SeparateIff(rows, Statement.RecordSubmission(key, tx, until), now);
        rows := rows[key := rows[key].Recorded(tx, until, now)];
      }
    }

    /** Settles the row on a transaction that landed. Claims stay separate exactly
        when no other row holds it, which the caller owes to RecordSubmission. */
    method MarkForwardDone(key: string, tx: Tx, now: int)
      requires Valid()
      modifies this
      ensures rows == Execute(old(rows), Statement.MarkForwardDone(key, tx), now) && Touches(old(rows), rows, key)
      ensures Valid() <==> (key in old(rows) ==> Unclaimed(old(rows), key, tx))
      ensures key in old(rows) ==>
                var r, q := old(rows)[key], rows[key];
                && q.status == Done && q.forwardTx == Some(tx) && q.submitted == None
                && q.retries == r.retries && q.sweep == r.sweep && q.updatedAt == now
    {
      SeparateIff(rows, Statement.MarkForwardDone(key, tx), now);
      if key in rows {
        rows := rows[key := rows[key].MarkedDone(tx, now)];
      }
    }

    method MarkSwept(key: string, tx: Tx, now: int)
      requires Valid()
      modifies this
      ensures rows == Execute(old(rows), Statement.MarkSwept(key, tx), now) && Touches(old(rows), rows, key)
      ensures Valid() <==> (key in old(rows) ==> Unclaimed(old(rows), key, tx))
      ensures key in old(rows) ==>
                var r, q := old(rows)[key], rows[key];
                && q.status == Swept && q.forwardTx == Some(tx) && q.submitted == None
                && q.retries == r.retries && q.sweep == r.sweep && q.updatedAt == now
    {
      SeparateIff(rows, Statement.MarkSwept(key, tx), now);
      if key in rows {
        rows := rows[key := rows[key].MarkedSwept(tx, now)];
      }
    }

    /** Forgets the in-flight transaction and keeps everything else: status,
        retries, decision. */
    method ClearSubmission(key: string, now: int)
      requires Valid()
      modifies this
      ensures Valid() && rows == Execute(old(rows), Statement.ClearSubmission(key), now)
              && Touches(old(rows), rows, key)
      ensures key in old(rows) ==>
                var r, q := old(rows)[key], rows[key];
                q.submitted == None && SameOutcome(r, q) && q.updatedAt == now
    {
      SeparateIff(rows, Statement.ClearSubmission(key), now);
      if key in rows {
        rows := rows[key := rows[key].Cleared(now)];
      }
    }

    /** Persists the decision; what is in flight stays in flight. */
    method MarkSweep(key: string, now: int)
      requires Valid()
      modifies this
      ensures Valid() && rows == Execute(old(rows), Statement.MarkSweep(key), now) && Touches(old(rows), rows, key)
      ensures key in old(rows) ==>
                var r, q := old(rows)[key], rows[key];
                q.sweep && q.submitted == r.submitted && SameOutcome(r.(sweep := true), q) && q.updatedAt == now
    {
      SeparateIff(rows, Statement.MarkSweep(key), now);
      if key in rows {
        rows := rows[key := rows[key].MarkedSweep(now)];
      }
    }

    /** Charges one retry. A transaction that may be in flight stays on the row. */
    method MarkForwardFailed(key: string, to: Status, now: int)
      requires Valid()
      modifies this
      ensures Valid() && rows == Execute(old(rows), Statement.MarkForwardFailed(key, to), now)
              && Touches(old(rows), rows, key)
      ensures key in old(rows) ==>
                var r, q := old(rows)[key], rows[key];
                && q.status == to && q.retries == r.retries + 1 && q.sweep == r.sweep
                && q.submitted == r.submitted && q.forwardTx == r.forwardTx && q.updatedAt == now
    {
      SeparateIff(rows, Statement.MarkForwardFailed(key, to), now);
      if key in rows {
        rows := rows[key := rows[key].MarkedFailed(to, now)];
      }
    }

    /** Queues the row, charging nothing and keeping what may be in flight. */
    method RequeueForContention(key: string, now: int)
      requires Valid()
      modifies this
      ensures Valid() && rows == Execute(old(rows), Statement.RequeueForContention(key), now)
              && Touches(old(rows), rows, key)
      ensures key in old(rows) ==>
                var r, q := old(rows)[key], rows[key];
                && q.status == PendingRetry && q.retries == r.retries && q.sweep == r.sweep
                && q.submitted == r.submitted && q.forwardTx == r.forwardTx && q.updatedAt == now
    {
      SeparateIff(rows, Statement.RequeueForContention(key), now);
      if key in rows {
        rows := rows[key := rows[key].Requeued(now)];
      }
    }

    /** Closes the row, charging nothing and keeping what may be in flight. */
    method PermanentlyFail(key: string, why: Note, now: int)
      requires Valid()
      modifies this
      ensures Valid() && rows == Execute(old(rows), Statement.PermanentlyFail(key, why), now)
              && Touches(old(rows), rows, key)
      ensures key in old(rows) ==>
                var r, q := old(rows)[key], rows[key];
                && q.status == Failed && q.note == why && q.retries == r.retries && q.sweep == r.sweep
                && q.submitted == r.submitted && q.forwardTx == r.forwardTx && q.updatedAt == now
    {
      SeparateIff(rows, Statement.PermanentlyFail(key, why), now);
      if key in rows {
        rows := rows[key := rows[key].FailedForGood(why, now)];
      }
    }

    // ---- The retry worker's batch ----

    /** A row no other of `keys` comes before. */
    method FirstOf(keys: set<string>) returns (k: string)
      requires keys != {} && keys <= rows.Keys
      ensures k in keys && forall j :: j in keys ==> Ahead(rows[k], rows[j])
    {
      k :| k in keys;
      var left := keys - {k};
      while left != {}
        invariant k in keys && left <= keys
        invariant forall j :: j in keys && j !in left ==> Ahead(rows[k], rows[j])
        decreases left
      {
        var j :| j in left;
        if !Ahead(rows[k], rows[j]) {
          k := j;
        }
        left := left - {j};
      }
    }

    /** GetPendingRetries: the first `limit` eligible rows, fewest retries first,
        then oldest first. */
    method GetPendingRetries(cutoff: nat, limit: nat, now: int) returns (batch: seq<string>)
      requires Valid()
      ensures forall i :: 0 <= i < |batch| ==> batch[i] in rows && Eligible(rows[batch[i]], cutoff, now)
      ensures forall i, j :: 0 <= i < j < |batch| ==>
                var a, b := rows[batch[i]], rows[batch[j]];
                && batch[i] != batch[j] && a.retries <= b.retries
                && (a.retries == b.retries ==> a.createdAt <= b.createdAt)
      ensures |batch| <= limit
      ensures forall k :: k in rows && Eligible(rows[k], cutoff, now) && k !in batch ==>
                |batch| == limit && forall i :: 0 <= i < |batch| ==> Ahead(rows[batch[i]], rows[k])
    {
      var left := set k | k in rows && Eligible(rows[k], cutoff, now);
      batch := [];
      while left != {} && |batch| < limit
        invariant |batch| <= limit
        invariant forall k :: k in left ==> k in rows && Eligible(rows[k], cutoff, now) && k !in batch
        invariant forall k :: k in rows && Eligible(rows[k], cutoff, now) ==> k in left || k in batch
        invariant forall i :: 0 <= i < |batch| ==> batch[i] in rows && Eligible(rows[batch[i]], cutoff, now)
        invariant forall i, j :: 0 <= i < j < |batch| ==> batch[i] != batch[j] && Ahead(rows[batch[i]], rows[batch[j]])
        invariant forall i, k :: 0 <= i < |batch| && k in left ==> Ahead(rows[batch[i]], rows[k])
        decreases left
      {
        var k := FirstOf(left);
        batch := batch + [k];
        left := left - {k};
      }
    }
  }

  /** ORDER BY retries ASC, created_at ASC. */
  predicate Ahead(a: Row, b: Row) {
    a.retries < b.retries || (a.retries == b.retries && a.createdAt <= b.createdAt)
  }
}
