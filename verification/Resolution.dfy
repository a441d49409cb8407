/** resolveSubmitted: what a retry does about a transfer whose outcome is
    unknown, and exactly when building a new one is safe. */
module Resolution {
  import opened Common
  import opened Ledger

  datatype Fault = Permanent | Transient | Contention | Unconfirmed | FeeTooLow | AwaitTrustline

  /** The code that decides: a fee-bump reports the inner transaction's. */
  function CodeOf(r: Result): Option<Code> {
    match r
    case Unreadable => None
    case Direct(code) => Some(code)
    case InFeeBump(inner) => Some(inner)
  }

  /** classifyResultXDR. Only a bad sequence number is contention, only a low fee
      asks for a higher one, and only an unlisted code is final; whatever cannot
      be read may be tried again. */
  function Classify(r: Result): (f: Fault)
    ensures f == Contention <==> CodeOf(r) == Some(BadSeq)
    ensures f == FeeTooLow <==> CodeOf(r) == Some(InsufficientFee)
    ensures f == Permanent <==> CodeOf(r) == Some(OtherCode)
    ensures f != Unconfirmed && f != AwaitTrustline
  {
    match r
    case Unreadable => Transient
    case Direct(code) => ClassifyCode(code)
    case InFeeBump(inner) => ClassifyCode(inner)
  }

  function ClassifyCode(code: Code): Fault {
    match code
    case InsufficientFee => FeeTooLow
    case BadSeq => Contention
    case TooEarly => Transient
    case TooLate => Transient
    case InternalError => Transient
    case OtherCode => Permanent
  }

  /** The network's clock decides; the local one only when RPC reports none. */
  predicate PastMaxTime(grace: nat, resp: Response, until: int, now: int) {
    if resp.latest != 0 then resp.latest > until else now > until + grace
  }

  datatype Resolution =
    | Settled        // it landed: record the outcome
    | Waiting        // it can still land
    | FailedForGood  // it landed and failed for a cause that would repeat
    | HistoryGone    // it may have landed outside RPC's history
    | Rebuild        // a new transfer may be built

  function Resolve(validity: nat, grace: nat, resp: Response, until: int, now: int): Resolution {
    match resp.status
    case FoundOk => Settled
    case FoundFailed(result) => if Classify(result) == Permanent then FailedForGood else Rebuild
    case NotFound =>
      if !PastMaxTime(grace, resp, until, now) then Waiting
      else if resp.oldest != 0 && resp.oldest > until - validity then HistoryGone
      else Rebuild
  }

  /** RPC reported both ends of its retained range. */
  predicate ReportsRange(resp: Response) { resp.oldest != 0 && resp.latest != 0 }

  /** A rebuild is allowed only once the recorded transaction has moved no
      funds and can never land. */
  lemma RebuildIsSafe(validity: nat, grace: nat, c: Chain, tx: Tx, resp: Response, now: int)
    requires ChainOk(validity, c) && Truthful(c, tx, resp)
    requires resp.status == NotFound ==> ReportsRange(resp)
    requires Resolve(validity, grace, resp, tx.maxTime, now) == Rebuild
    ensures !Live(c, tx)
  {
    var lo, hi :| Answers(c, tx, resp, lo, hi);
    assert tx in c.landed ==> LandingOk(validity, c.closed, tx, c.landed[tx]);
  }

  /** Both directions. For a "not found" on which the code rebuilds, no network
      consistent with the answer can still pay the old transfer if and only if
      RPC reported both ends of its range: a missing `oldest` hides a landing
      that history has dropped, a missing `latest` one not yet ingested. */
  lemma RebuildSafeIffRangeReported(validity: nat, grace: nat, tx: Tx, resp: Response, now: int)
    requires 0 < validity
    requires resp.status == NotFound
    requires Resolve(validity, grace, resp, tx.maxTime, now) == Rebuild
    ensures (forall c :: ChainOk(validity, c) && Truthful(c, tx, resp) ==> !Live(c, tx)) <==> ReportsRange(resp)
  {
    if ReportsRange(resp) {
      forall c | ChainOk(validity, c) && Truthful(c, tx, resp) ensures !Live(c, tx) {
        RebuildIsSafe(validity, grace, c, tx, resp, now);
      }
    } else {
      var c := PaidUnseen(validity, tx, resp);
      assert !(ChainOk(validity, c) && Truthful(c, tx, resp) ==> !Live(c, tx));
    }
  }

  /** A network in which the transfer landed at its max time and RPC, holding
      one ledger, truthfully reports it as not found. */
  ghost function PaidUnseen(validity: nat, tx: Tx, resp: Response): (c: Chain)
    requires 0 < validity && resp.status == NotFound && !ReportsRange(resp)
    requires resp.latest != 0 ==> resp.latest > tx.maxTime
    requires resp.oldest != 0 ==> resp.oldest <= tx.maxTime - validity
    ensures ChainOk(validity, c) && Truthful(c, tx, resp) && Live(c, tx)
  {
    var held := if resp.oldest == 0 then (if resp.latest != 0 then resp.latest else tx.maxTime + 1) else resp.oldest;
    var top := if held < tx.maxTime then tx.maxTime else held;
    var c := Chain(top, map[tx := ""], map[tx := Landing(tx.maxTime, true, 0)]);
    assert LandingOk(validity, top, tx, Landing(tx.maxTime, true, 0));
    assert Answers(c, tx, resp, held, held);
    c
  }
}
