/** The Stellar network as far as the relayer depends on it: which transactions
    entered the queue and on whose behalf, which landed, and what RPC may
    truthfully answer about them.

    A transaction stands for its own hash, so equal hashes mean equal contents.
    Time is an integer; ledger close times strictly increase. */
module Ledger {
  import opened Common

  datatype Body =
    | Credit(to: string, pool: string, amount: string, asset: string)
    | Recovery(pool: string, amount: string, asset: string)
    | Invoke(call: string)

  /** fee is the most the transaction can cost, maxTime the upper time bound. */
  datatype Tx = Tx(body: Body, source: string, sequence: int, fee: nat, maxTime: int)

  datatype Landing = Landing(at: int, ok: bool, charged: int)

  /** queued: every transaction the network ever accepted, with the deposit or
      request it was sent for. It may still land until a ledger closes at or
      after its max time. landed: the ones included in a ledger. */
  datatype Chain = Chain(closed: int, queued: map<Tx, string>, landed: map<Tx, Landing>)

  const EMPTY_CHAIN: Chain := Chain(0, map[], map[])

  /** The transaction has moved its funds, or still can. */
  predicate Live(c: Chain, tx: Tx) {
    tx in c.queued && if tx in c.landed then c.landed[tx].ok else c.closed < tx.maxTime
  }

  /** Nothing sent for this owner has moved funds, and nothing still can. */
  ghost predicate Quiet(c: Chain, owner: string) {
    forall tx :: tx in c.queued && c.queued[tx] == owner ==> !Live(c, tx)
  }

  ghost predicate LandingOk(validity: nat, closed: int, tx: Tx, l: Landing) {
    tx.maxTime - validity <= l.at <= tx.maxTime && l.at <= closed && 0 <= l.charged <= tx.fee
  }

  ghost predicate ChainOk(validity: nat, c: Chain) {
    && c.landed.Keys <= c.queued.Keys
    && (forall tx :: tx in c.landed ==> LandingOk(validity, c.closed, tx, c.landed[tx]))
  }

  /** A send the network accepts, or may have accepted. */
  function Accept(c: Chain, tx: Tx, owner: string): Chain {
    if tx in c.queued then c else c.(queued := c.queued[tx := owner])
  }

  /** One ledger: it closes later than the last, includes only queued
      transactions that have not landed, within their time bounds, and never
      before they were built; it charges at most what each one bid. */
  ghost predicate CanClose(validity: nat, c: Chain, at: int, landings: map<Tx, Landing>) {
    && c.closed < at
    && landings.Keys <= c.queued.Keys
    && landings.Keys !! c.landed.Keys
    && (forall tx :: tx in landings ==> landings[tx].at == at && LandingOk(validity, at, tx, landings[tx]))
  }

  function Close(c: Chain, at: int, landings: map<Tx, Landing>): Chain {
    c.(closed := at, landed := c.landed + landings)
  }

  lemma AcceptKeeps(validity: nat, c: Chain, tx: Tx, owner: string)
    requires ChainOk(validity, c)
    ensures ChainOk(validity, Accept(c, tx, owner))
    ensures forall other :: other != owner && Quiet(c, other) ==> Quiet(Accept(c, tx, owner), other)
    ensures forall t :: t in c.queued ==>
              t in Accept(c, tx, owner).queued && Accept(c, tx, owner).queued[t] == c.queued[t]
    ensures forall t :: t in c.queued ==> Live(c, t) == Live(Accept(c, tx, owner), t)
  {
  }

  /** A closing ledger revives nothing: what is live afterwards was live before. */
  lemma CloseKeeps(validity: nat, c: Chain, at: int, landings: map<Tx, Landing>)
    requires ChainOk(validity, c) && CanClose(validity, c, at, landings)
    ensures ChainOk(validity, Close(c, at, landings))
    ensures forall tx :: Live(Close(c, at, landings), tx) ==> Live(c, tx)
    ensures forall owner :: Quiet(c, owner) ==> Quiet(Close(c, at, landings), owner)
  {
    var d := Close(c, at, landings);
    forall tx | tx in d.landed ensures LandingOk(validity, d.closed, tx, d.landed[tx]) {
      if tx !in landings { assert LandingOk(validity, c.closed, tx, c.landed[tx]); }
    }
    forall tx | Live(d, tx) ensures Live(c, tx) {
      if tx in landings { assert LandingOk(validity, at, tx, landings[tx]); }
    }
  }

  // ---- What RPC may answer ----

  datatype Code = InsufficientFee | BadSeq | TooEarly | TooLate | InternalError | OtherCode

  /** A transaction result: unreadable, plain, or wrapped in a fee-bump. */
  datatype Result = Unreadable | Direct(code: Code) | InFeeBump(inner: Code)

  datatype TxStatus = FoundOk | FoundFailed(result: Result) | NotFound

  /** getTransaction's reply. oldest and latest are the close times of the
      retained ledger range; 0 means RPC did not report it. */
  datatype Response = Response(status: TxStatus, oldest: int, latest: int)

  /** RPC holds the ledgers closing in [lo, hi] and answers from them. */
  ghost predicate Answers(c: Chain, tx: Tx, resp: Response, lo: int, hi: int) {
    && hi <= c.closed
    && (resp.oldest == 0 || resp.oldest == lo)
    && (resp.latest == 0 || resp.latest == hi)
    && match resp.status
       case FoundOk => tx in c.landed && c.landed[tx].ok
       case FoundFailed(_) => tx in c.landed && !c.landed[tx].ok
       case NotFound => tx in c.landed ==> !(lo <= c.landed[tx].at <= hi)
  }

  ghost predicate Truthful(c: Chain, tx: Tx, resp: Response) {
    exists lo, hi :: Answers(c, tx, resp, lo, hi)
  }
}
