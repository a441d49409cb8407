/** sponsored_transactions and its caps: what Reserve admits, what Finish may
    change, and the bounds that therefore hold whatever the order. */
module SponsorTable {
  import opened Common
  import opened Ledger

  datatype Status = Pending | Success | Failed | Unconfirmed | Rejected {
    predicate Final() { Success? || Failed? || Rejected? }
  }

  datatype Mode = Sponsored | Forward

  datatype Rec = Rec(
    id: string, payload: string, wallet: string, mode: Mode, reserved: nat, charged: Option<nat>,
    status: Status, hash: Option<Tx>, createdAt: int, updatedAt: int)
  {
    predicate InFlight() { status == Pending || status == Unconfirmed }

    /** What the row counts against a cap. */
    function Spend(): nat { if charged.Some? then charged.value else reserved }
  }

  type Table = seq<Rec>

  datatype Limits = Limits(
    maxTx: nat, maxPerWallet: nat, maxPerDay: nat, day: nat,
    maxFailures: nat, window: nat, maxInFlight: nat)
  {
    predicate Positive() { 0 < maxFailures && 0 < maxInFlight }
  }

  // ---- Aggregates ----

  /** The sums and counts taken over the table. `after` is exclusive, `upTo`
      inclusive; the statements themselves have no upper bound. */
  datatype Query =
    | SponsoredCount(wallet: string)
    | SponsoredSpend(wallet: string)
    | SpendSince(after: int)
    | SpendBetween(after: int, upTo: int)
    | InFlightOf(wallet: string)
    | FailuresSince(wallet: string, after: int)
    | FailuresBetween(wallet: string, after: int, upTo: int)
    | ExposureBetween(wallet: string, after: int, upTo: int) // failed or still able to fail

  function Weight(q: Query, r: Rec): nat {
    var sponsored := r.mode == Sponsored && r.status != Rejected;
    var forward := r.mode == Forward;
    match q
    case SponsoredCount(w) => if sponsored && r.wallet == w then 1 else 0
    case SponsoredSpend(w) => if sponsored && r.wallet == w then r.Spend() else 0
    case SpendSince(after) => if sponsored && after < r.createdAt then r.Spend() else 0
    case SpendBetween(after, upTo) => if sponsored && after < r.createdAt <= upTo then r.Spend() else 0
    case InFlightOf(w) => if forward && r.wallet == w && r.InFlight() then 1 else 0
    case FailuresSince(w, after) => if forward && r.wallet == w && r.status == Failed && after < r.createdAt then 1
      else 0
    case FailuresBetween(w, after, upTo) =>
      if forward && r.wallet == w && r.status == Failed && after < r.createdAt <= upTo then 1 else 0
    case ExposureBetween(w, after, upTo) =>
      if forward && r.wallet == w && (r.status == Failed || r.InFlight()) && after < r.createdAt <= upTo then 1 else 0
  }

  function Total(t: Table, q: Query): nat {
    if t == [] then 0 else Total(t[..|t| - 1], q) + Weight(q, t[|t| - 1])
  }

  lemma {:induction false} TotalAppend(t: Table, r: Rec, q: Query)
    ensures Total(t + [r], q) == Total(t, q) + Weight(q, r)
  {
    assert (t + [r])[..|t|] == t;
  }

  lemma {:induction false} TotalUpdate(t: Table, i: nat, r: Rec, q: Query)
    requires i < |t|
    ensures Total(t[i := r], q) == Total(t, q) - Weight(q, t[i]) + Weight(q, r)
  {
    var u := t[i := r];
    if i == |t| - 1 {
      assert u[..|t| - 1] == t[..|t| - 1];
    } else {
      assert u[..|t| - 1] == t[..|t| - 1][i := r];
      TotalUpdate(t[..|t| - 1], i, r, q);
    }
  }

  lemma {:induction false} TotalLe(t: Table, p: Query, q: Query)
    requires forall r :: r in t ==> Weight(p, r) <= Weight(q, r)
    ensures Total(t, p) <= Total(t, q)
  {
    if t != [] {
      assert t[|t| - 1] in t;
      TotalLe(t[..|t| - 1], p, q);
    }
  }

  // ---- What the queries are ----

  ghost function Where(t: Table, p: Rec -> bool): set<int> { set i | 0 <= i < |t| && p(t[i]) }

  /** What the rows count against a cap: what each was charged, once known, and
      what it reserved until then. */
  ghost function Spent(t: Table, p: Rec -> bool): nat {
    if t == [] then 0
    else
      var r := t[|t| - 1];
      Spent(t[..|t| - 1], p) + if !p(r) then 0 else if r.charged.Some? then r.charged.value else r.reserved
  }

  lemma {:induction false} TotalCounts(t: Table, q: Query, p: Rec -> bool)
    requires forall r :: Weight(q, r) == if p(r) then 1 else 0
    ensures Total(t, q) == |Where(t, p)|
  {
    if t != [] {
      var n := |t| - 1;
      TotalCounts(t[..n], q, p);
      WhereLast(t, p);
    }
  }

  lemma WhereLast(t: Table, p: Rec -> bool)
    requires t != []
    ensures var n := |t| - 1; |Where(t, p)| == |Where(t[..n], p)| + if p(t[n]) then 1 else 0
  {
    var n := |t| - 1;
    var less := Where(t[..n], p);
    assert forall i :: 0 <= i < n ==> t[..n][i] == t[i];
    assert forall i :: i in less <==> 0 <= i < n && p(t[i]);
    assert n !in less;
    if p(t[n]) {
      assert Where(t, p) == less + {n};
    } else {
      assert Where(t, p) == less;
    }
  }

  lemma {:induction false} TotalSpends(t: Table, q: Query, p: Rec -> bool)
    requires forall r :: Weight(q, r) == if p(r) then r.Spend() else 0
    ensures Total(t, q) == Spent(t, p)
  {
    if t != [] { TotalSpends(t[..|t| - 1], q, p); }
  }

  /** Each query is the count, or the spend, of the rows its WHERE clause names. A
      rejected request never counts; a forward counts only while it may still fail
      or once it did. */
  lemma QueriesAre(t: Table, w: string, after: int)
    ensures Total(t, SponsoredCount(w))
            == |Where(t, (r: Rec) => r.mode == Sponsored && r.wallet == w && r.status != Rejected)|
    ensures Total(t, InFlightOf(w))
            == |Where(t, (r: Rec) => r.mode == Forward && r.wallet == w && r.status in {Pending, Unconfirmed})|
    ensures Total(t, FailuresSince(w, after))
            == |Where(t, (r: Rec) => r.mode == Forward && r.wallet == w && r.status == Failed && r.createdAt > after)|
    ensures Total(t, SponsoredSpend(w))
            == Spent(t, (r: Rec) => r.mode == Sponsored && r.wallet == w && r.status != Rejected)
    ensures Total(t, SpendSince(after))
            == Spent(t, (r: Rec) => r.mode == Sponsored && r.status != Rejected && r.createdAt > after)
  {
    TotalCounts(t, SponsoredCount(w), (r: Rec) => r.mode == Sponsored && r.wallet == w && r.status != Rejected);
    TotalCounts(t, InFlightOf(w),
      (r: Rec) => r.mode == Forward && r.wallet == w && r.status in {Pending, Unconfirmed});
    TotalCounts(t, FailuresSince(w, after),
      (r: Rec) => r.mode == Forward && r.wallet == w && r.status == Failed && r.createdAt > after);
    TotalSpends(t, SponsoredSpend(w), (r: Rec) => r.mode == Sponsored && r.wallet == w && r.status != Rejected);
    TotalSpends(t, SpendSince(after), (r: Rec) => r.mode == Sponsored && r.status != Rejected && r.createdAt > after);
  }

  /** The same rows within a window that also has an end. */
  lemma WindowsAre(t: Table, w: string, after: int, upTo: int)
    ensures Total(t, SpendBetween(after, upTo))
            == Spent(t, (r: Rec) => r.mode == Sponsored && r.status != Rejected && after < r.createdAt <= upTo)
    ensures Total(t, FailuresBetween(w, after, upTo))
            == |Where(t, (r: Rec) => && r.mode == Forward && r.wallet == w && r.status == Failed
                                     && after < r.createdAt <= upTo)|
  {
    TotalSpends(t, SpendBetween(after, upTo),
      (r: Rec) => r.mode == Sponsored && r.status != Rejected && after < r.createdAt <= upTo);
    TotalCounts(t, FailuresBetween(w, after, upTo),
      (r: Rec) => && r.mode == Forward && r.wallet == w && r.status == Failed
                  && after < r.createdAt <= upTo);
  }

  // ---- Statements ----

  datatype Reservation = Reservation(id: string, payload: string, wallet: string, mode: Mode, maxFee: nat)

  datatype Reply =
    | Created | Existing(prior: Rec) | Conflict
    | WalletCap | DailyBudget | TooManyFailures | TooManyInFlight

  function Find(t: Table, id: string): (i: int)
    ensures -1 <= i < |t|
    ensures i >= 0 ==> t[i].id == id
    ensures i == -1 ==> forall j :: 0 <= j < |t| ==> t[j].id != id
  {
    if t == [] then -1 else if t[|t| - 1].id == id then |t| - 1 else Find(t[..|t| - 1], id)
  }

  function NewRec(res: Reservation, at: int): Rec {
    Rec(res.id, res.payload, res.wallet, res.mode, res.maxFee, None, Pending, None, at, at)
  }

  /** Reserve's verdict. `at` is NOW(), fixed when the transaction began, so
      nothing is assumed about its order across reservations. */
  function Judge(t: Table, res: Reservation, lim: Limits, at: int): Reply {
    var i := Find(t, res.id);
    if i >= 0 then (if t[i].payload == res.payload then Existing(t[i]) else Conflict)
    else if res.mode == Sponsored then
      if Total(t, SponsoredCount(res.wallet)) >= lim.maxTx
         || Total(t, SponsoredSpend(res.wallet)) + res.maxFee > lim.maxPerWallet then WalletCap
      else if Total(t, SpendSince(at - lim.day)) + res.maxFee > lim.maxPerDay then DailyBudget
      else Created
    else
      if Total(t, FailuresSince(res.wallet, at - lim.window)) >= lim.maxFailures then TooManyFailures
      else if Total(t, InFlightOf(res.wallet)) >= lim.maxInFlight then TooManyInFlight
      else Created
  }

  function Reserved(t: Table, res: Reservation, lim: Limits, at: int): Table {
    if Judge(t, res, lim, at) == Created then t + [NewRec(res, at)] else t
  }

  /** The reservation names a request already on record, with this body or another. */
  predicate Known(t: Table, res: Reservation, same: bool) {
    exists i :: 0 <= i < |t| && t[i].id == res.id && (t[i].payload == res.payload) == same
  }

  /** A new sponsored request that its wallet's allowance has no room for. */
  predicate OverWallet(t: Table, res: Reservation, lim: Limits) {
    || Total(t, SponsoredCount(res.wallet)) >= lim.maxTx
    || Total(t, SponsoredSpend(res.wallet)) + res.maxFee > lim.maxPerWallet
  }

  /** Which reply, and what it leaves in the table: a repeat is answered with the
      record on file, the same name for another body is refused, and a new request
      is recorded, pending and uncharged, exactly when every cap has room; a
      refusal names the first cap, in the order they are checked, that has none. */
  ghost predicate Answered(t: Table, res: Reservation, lim: Limits, at: int, reply: Reply, after: Table) {
    var unknown := forall i :: 0 <= i < |t| ==> t[i].id != res.id;
    var sponsored := unknown && res.mode == Sponsored;
    var forwarded := unknown && res.mode == Forward;
    var failing := Total(t, FailuresSince(res.wallet, at - lim.window)) >= lim.maxFailures;
    && (reply.Existing? <==> Known(t, res, true))
    && (reply.Existing? ==> reply.prior in t && reply.prior.id == res.id && reply.prior.payload == res.payload)
    && (reply == Conflict <==> Known(t, res, false))
    && (reply == WalletCap <==> sponsored && OverWallet(t, res, lim))
    && (reply == DailyBudget <==>
          && sponsored && !OverWallet(t, res, lim)
          && Total(t, SpendSince(at - lim.day)) + res.maxFee > lim.maxPerDay)
    && (reply == TooManyFailures <==> forwarded && failing)
    && (reply == TooManyInFlight <==>
          forwarded && !failing && Total(t, InFlightOf(res.wallet)) >= lim.maxInFlight)
    && (reply == Created <==> unknown && Admitted(t, res, lim, at))
    && after == if reply != Created then t
                else t + [Rec(res.id, res.payload, res.wallet, res.mode, res.maxFee, None, Pending, None, at, at)]
  }

  lemma JudgeAnswers(t: Table, res: Reservation, lim: Limits, at: int)
    requires UniqueIds(t)
    ensures Answered(t, res, lim, at, Judge(t, res, lim, at), Reserved(t, res, lim, at))
  {
    var i := Find(t, res.id);
    if i >= 0 {
      forall j | 0 <= j < |t| && t[j].id == res.id ensures j == i { }
      assert Known(t, res, t[i].payload == res.payload);
    }
  }

  datatype Outcome = Outcome(status: Status, hash: Option<Tx>, charged: Option<nat>)

  /** Finish on one row: a final record is never changed again. */
  function Finished(r: Rec, o: Outcome, now: int): Rec {
    if r.status.Final() then r
    else r.(status := o.status, hash := if o.hash.Some? then o.hash else r.hash,
            charged := if o.charged.Some? then o.charged else r.charged, updatedAt := now)
  }

  /** SetHash on one row: only while it is pending. */
  function Hashed(r: Rec, tx: Tx, now: int): Rec {
    if r.status == Pending then r.(hash := Some(tx), updatedAt := now) else r
  }

  // ---- The caps ----

  ghost predicate UniqueIds(t: Table) {
    forall i, j :: 0 <= i < j < |t| ==> t[i].id != t[j].id
  }

  ghost predicate WalletOk(t: Table, lim: Limits, w: string) {
    && Total(t, SponsoredCount(w)) <= lim.maxTx
    && Total(t, SponsoredSpend(w)) <= lim.maxPerWallet
    && Total(t, InFlightOf(w)) <= lim.maxInFlight
  }

  /** Every rolling window, wherever it ends: spend for all wallets, and the
      forwards of one wallet that failed on-chain or still may. */
  ghost predicate WindowOk(t: Table, lim: Limits, w: string, end: int) {
    && Total(t, SpendBetween(end - lim.day, end)) <= lim.maxPerDay
    && Total(t, ExposureBetween(w, end - lim.window, end)) <= lim.maxFailures + lim.maxInFlight - 1
  }

  ghost predicate CapsOk(t: Table, lim: Limits) {
    && UniqueIds(t)
    && (forall w :: WalletOk(t, lim, w))
    && (forall w, end :: WindowOk(t, lim, w, end))
  }

  /** The checks a created reservation passed. */
  ghost predicate Admitted(t: Table, res: Reservation, lim: Limits, at: int) {
    if res.mode == Sponsored then
      && Total(t, SponsoredCount(res.wallet)) < lim.maxTx
      && Total(t, SponsoredSpend(res.wallet)) + res.maxFee <= lim.maxPerWallet
      && Total(t, SpendSince(at - lim.day)) + res.maxFee <= lim.maxPerDay
    else
      && Total(t, FailuresSince(res.wallet, at - lim.window)) < lim.maxFailures
      && Total(t, InFlightOf(res.wallet)) < lim.maxInFlight
  }

  lemma {:induction false} ReserveKeepsCaps(t: Table, res: Reservation, lim: Limits, at: int)
    requires CapsOk(t, lim) && lim.Positive()
    ensures CapsOk(Reserved(t, res, lim, at), lim)
  {
    if Judge(t, res, lim, at) == Created {
      assert Admitted(t, res, lim, at);
      AddedKeepsCaps(t, res, lim, at);
    }
  }

  lemma {:induction false} AddedKeepsCaps(t: Table, res: Reservation, lim: Limits, at: int)
    requires CapsOk(t, lim) && lim.Positive() && Admitted(t, res, lim, at) && Find(t, res.id) == -1
    ensures CapsOk(t + [NewRec(res, at)], lim)
  {
    forall w ensures WalletOk(t + [NewRec(res, at)], lim, w) { NewRecFitsWallet(t, res, lim, at, w); }
    forall w, end ensures WindowOk(t + [NewRec(res, at)], lim, w, end) { NewRecFitsWindow(t, res, lim, at, w, end); }
  }

  lemma {:induction false} NewRecFitsWallet(t: Table, res: Reservation, lim: Limits, at: int, w: string)
    requires WalletOk(t, lim, w) && Admitted(t, res, lim, at)
    ensures WalletOk(t + [NewRec(res, at)], lim, w)
  {
    var r := NewRec(res, at);
    TotalAppend(t, r, SponsoredCount(w));
    TotalAppend(t, r, SponsoredSpend(w));
    TotalAppend(t, r, InFlightOf(w));
  }

  /** Any window containing the new row lies within what its check looked at. */
  lemma {:induction false} NewRecFitsWindow(t: Table, res: Reservation, lim: Limits, at: int, w: string, end: int)
    requires CapsOk(t, lim) && lim.Positive() && Admitted(t, res, lim, at)
    ensures WindowOk(t + [NewRec(res, at)], lim, w, end)
  {
    var r := NewRec(res, at);
    assert WindowOk(t, lim, w, end) && WalletOk(t, lim, w);
    NewSpendFits(t, res, lim, at, end);
    TotalAppend(t, r, ExposureBetween(w, end - lim.window, end));
    if at <= end {
      ExposureSplits(t, w, end - lim.window, end, at - lim.window);
    }
  }

  lemma {:induction false} NewSpendFits(t: Table, res: Reservation, lim: Limits, at: int, end: int)
    requires Total(t, SpendBetween(end - lim.day, end)) <= lim.maxPerDay && Admitted(t, res, lim, at)
    ensures Total(t + [NewRec(res, at)], SpendBetween(end - lim.day, end)) <= lim.maxPerDay
  {
    TotalAppend(t, NewRec(res, at), SpendBetween(end - lim.day, end));
    if at <= end { SpendWithinCheck(t, end - lim.day, end, at - lim.day); }
  }

  lemma {:induction false} SpendWithinCheck(t: Table, after: int, upTo: int, since: int)
    requires since <= after
    ensures Total(t, SpendBetween(after, upTo)) <= Total(t, SpendSince(since))
  {
    TotalLe(t, SpendBetween(after, upTo), SpendSince(since));
  }

  lemma {:induction false} ExposureSplits(t: Table, w: string, after: int, upTo: int, since: int)
    requires since <= after
    ensures Total(t, ExposureBetween(w, after, upTo)) <= Total(t, FailuresSince(w, since)) + Total(t, InFlightOf(w))
  {
    if t != [] {
      ExposureSplits(t[..|t| - 1], w, after, upTo, since);
    }
  }

  /** A settlement within its reservation frees room, never takes it. */
  predicate Lighter(r: Rec, r': Rec) {
    && r'.id == r.id && r'.wallet == r.wallet && r'.mode == r.mode && r'.createdAt == r.createdAt
    && (r.status == Rejected ==> r'.status == Rejected) && r'.Spend() <= r.Spend()
    && (r'.InFlight() ==> r.InFlight())
    && (r'.status == Failed ==> r.status == Failed || r.InFlight())
  }

  lemma {:induction false} UpdateKeepsCaps(t: Table, lim: Limits, i: nat, r: Rec)
    requires CapsOk(t, lim) && i < |t| && Lighter(t[i], r)
    ensures CapsOk(t[i := r], lim)
  {
    var u := t[i := r];
    forall w ensures WalletOk(u, lim, w) {
      assert WalletOk(t, lim, w);
      TotalUpdate(t, i, r, SponsoredCount(w));
      TotalUpdate(t, i, r, SponsoredSpend(w));
      TotalUpdate(t, i, r, InFlightOf(w));
    }
    forall w, end ensures WindowOk(u, lim, w, end) {
      assert WindowOk(t, lim, w, end);
      TotalUpdate(t, i, r, SpendBetween(end - lim.day, end));
      TotalUpdate(t, i, r, ExposureBetween(w, end - lim.window, end));
    }
  }

  /** The documented bounds, read off the caps: per wallet, per rolling day, and
      at most MaxForwardFailures + MaxForwardInFlight - 1 failed forwards of one
      wallet in any rolling window. */
  lemma {:induction false} CapsBound(t: Table, lim: Limits, w: string, end: int)
    requires CapsOk(t, lim)
    ensures Total(t, SponsoredCount(w)) <= lim.maxTx
    ensures Total(t, SponsoredSpend(w)) <= lim.maxPerWallet
    ensures Total(t, SpendBetween(end - lim.day, end)) <= lim.maxPerDay
    ensures Total(t, InFlightOf(w)) <= lim.maxInFlight
    ensures Total(t, FailuresBetween(w, end - lim.window, end)) <= lim.maxFailures + lim.maxInFlight - 1
  {
    assert WalletOk(t, lim, w) && WindowOk(t, lim, w, end);
    TotalLe(t, FailuresBetween(w, end - lim.window, end), ExposureBetween(w, end - lim.window, end));
  }

  // ---- The store ----

  class SponsorStore {
    var records: Table

    ghost predicate Valid(lim: Limits) reads this { CapsOk(records, lim) }

    constructor (lim: Limits)
      requires lim.Positive()
      ensures Valid(lim) && records == []
    {
      records := [];
    }

    /** One of the SUM / COUNT queries. */
    method Aggregate(q: Query) returns (n: nat)
      ensures n == Total(records, q)
    {
      n := 0;
      for i := 0 to |records|
        invariant n == Total(records[..i], q)
      {
        assert records[..i + 1][..i] == records[..i];
        n := n + Weight(q, records[i]);
      }
      assert records[..|records|] == records;
    }

    /** Under the advisory lock: the checks and the insert are one step. */
    method Reserve(res: Reservation, lim: Limits, at: int) returns (reply: Reply)
      requires Valid(lim) && lim.Positive()
      modifies this
      ensures Valid(lim)
      ensures Answered(old(records), res, lim, at, reply, records)
      ensures reply == Judge(old(records), res, lim, at) && records == Reserved(old(records), res, lim, at)
    {
      ReserveKeepsCaps(records, res, lim, at);
      JudgeAnswers(records, res, lim, at);
      var i := Find(records, res.id);
      if i >= 0 {
        reply := if records[i].payload == res.payload then Existing(records[i]) else Conflict;
        return;
      }
      if res.mode == Sponsored {
        var count := Aggregate(SponsoredCount(res.wallet));
        var spend := Aggregate(SponsoredSpend(res.wallet));
        if count >= lim.maxTx || spend + res.maxFee > lim.maxPerWallet {
          return WalletCap;
        }
        var today := Aggregate(SpendSince(at - lim.day));
        if today + res.maxFee > lim.maxPerDay {
          return DailyBudget;
        }
      } else {
        var failures := Aggregate(FailuresSince(res.wallet, at - lim.window));
        if failures >= lim.maxFailures {
          return TooManyFailures;
        }
        var inFlight := Aggregate(InFlightOf(res.wallet));
        if inFlight >= lim.maxInFlight {
          return TooManyInFlight;
        }
      }
      records := records + [NewRec(res, at)];
      reply := Created;
    }

    /** Finish; false when there is no such request. */
    method Finish(id: string, o: Outcome, now: int, ghost lim: Limits) returns (found: bool)
      requires Valid(lim)
      modifies this
      ensures found <==> exists i :: 0 <= i < |old(records)| && old(records)[i].id == id
      ensures |records| == |old(records)|
      ensures forall i :: 0 <= i < |records| ==>
                var r, q := old(records)[i], records[i];
                if r.id != id || r.status.Final() then q == r
                else
                  && q == r.(status := q.status, hash := q.hash, charged := q.charged, updatedAt := now)
                  && q.status == o.status
                  && q.hash == (if o.hash.None? then r.hash else o.hash)
                  && q.charged == (if o.charged.None? then r.charged else o.charged)
      ensures (forall i :: 0 <= i < |records| ==> Lighter(old(records)[i], records[i])) ==> Valid(lim)
    {
      ghost var was := records;
      var i := Find(records, id);
      found := i >= 0;
      if found {
        var r := Finished(records[i], o, now);
        if Lighter(records[i], r) {
          UpdateKeepsCaps(records, lim, i, r);
        }
        records := records[i := r];
        assert records[i] == r && was[i].id == id;
      }
    }

    /** SetHash: nothing changes unless the record is still pending. */
    method SetHash(id: string, tx: Tx, now: int, ghost lim: Limits)
      requires Valid(lim)
      modifies this
      ensures Valid(lim)
      ensures |records| == |old(records)|
      ensures forall i :: 0 <= i < |records| ==>
                var r, q := old(records)[i], records[i];
                q == if r.id == id && r.status == Pending then r.(hash := Some(tx), updatedAt := now) else r
    {
      var i := Find(records, id);
      if i >= 0 {
        UpdateKeepsCaps(records, lim, i, Hashed(records[i], tx, now));
        records := records[i := Hashed(records[i], tx, now)];
      }
    }
  }
}
