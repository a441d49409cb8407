/** The watcher of one pool: every payment is recorded before the cursor is
    saved past it, whatever fails in between. */
module Watcher {
  import opened Common
  import opened DepositKeys

  /** What one record of the pool's payments feed is to this watcher. */
  datatype What = Into(payment: Payment) | NoTransaction | Elsewhere

  datatype Op = Op(token: nat, what: What)

  const PAGE_SIZE: nat := 200

  /** How a payment is keyed; DepositKeys.Payment.Key in the deployed watcher. */
  type Keying = Payment -> string

  /** The feed is ordered by paging token, and no two payments share a key. */
  ghost predicate FeedOk(feed: seq<Op>, keyOf: Keying) {
    && (forall i :: 0 <= i < |feed| ==> 0 < feed[i].token)
    && (forall i, j :: 0 <= i < j < |feed| ==> feed[i].token < feed[j].token)
    && (forall i, j :: 0 <= i < j < |feed| && feed[i].what.Into? && feed[j].what.Into? ==>
          keyOf(feed[i].what.payment) != keyOf(feed[j].what.payment))
  }

  /** Horizon's feed of distinct, well-formed payment operations, under the
      deposit keys, is such a feed. */
  lemma HorizonFeedOk(feed: seq<Op>)
    requires forall i :: 0 <= i < |feed| ==> 0 < feed[i].token && (feed[i].what.Into? ==> Sound(feed[i].what.payment))
    requires forall i, j :: 0 <= i < j < |feed| ==> feed[i].token < feed[j].token
    requires forall i, j :: 0 <= i < j < |feed| && feed[i].what.Into? && feed[j].what.Into? ==>
               SameTransaction(feed[i].what.payment, feed[j].what.payment)
                 && feed[i].what.payment != feed[j].what.payment
    ensures FeedOk(feed, KEY_OF)
  {
    forall i, j | 0 <= i < j < |feed| && feed[i].what.Into? && feed[j].what.Into?
      ensures KEY_OF(feed[i].what.payment) != KEY_OF(feed[j].what.payment)
    {
      if feed[i].what.payment.Key() == feed[j].what.payment.Key() {
        KeysAreInjective(feed[i].what.payment, feed[j].what.payment);
      }
    }
  }

  /** latestCursor: "0" for a pool that never had a payment. */
  function Latest(feed: seq<Op>): nat { if feed == [] then 0 else feed[|feed| - 1].token }

  /** Where a page starting after `cursor` begins. */
  function StartOf(feed: seq<Op>, cursor: nat): (n: nat)
    ensures n <= |feed| && (forall i :: 0 <= i < n ==> feed[i].token <= cursor)
            && (n < |feed| ==> cursor < feed[n].token)
  {
    StartFrom(feed, cursor, 0)
  }

  function StartFrom(feed: seq<Op>, cursor: nat, n: nat): (m: nat)
    requires n <= |feed| && forall i :: 0 <= i < n ==> feed[i].token <= cursor
    ensures n <= m <= |feed| && (forall i :: 0 <= i < m ==> feed[i].token <= cursor)
            && (m < |feed| ==> cursor < feed[m].token)
    decreases |feed| - n
  {
    if n < |feed| && feed[n].token <= cursor then StartFrom(feed, cursor, n + 1) else n
  }

  /** The forwards table, as far as the watcher writes it. */
  type Rows = map<string, Payment>

  predicate Recorded(rows: Rows, p: Payment, keyOf: Keying) { keyOf(p) in rows && rows[keyOf(p)] == p }

  /** Every payment with a token in (lo, hi] has a row of its own. */
  ghost predicate AllRecorded(feed: seq<Op>, rows: Rows, lo: nat, hi: nat, keyOf: Keying) {
    forall i :: 0 <= i < |feed| && feed[i].what.Into? && lo < feed[i].token <= hi ==>
      Recorded(rows, feed[i].what.payment, keyOf)
  }

  /** Rows come from the feed, under their own keys. */
  ghost predicate RowsOk(feed: seq<Op>, rows: Rows, keyOf: Keying) {
    forall k {:trigger FromFeed(feed, rows, k, keyOf)} :: k in rows ==> FromFeed(feed, rows, k, keyOf)
  }

  ghost predicate FromFeed(feed: seq<Op>, rows: Rows, k: string, keyOf: Keying)
    requires k in rows
  {
    exists i :: 0 <= i < |feed| && feed[i].what == Into(rows[k]) && keyOf(rows[k]) == k
  }

  /** What goes wrong around one record: the insert, the hand-off to a worker, the
      cursor save, and a stop (cancelled intake or a crash) right after it. */
  datatype Trouble = Trouble(insert: Fate, queued: bool, save: Fate, stop: bool)

  /** A payment already recorded under its key is the same payment. */
  lemma KeyTaken(feed: seq<Op>, rows: Rows, i: nat, keyOf: Keying)
    requires FeedOk(feed, keyOf) && RowsOk(feed, rows, keyOf) && i < |feed| && feed[i].what.Into?
             && keyOf(feed[i].what.payment) in rows
    ensures Recorded(rows, feed[i].what.payment, keyOf)
  {
    var k := keyOf(feed[i].what.payment);
    assert FromFeed(feed, rows, k, keyOf);
    var j :| 0 <= j < |feed| && feed[j].what == Into(rows[k]) && keyOf(rows[k]) == k;
    assert j == i;
  }

  lemma RowAdded(feed: seq<Op>, rows: Rows, i: nat, keyOf: Keying)
    requires RowsOk(feed, rows, keyOf) && i < |feed| && feed[i].what.Into?
    ensures RowsOk(feed, rows[keyOf(feed[i].what.payment) := feed[i].what.payment], keyOf)
  {
    var p := feed[i].what.payment;
    var more := rows[keyOf(p) := p];
    forall k | k in more ensures FromFeed(feed, more, k, keyOf) {
      if k == keyOf(p) {
        assert feed[i].what == Into(more[k]);
      } else {
        assert FromFeed(feed, rows, k, keyOf);
        var j :| 0 <= j < |feed| && feed[j].what == Into(rows[k]) && keyOf(rows[k]) == k;
        assert feed[j].what == Into(more[k]);
      }
    }
  }

  /** New records have later tokens, so nothing recorded so far is disturbed. */
  lemma FeedGrows(was: seq<Op>, feed: seq<Op>, rows: Rows, lo: nat, hi: nat, keyOf: Keying)
    requires FeedOk(was, keyOf) && FeedOk(feed, keyOf) && was <= feed && hi <= Latest(was)
    ensures Latest(was) <= Latest(feed)
    ensures AllRecorded(was, rows, lo, hi, keyOf) ==> AllRecorded(feed, rows, lo, hi, keyOf)
    ensures RowsOk(was, rows, keyOf) ==> RowsOk(feed, rows, keyOf)
  {
    if was != [] {
      assert forall i :: |was| <= i < |feed| ==> feed[|was| - 1].token < feed[i].token;
    }
    if RowsOk(was, rows, keyOf) {
      forall k | k in rows ensures FromFeed(feed, rows, k, keyOf) {
        assert FromFeed(was, rows, k, keyOf);
        var i :| 0 <= i < |was| && was[i].what == Into(rows[k]) && keyOf(rows[k]) == k;
        assert feed[i] == was[i];
      }
    }
  }

  /** Handling the next record extends the recorded range to it. */
  lemma NextRecorded(feed: seq<Op>, before: Rows, rows: Rows, lo: nat, cursor: nat, n: nat, keyOf: Keying)
    requires FeedOk(feed, keyOf) && n < |feed| && (forall j :: 0 <= j < n ==> feed[j].token <= cursor)
             && cursor < feed[n].token
    requires AllRecorded(feed, before, lo, cursor, keyOf)
    requires forall k :: k in before ==> k in rows && rows[k] == before[k]
    requires feed[n].what.Into? ==> Recorded(rows, feed[n].what.payment, keyOf)
    ensures AllRecorded(feed, rows, lo, feed[n].token, keyOf)
  {
    forall i | 0 <= i < |feed| && feed[i].what.Into? && lo < feed[i].token <= feed[n].token
      ensures Recorded(rows, feed[i].what.payment, keyOf)
    {
      if i < n { assert Recorded(before, feed[i].what.payment, keyOf); }
    }
  }

  lemma KeepRecorded(feed: seq<Op>, before: Rows, rows: Rows, lo: nat, hi: nat, keyOf: Keying)
    requires AllRecorded(feed, before, lo, hi, keyOf)
    requires forall k :: k in before ==> k in rows && rows[k] == before[k]
    ensures AllRecorded(feed, rows, lo, hi, keyOf)
  {
    forall i | 0 <= i < |feed| && feed[i].what.Into? && lo < feed[i].token <= hi
      ensures Recorded(rows, feed[i].what.payment, keyOf)
    {
      assert Recorded(before, feed[i].what.payment, keyOf);
    }
  }

  lemma JoinRecorded(feed: seq<Op>, rows: Rows, lo: nat, mid: nat, start: nat, hi: nat, keyOf: Keying)
    requires AllRecorded(feed, rows, lo, mid, keyOf) && AllRecorded(feed, rows, start, hi, keyOf) && start <= mid
    ensures AllRecorded(feed, rows, lo, hi, keyOf)
  {
  }

  // ---- Lives of a watcher ----

  /** The table after one record is handled. */
  function Inserted(rows: Rows, op: Op, t: Trouble, keyOf: Keying): Rows {
    if op.what.Into? && t.insert.Applied() && keyOf(op.what.payment) !in rows
    then rows[keyOf(op.what.payment) := op.what.payment] else rows
  }

  /** handle returned no error. */
  predicate Handled(op: Op, t: Trouble) { !op.what.Into? || t.insert == Kept }

  /** The saved cursor after one record is handled. */
  function Saved(rows: Rows, saved: Option<nat>, op: Op, t: Trouble, keyOf: Keying): Option<nat> {
    var queued := !op.what.Into? || keyOf(op.what.payment) in rows || t.queued;
    if Handled(op, t) && queued && t.save.Applied() then Some(op.token) else saved
  }

  predicate GoesOn(op: Op, t: Trouble) { Handled(op, t) && t.queued && !t.stop }

  /** Where the next poll starts reading. */
  function StartsAfter(feed: seq<Op>, saved: Option<nat>): nat {
    if saved.Some? then saved.value else Latest(feed)
  }

  /** A pool's feed, its rows and saved cursor, and where a poll under way is. */
  datatype Life = Life(feed: seq<Op>, rows: Rows, saved: Option<nat>, at: Option<nat>) {
    /** What a poll, this one or the next, has still to read lies past here. */
    function Position(): nat { if at.Some? then at.value else StartsAfter(feed, saved) }
  }

  datatype Event =
    | Begin             // a poll reads the saved cursor
    | Read(t: Trouble)  // the next record, and what goes wrong around it
    | Stop              // an error, a cancelled intake or a crash
    | Grow(more: seq<Op>)

  ghost function Apply(w: Life, e: Event, keyOf: Keying): Option<Life> {
    match e
    case Begin => if w.at.Some? then None else Some(w.(at := Some(StartsAfter(w.feed, w.saved))))
    case Read(t) =>
      if w.at.None? || StartOf(w.feed, w.at.value) == |w.feed| then None
      else
        var op := w.feed[StartOf(w.feed, w.at.value)];
        Some(w.(rows := Inserted(w.rows, op, t, keyOf), saved := Saved(w.rows, w.saved, op, t, keyOf),
                at := if GoesOn(op, t) then Some(op.token) else None))
    case Stop => Some(w.(at := None))
    case Grow(more) => if FeedOk(w.feed + more, keyOf) then Some(w.(feed := w.feed + more)) else None
  }

  ghost function Run(w: Life, events: seq<Event>, keyOf: Keying): Option<Life> {
    if events == [] then Some(w)
    else
      var u := Run(w, events[..|events| - 1], keyOf);
      if u.None? then None else Apply(u.value, events[|events| - 1], keyOf)
  }

  lemma RunAppend(w: Life, events: seq<Event>, e: Event, keyOf: Keying)
    requires Run(w, events, keyOf).Some?
    ensures Run(w, events + [e], keyOf) == Apply(Run(w, events, keyOf).value, e, keyOf)
  {
    assert (events + [e])[..|events|] == events;
  }

  /** From a saved cursor on: everything since `since` is recorded up to the saved
      cursor, and up to where a poll under way is. */
  ghost predicate Secured(w: Life, since: nat, keyOf: Keying) {
    && FeedOk(w.feed, keyOf) && RowsOk(w.feed, w.rows, keyOf)
    && w.saved.Some? && since <= w.saved.value <= w.Position() <= Latest(w.feed)
    && AllRecorded(w.feed, w.rows, since, w.Position(), keyOf)
  }

  /** Handling a record inserts at most its own payment. */
  lemma InsertKeeps(w: Life, n: nat, t: Trouble, keyOf: Keying)
    requires FeedOk(w.feed, keyOf) && RowsOk(w.feed, w.rows, keyOf) && n < |w.feed|
    ensures var rows := Inserted(w.rows, w.feed[n], t, keyOf);
            && RowsOk(w.feed, rows, keyOf) && (forall k :: k in w.rows ==> k in rows && rows[k] == w.rows[k])
            && (Handled(w.feed[n], t) && w.feed[n].what.Into? ==> Recorded(rows, w.feed[n].what.payment, keyOf))
  {
    var op := w.feed[n];
    if op.what.Into? {
      if keyOf(op.what.payment) in w.rows {
        KeyTaken(w.feed, w.rows, n, keyOf);
      } else {
        RowAdded(w.feed, w.rows, n, keyOf);
      }
    }
  }

  lemma ReadKeeps(w: Life, since: nat, t: Trouble, keyOf: Keying)
    requires Secured(w, since, keyOf) && Apply(w, Read(t), keyOf).Some?
    ensures Secured(Apply(w, Read(t), keyOf).value, since, keyOf)
  {
    var v := Apply(w, Read(t), keyOf).value;
    var n := StartOf(w.feed, w.at.value);
    InsertKeeps(w, n, t, keyOf);
    assert w.feed[n].token <= Latest(w.feed);
    KeepRecorded(w.feed, w.rows, v.rows, since, w.at.value, keyOf);
    if Handled(w.feed[n], t) { NextRecorded(w.feed, w.rows, v.rows, since, w.at.value, n, keyOf); }
    var reached := if Handled(w.feed[n], t) then w.feed[n].token else w.at.value;
    LessRecorded(w.feed, v.rows, since, v.Position(), reached, keyOf);
  }

  lemma LessRecorded(feed: seq<Op>, rows: Rows, lo: nat, hi: nat, more: nat, keyOf: Keying)
    requires AllRecorded(feed, rows, lo, more, keyOf) && hi <= more
    ensures AllRecorded(feed, rows, lo, hi, keyOf)
  {
  }

  lemma EventKeeps(w: Life, since: nat, e: Event, keyOf: Keying)
    requires Secured(w, since, keyOf) && Apply(w, e, keyOf).Some?
    ensures Secured(Apply(w, e, keyOf).value, since, keyOf)
  {
    match e
    case Begin =>
    case Read(t) => ReadKeeps(w, since, t, keyOf);
    case Stop => LessRecorded(w.feed, w.rows, since, w.saved.value, w.Position(), keyOf);
    case Grow(more) => FeedGrows(w.feed, w.feed + more, w.rows, since, w.Position(), keyOf);
  }

  lemma {:induction false} RunKeeps(w: Life, since: nat, events: seq<Event>, keyOf: Keying)
    requires Secured(w, since, keyOf) && Run(w, events, keyOf).Some?
    ensures Secured(Run(w, events, keyOf).value, since, keyOf)
    decreases |events|
  {
    if events != [] {
      RunKeeps(w, since, events[..|events| - 1], keyOf);
      EventKeeps(Run(w, events[..|events| - 1], keyOf).value, since, events[|events| - 1], keyOf);
    }
  }

  /** Each payment after `since` is recorded or still ahead of the poll. */
  ghost predicate SkipsNothing(w: Life, since: nat, keyOf: Keying) {
    forall i :: 0 <= i < |w.feed| && w.feed[i].what.Into? && since < w.feed[i].token ==>
      Recorded(w.rows, w.feed[i].what.payment, keyOf) || w.Position() < w.feed[i].token
  }

  /** Between polls, with nothing left to read twice: the table's rows are the
      feed's, and a saved cursor is one of its tokens. */
  ghost predicate Idle(w: Life, keyOf: Keying) {
    && FeedOk(w.feed, keyOf) && RowsOk(w.feed, w.rows, keyOf)
    && w.at == None && (w.saved.Some? ==> w.saved.value <= Latest(w.feed))
  }

  /** The poll that comes next starts at Position; from there on, over every run
      of failures, stops and restarts, no payment is ever passed unrecorded if and
      only if a cursor has been saved. */
  lemma RestartSkipsNothingIff(w: Life, p: Payment, keyOf: Keying)
    requires Idle(w, keyOf) && FeedOk(w.feed + [Op(Latest(w.feed) + 1, Into(p))], keyOf)
    ensures (forall events :: Run(w, events, keyOf).Some? ==>
            SkipsNothing(Run(w, events, keyOf).value, w.Position(), keyOf))
       <==> w.saved.Some?
  {
    if w.saved.Some? {
      forall events | Run(w, events, keyOf).Some?
        ensures SkipsNothing(Run(w, events, keyOf).value, w.Position(), keyOf)
      {
        RunKeeps(w, w.Position(), events, keyOf);
      }
    } else {
      var events := PassedUnrecorded(w, p, keyOf);
    }
  }

  /** Without one: the payment arrives, its insert fails, and the next poll
      starts past it. */
  lemma PassedUnrecorded(w: Life, p: Payment, keyOf: Keying) returns (events: seq<Event>)
    requires Idle(w, keyOf) && w.saved.None? && FeedOk(w.feed + [Op(Latest(w.feed) + 1, Into(p))], keyOf)
    ensures Run(w, events, keyOf).Some? && !SkipsNothing(Run(w, events, keyOf).value, w.Position(), keyOf)
  {
    var op := Op(Latest(w.feed) + 1, Into(p));
    var failed := Trouble(Lost, false, Lost, true);
    NewKey(w.feed, w.rows, op, keyOf);
    RunAppend(w, [], Begin, keyOf);
    RunAppend(w, [] + [Begin], Grow([op]), keyOf);
    var v := Apply(w, Begin, keyOf).value.(feed := w.feed + [op]);
    assert StartOf(v.feed, v.at.value) == |w.feed| by { assert v.feed[|w.feed|] == op; AllPast(w.feed); }
    events := [] + [Begin] + [Grow([op])] + [Read(failed)];
    RunAppend(w, [] + [Begin] + [Grow([op])], Read(failed), keyOf);
    var u := Run(w, events, keyOf).value;
    assert u.feed[|w.feed|] == op && u.Position() == op.token && !Recorded(u.rows, p, keyOf);
  }

  lemma AllPast(feed: seq<Op>)
    requires forall i, j :: 0 <= i < j < |feed| ==> feed[i].token < feed[j].token
    ensures forall i :: 0 <= i < |feed| ==> feed[i].token <= Latest(feed)
  {
  }

  lemma NewKey(feed: seq<Op>, rows: Rows, op: Op, keyOf: Keying)
    requires RowsOk(feed, rows, keyOf) && FeedOk(feed + [op], keyOf) && op.what.Into?
    ensures keyOf(op.what.payment) !in rows
  {
    var more := feed + [op];
    assert more[|feed|] == op && forall i :: 0 <= i < |feed| ==> more[i] == feed[i];
    var k := keyOf(op.what.payment);
    assert forall i :: 0 <= i < |feed| && feed[i].what.Into? ==> keyOf(more[i].what.payment) != k;
    assert k in rows ==> FromFeed(feed, rows, k, keyOf);
  }

  /** Where a page starting after `cursor` ends. */
  function PageEnd(feed: seq<Op>, cursor: nat): (n: nat)
    ensures StartOf(feed, cursor) <= n <= |feed|
  {
    var i := StartOf(feed, cursor);
    if |feed| - i > PAGE_SIZE then i + PAGE_SIZE else |feed|
  }

  /** Nothing goes wrong around the record. */
  predicate Smooth(t: Trouble) { t.insert == Kept && t.queued && t.save == Kept && !t.stop }

  /** Reading has got at least `n` records past `from`, or to the end of `view`. */
  predicate GotPast(view: seq<Op>, cursor: nat, from: nat, n: nat) {
    forall i :: from <= i < |view| && i < from + n ==> view[i].token <= cursor
  }

  lemma PageGetsPast(view: seq<Op>, feed: seq<Op>, before: nat, cursor: nat, from: nat, n: nat)
    requires view <= feed && (forall i, j :: 0 <= i < j < |feed| ==> feed[i].token < feed[j].token)
    requires before <= cursor && GotPast(view, before, from, n) && StartOf(feed, cursor) == PageEnd(feed, before)
    requires from <= StartOf(feed, before)
    ensures GotPast(view, cursor, from, n + PAGE_SIZE)
  {
    var start := StartOf(feed, before);
    assert start < |view| ==> view[start] == feed[start];
    forall i | from <= i < |view| && i < from + n + PAGE_SIZE ensures view[i].token <= cursor {
      assert view[i] == feed[i];
    }
  }

  lemma StartStays(view: seq<Op>, feed: seq<Op>, start: nat, cursor: nat)
    requires view <= feed && start <= cursor
    ensures StartOf(view, start) <= StartOf(feed, cursor)
  {
    var n := StartOf(feed, cursor);
    assert n < |view| ==> view[n] == feed[n];
  }

  lemma AllRead(view: seq<Op>, feed: seq<Op>, rows: Rows, start: nat, cursor: nat, n: nat, keyOf: Keying)
    requires FeedOk(feed, keyOf) && view <= feed && AllRecorded(feed, rows, start, cursor, keyOf)
    requires GotPast(view, cursor, StartOf(view, start), n)
    ensures forall i :: StartOf(view, start) <= i < |view| && i < StartOf(view, start) + n ==>
              && (view[i].what.Into? ==> Recorded(rows, view[i].what.payment, keyOf))
              && start < view[i].token <= cursor
  {
    var from := StartOf(view, start);
    forall i | from <= i < |view| && i < from + n
      ensures view[i].what.Into? ==> Recorded(rows, view[i].what.payment, keyOf)
      ensures start < view[i].token <= cursor
    {
      assert view[i] == feed[i] && view[from] == feed[from];
    }
  }

  class PoolWatcher {
    const keyOf: Keying
    var feed: seq<Op>
    var rows: Rows
    var saved: Option<nat>
    ghost var first: Option<nat>
    ghost const born: Life
    ghost var at: Option<nat>
    ghost var events: seq<Event>

    ghost function Now(): Life reads this { Life(feed, rows, saved, at) }

    /** What was done so far is a run of the machine. */
    ghost predicate OnCourse() reads this { Run(born, events, keyOf) == Some(Now()) }

    ghost predicate Consistent() reads this {
      && FeedOk(feed, keyOf) && RowsOk(feed, rows, keyOf)
      && (first.Some? <==> saved.Some?) && (saved.Some? ==> first.value <= saved.value <= Latest(feed))
    }

    /** No deposit is lost: each payment between the first cursor ever saved and
        the current one has its own row. */
    ghost predicate Valid() reads this {
      Consistent() && (saved.Some? ==> AllRecorded(feed, rows, first.value, saved.value, keyOf))
    }

    constructor (feed: seq<Op>, keyOf: Keying)
      requires FeedOk(feed, keyOf)
      ensures Valid() && OnCourse() && this.feed == feed && this.keyOf == keyOf && rows == map[] && saved == None
              && at == None
    {
      this.feed, this.keyOf, rows, saved, first := feed, keyOf, map[], None, None;
      born, at, events := Life(feed, map[], None, None), None, [];
    }

    /** Note an event that has just been carried out. */
    ghost method Note(e: Event, was: Life)
      requires Run(born, events, keyOf) == Some(was) && Apply(was, e, keyOf).Some?
      requires Apply(was, e, keyOf).value.(at := None) == Now().(at := None)
      modifies this`events, this`at
      ensures OnCourse() && at == Apply(was, e, keyOf).value.at && events == old(events) + [e]
    {
      RunAppend(born, events, e, keyOf);
      events := events + [e];
      at := Apply(was, e, keyOf).value.at;
    }

    /** saveCursor. It never moves the cursor back, and never the first one saved;
        a failed write is not an error. */
    method SaveCursor(token: nat, fate: Fate)
      requires Consistent() && token <= Latest(feed) && (saved.Some? ==> saved.value <= token)
      modifies this`saved, this`first
      ensures Consistent() && saved == if fate.Applied() then Some(token) else old(saved)
      ensures old(saved).Some? ==> saved.Some? && old(saved).value <= saved.value && first == old(first)
      ensures old(saved).None? ==> first == saved
    {
      if fate.Applied() {
        saved := Some(token);
        if first.None? {
          first := Some(token);
        }
      }
    }

    /** handle: false is an error, and then the cursor was not saved. */
    method Handle(n: nat, t: Trouble) returns (ok: bool)
      requires Consistent() && n < |feed| && (saved.Some? ==> saved.value <= feed[n].token)
      modifies this`rows, this`saved, this`first
      ensures Consistent() && rows == Inserted(old(rows), feed[n], t, keyOf)
      ensures saved == Saved(old(rows), old(saved), feed[n], t, keyOf)
      ensures ok <==> Handled(feed[n], t)
      ensures ok && feed[n].what.Into? ==> Recorded(rows, feed[n].what.payment, keyOf)
      ensures !ok ==> saved == old(saved)
      ensures ok ==>
                var settled := !feed[n].what.Into? || keyOf(feed[n].what.payment) in old(rows) || t.queued;
                saved == if settled && t.save.Applied() then Some(feed[n].token) else old(saved)
      ensures first == if old(first).None? then saved else old(first)
    {
      assert feed[n].token <= Latest(feed);
      var op := feed[n];
      if !op.what.Into? {
        SaveCursor(op.token, t.save);
        return true;
      }
      var key := keyOf(op.what.payment);
      var known := key in rows;
      if known {
        KeyTaken(feed, rows, n, keyOf);
      }
      if t.insert.Applied() && !known {
        RowAdded(feed, rows, n, keyOf);
        rows := rows[key := op.what.payment];
      }
      if t.insert != Kept {
        return false;
      }
      if known || t.queued {
        SaveCursor(op.token, t.save);
      }
      ok := true;
    }

    /** A poll under way: everything since its start is recorded up to `cursor`. */
    ghost predicate Polled(start: nat, cursor: nat) reads this {
      && Valid() && start <= cursor <= Latest(feed) && AllRecorded(feed, rows, start, cursor, keyOf)
      && (saved.Some? ==> start <= saved.value <= cursor)
    }

    /** One record, as far as the table and the cursor go. */
    method Advance(n: nat, t: Trouble, ghost start: nat, ghost cursor: nat) returns (go: bool)
      requires Polled(start, cursor) && n < |feed|
      requires (forall j :: 0 <= j < n ==> feed[j].token <= cursor) && cursor < feed[n].token
      modifies this`rows, this`saved, this`first
      ensures Valid() && (go <==> GoesOn(feed[n], t)) && (go ==> Polled(start, feed[n].token))
      ensures rows == Inserted(old(rows), feed[n], t, keyOf) && saved == Saved(old(rows), old(saved), feed[n], t, keyOf)
      ensures old(first).Some? ==> first == old(first)
    {
      var ok := Handle(n, t);
      if old(saved).Some? {
        KeepRecorded(feed, old(rows), rows, old(first).value, old(saved).value, keyOf);
      }
      if ok {
        NextRecorded(feed, old(rows), rows, start, cursor, n, keyOf);
        if old(saved).Some? {
          JoinRecorded(feed, rows, old(first).value, old(saved).value, start, feed[n].token, keyOf);
        }
        assert feed[n].token <= Latest(feed);
      }
      go := ok && t.queued && !t.stop;
    }

    /** One record and what follows it in the poll loop; false ends the poll. */
    method Step(n: nat, t: Trouble, ghost start: nat, ghost cursor: nat) returns (go: bool)
      requires Polled(start, cursor) && OnCourse() && at == Some(cursor) && n == StartOf(feed, cursor) < |feed|
      modifies this`rows, this`saved, this`first, this`at, this`events
      ensures Valid() && OnCourse() && (go <==> GoesOn(feed[n], t)) && (go ==> Polled(start, feed[n].token))
      ensures at == if go then Some(feed[n].token) else None
      ensures go && t.save.Applied() ==> saved == Some(feed[n].token)
      ensures forall k :: k in old(rows) ==> k in rows && rows[k] == old(rows)[k]
      ensures old(first).Some? ==> first == old(first)
    {
      ghost var was := Now();
      go := Advance(n, t, start, cursor);
      ReadGives(was, t, n, keyOf);
      Note(Read(t), was);
    }

    /** The records of one page: it goes on past all of them unless something goes
        wrong around one. */
    method Page(start: nat, from: nat, troubles: nat -> Trouble) returns (cursor: nat, go: bool)
      requires Polled(start, from) && OnCourse() && at == Some(from)
      modifies this`rows, this`saved, this`first, this`at, this`events
      ensures Valid() && OnCourse() && (go ==> Polled(start, cursor)) && at == if go then Some(cursor) else None
      ensures from <= cursor
      ensures go ==> StartOf(feed, cursor) == PageEnd(feed, from)
      ensures (forall i :: Smooth(troubles(i))) ==>
                go && (saved == Some(cursor) || (cursor == from && saved == old(saved)))
      ensures forall k :: k in old(rows) ==> k in rows && rows[k] == old(rows)[k]
      ensures old(first).Some? ==> first == old(first)
    {
      cursor, go := from, true;
      var i := StartOf(feed, cursor);
      var end := PageEnd(feed, cursor);
      while i < end
        invariant i <= end <= |feed| && Polled(start, cursor) && OnCourse() && at == Some(cursor) && go
        invariant i == StartOf(feed, cursor) && from <= cursor
        invariant (forall j :: Smooth(troubles(j))) ==>
                    saved == Some(cursor) || (cursor == from && saved == old(saved))
        invariant forall k :: k in old(rows) ==> k in rows && rows[k] == old(rows)[k]
        invariant old(first).Some? ==> first == old(first)
      {
        go := Step(i, troubles(i), start, cursor);
        if !go {
          return;
        }
        cursor := feed[i].token;
        NextStart(feed, i, keyOf);
        i := i + 1;
      }
    }

    /** The feed as a later request sees it. */
    method Refresh(view: seq<Op>, ghost start: nat, ghost cursor: nat)
      requires Polled(start, cursor) && OnCourse() && at == Some(cursor) && FeedOk(view, keyOf) && feed <= view
      modifies this`feed, this`at, this`events
      ensures Polled(start, cursor) && OnCourse() && at == Some(cursor) && feed == view
    {
      FeedGrows(feed, view, rows, start, cursor, keyOf);
      if saved.Some? {
        FeedGrows(feed, view, rows, first.value, saved.value, keyOf);
      }
      ghost var was := Now();
      ghost var more := view[|feed|..];
      assert feed + more == view;
      feed := view;
      Note(Grow(more), was);
    }

    /** One page request, and its records. `seen` is the feed as the first request
        of the poll saw it. */
    method Request(
      view: seq<Op>, start: nat, from: nat, troubles: nat -> Trouble, ghost seen: seq<Op>, ghost n: nat)
      returns (cursor: nat, go: bool)
      requires Polled(start, from) && OnCourse() && at == Some(from) && FeedOk(view, keyOf) && feed <= view
      requires seen <= view && GotPast(seen, from, StartOf(seen, start), n)
      modifies this`feed, this`rows, this`saved, this`first, this`at, this`events
      ensures Valid() && OnCourse() && (go ==> Polled(start, cursor)) && at == if go then Some(cursor) else None
      ensures feed == view && (go ==> GotPast(seen, cursor, StartOf(seen, start), n + PAGE_SIZE))
      ensures (forall i :: Smooth(troubles(i))) ==>
                go && (saved == Some(cursor) || (cursor == from && saved == old(saved)))
      ensures forall k :: k in old(rows) ==> k in rows && rows[k] == old(rows)[k]
      ensures old(first).Some? ==> first == old(first)
    {
      Refresh(view, start, from);
      StartStays(seen, feed, start, from);
      cursor, go := Page(start, from, troubles);
      if go { PageGetsPast(seen, feed, from, cursor, StartOf(seen, start), n); }
    }

    /** The page requests of a poll; the one after the last fails. */
    method Pages(views: seq<seq<Op>>, troubles: (nat, nat) -> Trouble, start: nat) returns (cursor: nat, go: bool)
      requires Polled(start, start) && OnCourse() && at == Some(start)
      requires forall k :: 0 <= k < |views| ==> FeedOk(views[k], keyOf) && feed <= views[k]
      requires forall k, l :: 0 <= k < l < |views| ==> views[k] <= views[l]
      modifies this
      ensures Valid() && OnCourse() && old(feed) <= feed && at == if go then Some(cursor) else None
      ensures go ==> Polled(start, cursor)
      ensures go && views != [] ==>
                views[0] <= feed && GotPast(views[0], cursor, StartOf(views[0], start), PAGE_SIZE * |views|)
      ensures (forall k, i :: Smooth(troubles(k, i))) ==>
                go && (saved == Some(cursor) || (cursor == start && saved == old(saved)))
      ensures forall k :: k in old(rows) ==> k in rows && rows[k] == old(rows)[k]
      ensures old(first).Some? ==> first == old(first)
    {
      cursor, go := start, true;
      ghost var view := if views == [] then [] else views[0];
      for page := 0 to |views|
        invariant go && Polled(start, cursor) && OnCourse() && at == Some(cursor) && old(feed) <= feed
        invariant forall k :: page <= k < |views| ==> feed <= views[k]
        invariant old(first).Some? ==> first == old(first)
        invariant forall k :: k in old(rows) ==> k in rows && rows[k] == old(rows)[k]
        invariant (forall k, i :: Smooth(troubles(k, i))) ==>
                    saved == Some(cursor) || (cursor == start && saved == old(saved))
        invariant (0 < page ==> view <= feed) && GotPast(view, cursor, StartOf(view, start), PAGE_SIZE * page)
      {
        cursor, go := Request(views[page], start, cursor, (i: nat) => troubles(page, i), view, PAGE_SIZE * page);
        if !go {
          return;
        }
      }
    }

    /** poll: pages from the saved cursor until an error or a stop. views[k] is the
        feed as the k-th page request sees it; the request after the last fails.
        Whatever goes wrong, it is a run of the machine, and no deposit is lost; and
        when nothing does, each request gets a page further: what is then read is
        recorded, and the cursor saved past it. */
    method Poll(gotCursor: bool, views: seq<seq<Op>>, troubles: (nat, nat) -> Trouble)
      requires Valid() && OnCourse() && at == None
      requires forall k :: 0 <= k < |views| ==> FeedOk(views[k], keyOf) && feed <= views[k]
      requires forall k, l :: 0 <= k < l < |views| ==> views[k] <= views[l]
      modifies this
      ensures Valid() && OnCourse() && at == None && old(feed) <= feed
      ensures saved.Some? ==> SkipsNothing(Now(), first.value, keyOf)
      ensures gotCursor && views != [] && (forall k, i :: Smooth(troubles(k, i))) ==>
                var view := views[0];
                var from := StartOf(view, StartsAfter(old(feed), old(saved)));
                forall i :: from <= i < |view| && i < from + PAGE_SIZE * |views| ==>
                  && (view[i].what.Into? ==> Recorded(rows, view[i].what.payment, keyOf))
                  && saved.Some? && view[i].token <= saved.value
      ensures forall k :: k in old(rows) ==> k in rows && rows[k] == old(rows)[k]
      ensures old(first).Some? ==> first == old(first)
    {
      if !gotCursor {
        return;
      }
      var start := if saved.Some? then saved.value else Latest(feed);
      Note(Begin, Now());
      var cursor, go := Pages(views, troubles, start);
      if go {
        if views != [] { AllRead(views[0], feed, rows, start, cursor, PAGE_SIZE * |views|, keyOf); }
        Note(Stop, Now());
      }
    }
  }

  lemma ReadGives(w: Life, t: Trouble, n: nat, keyOf: Keying)
    requires w.at.Some? && n == StartOf(w.feed, w.at.value) < |w.feed|
    ensures var op := w.feed[n];
            Apply(w, Read(t), keyOf)
              == Some(Life(w.feed, Inserted(w.rows, op, t, keyOf), Saved(w.rows, w.saved, op, t, keyOf),
                                                  if GoesOn(op, t) then Some(op.token) else None))
  {
  }

  lemma NextStart(feed: seq<Op>, i: nat, keyOf: Keying)
    requires FeedOk(feed, keyOf) && i < |feed|
    ensures StartOf(feed, feed[i].token) == i + 1
  {
    assert forall j :: 0 <= j < i ==> feed[j].token < feed[i].token;
    assert i + 1 < |feed| ==> feed[i].token < feed[i + 1].token;
  }

  /** Two polls of a new pool: the first fails to record the first payment, the
      second starts past it, records the next and saves the cursor. No later poll
      reads the first payment again. */
  lemma LostAcrossRestart(p: Payment, q: Payment, keyOf: Keying) returns (events: seq<Event>)
    requires FeedOk([Op(1, Into(p)), Op(2, Into(q))], keyOf)
    ensures var w := Run(Life([], map[], None, None), events, keyOf);
            && w.Some? && w.value.feed == [Op(1, Into(p)), Op(2, Into(q))]
            && w.value.saved == Some(2) && Recorded(w.value.rows, q, keyOf) && !Recorded(w.value.rows, p, keyOf)
  {
    var w := Life([], map[], None, None);
    var a, b := Op(1, Into(p)), Op(2, Into(q));
    var both := [a, b];
    assert both[0] == a && both[1] == b && both == [a] + [b];
    events := FirstPollFails(p, keyOf);
    events := Did(w, events, Begin, Life([a], map[], None, Some(1)), keyOf);
    events := Did(w, events, Grow([b]), Life(both, map[], None, Some(1)), keyOf);
    NextStart(both, 0, keyOf);
    var fine := Trouble(Kept, true, Kept, false);
    events := Did(w, events, Read(fine), Life(both, map[keyOf(q) := q], Some(2), Some(2)), keyOf);
  }

  lemma FirstPollFails(p: Payment, keyOf: Keying) returns (events: seq<Event>)
    ensures Run(Life([], map[], None, None), events, keyOf) == Some(Life([Op(1, Into(p))], map[], None, None))
  {
    var w, a := Life([], map[], None, None), Op(1, Into(p));
    FirstPayment(a, keyOf);
    events := Did(w, [], Begin, w.(at := Some(0)), keyOf);
    events := Did(w, events, Grow([a]), Life([a], map[], None, Some(0)), keyOf);
    events := Did(w, events, Read(Trouble(Lost, false, Lost, true)), Life([a], map[], None, None), keyOf);
  }

  lemma FirstPayment(a: Op, keyOf: Keying)
    requires a.token == 1 && a.what.Into?
    ensures Apply(Life([], map[], None, Some(0)), Grow([a]), keyOf) == Some(Life([a], map[], None, Some(0)))
    ensures Apply(Life([a], map[], None, Some(0)), Read(Trouble(Lost, false, Lost, true)), keyOf)
            == Some(Life([a], map[], None, None))
  {
    assert [] + [a] == [a] && FeedOk([a], keyOf);
    assert StartOf([a], 0) == 0;
  }

  lemma Did(w: Life, events: seq<Event>, e: Event, to: Life, keyOf: Keying) returns (more: seq<Event>)
    requires Run(w, events, keyOf).Some? && Apply(Run(w, events, keyOf).value, e, keyOf) == Some(to)
    ensures Run(w, more, keyOf) == Some(to)
  {
    more := events + [e];
    RunAppend(w, events, e, keyOf);
  }
}
