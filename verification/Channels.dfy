/** The channel lease table: tokened leases with expiry and takeover. */
module Channels {
  import opened Common

  datatype Status = Active | Disabled | Retired

  datatype Channel = Channel(
    address: string, status: Status, last: Option<int>, needsResync: bool,
    token: Option<string>, expiresAt: Option<int>, lastUsed: Option<int>)
  {
    /** No unexpired lease: never leased, released, or past its expiry. */
    predicate Free(now: int) { token.None? || (expiresAt.Some? && expiresAt.value < now) }

    predicate Leasable(now: int) { status == Active && Free(now) }

    /** Acquire's UPDATE. A lease_expires_at still set means the previous lease
        was never released: its holder may have consumed a sequence number. */
    function Leased(t: string, ttl: nat, now: int): Channel {
      this.(token := Some(t), expiresAt := Some(now + ttl), lastUsed := Some(now),
            needsResync := needsResync || expiresAt.Some?)
    }

    /** Release's UPDATE, when the token still matches. */
    function Released(consumed: Option<int>, resync: bool): Channel {
      this.(token := None, expiresAt := None, needsResync := resync,
            last := if consumed.Some? then consumed else last)
    }

    /** The sequence a lease may build on. */
    function Trusted(): Option<int> { if needsResync then None else last }

    /** Sync's upsert on an existing index: a new address resets the sequence. */
    function Synced(to: string): Channel {
      var changed := address != to;
      this.(address := to, status := if changed || status == Retired then Active else status,
            last := if changed then None else last, needsResync := needsResync || changed)
    }

    function Weighed(balance: int, minimum: int): Channel {
      var poor := balance < 0 || balance < minimum;
      this.(status := if status == Retired then Retired else if poor then Disabled else Active)
    }
  }

  function NewChannel(address: string): Channel { Channel(address, Active, None, true, None, None, None) }

  /** Out of rotation, or under a lease that has not expired. */
  predicate Busy(c: Channel, now: int) {
    c.status != Active || (c.token.Some? && (c.expiresAt.Some? ==> now <= c.expiresAt.value))
  }

  /** ORDER BY last_used_at NULLS FIRST, hd_index. */
  predicate Before(chans: seq<Channel>, i: nat, j: nat)
    requires i < |chans| && j < |chans|
  {
    var a, b := chans[i].lastUsed, chans[j].lastUsed;
    if a.None? && b.None? then i < j
    else if a.None? || b.None? then a.None?
    else a.value < b.value || (a.value == b.value && i < j)
  }

  datatype Lease = Lease(index: nat, address: string, token: string, last: Option<int>)

  /** The pool's table; a channel's position is its HD index. */
  class Pool {
    var chans: seq<Channel>

    constructor ()
      ensures chans == []
    {
      chans := [];
    }

    /** Leases the least recently used free channel; the lease carries a sequence
        only if the row's may be trusted. None is ErrPoolCapacity. */
    method Acquire(token: string, ttl: nat, now: int) returns (lease: Option<Lease>)
      modifies this
      ensures lease.None? ==> chans == old(chans) && forall i :: 0 <= i < |chans| ==> Busy(chans[i], now)
      ensures lease.Some? ==>
                var i := lease.value.index; var was := old(chans);
                && i < |was| == |chans| && !Busy(was[i], now) && chans == was[i := chans[i]]
                && (forall j :: 0 <= j < |was| && !Busy(was[j], now) ==>
                      var mine, theirs := was[i].lastUsed, was[j].lastUsed;
                      && (mine.Some? ==> theirs.Some? && mine.value <= theirs.value)
                      && (mine == theirs ==> i <= j))
                && var c, d := was[i], chans[i];
                   && d.address == c.address && d.status == c.status && d.last == c.last
                   && d.token == Some(token) && d.expiresAt == Some(now + ttl) && d.lastUsed == Some(now)
                   && (d.needsResync <==> c.needsResync || c.expiresAt.Some?)
                   && lease.value == Lease(i, c.address, token, if d.needsResync then None else d.last)
    {
      var best: nat := |chans|;
      for i := 0 to |chans|
        invariant best == |chans| ==> forall j :: 0 <= j < i ==> !chans[j].Leasable(now)
        invariant best != |chans| ==> best < i && chans[best].Leasable(now)
        invariant best != |chans| ==> forall j :: 0 <= j < i && j != best && chans[j].Leasable(now) ==>
                  Before(chans, best, j)
      {
        if chans[i].Leasable(now) && (best == |chans| || Before(chans, i, best)) {
          best := i;
        }
      }
      if best == |chans| {
        return None;
      }
      var c := chans[best].Leased(token, ttl, now);
      chans := chans[best := c];
      lease := Some(Lease(best, c.address, token, c.Trusted()));
    }

    /** False is ErrLeaseLost: a superseded token changes nothing. */
    method Release(lease: Lease, consumed: Option<int>, resync: bool) returns (held: bool)
      modifies this
      ensures held <==> lease.index < |old(chans)| && old(chans)[lease.index].token == Some(lease.token)
      ensures |chans| == |old(chans)| && (!held ==> chans == old(chans))
      ensures held ==>
                var c, d := old(chans)[lease.index], chans[lease.index];
                && chans == old(chans)[lease.index := d]
                && d.address == c.address && d.status == c.status && d.lastUsed == c.lastUsed
                && d.token == None && d.expiresAt == None && d.needsResync == resync
                && d.last == (if consumed.None? then c.last else consumed)
                && forall now :: d.status == Active ==> !Busy(d, now)
    {
      held := lease.index < |chans| && chans[lease.index].token == Some(lease.token);
      if held {
        chans := chans[lease.index := chans[lease.index].Released(consumed, resync)];
      }
    }

    /** Moves one channel in or out of rotation by its balance. Leases and
        sequences are untouched, and a retired channel stays retired. */
    method RecordBalance(index: nat, balance: int, minimum: int)
      modifies this
      ensures |chans| == |old(chans)| && forall i :: 0 <= i < |chans| && i != index ==> chans[i] == old(chans)[i]
      ensures index < |chans| ==>
                var c, d := old(chans)[index], chans[index];
                && d.(status := c.status) == c && (d.status == Retired <==> c.status == Retired)
                && (c.status != Retired ==> (d.status == Active <==> 0 <= balance && minimum <= balance))
    {
      if index < |chans| {
        chans := chans[index := chans[index].Weighed(balance, minimum)];
      }
    }

    /** Makes the table match the configured addresses and retires the rest. */
    method Sync(addresses: seq<string>)
      modifies this
      ensures |chans| == if |addresses| > |old(chans)| then |addresses| else |old(chans)|
      ensures forall i :: 0 <= i < |addresses| ==>
                var d := chans[i];
                && d.address == addresses[i]
                && if i >= |old(chans)| || old(chans)[i].address != addresses[i]
                   then d.status == Active && d.last == None && d.needsResync
                   else
                     && d.status == (if old(chans)[i].status == Retired then Active else old(chans)[i].status)
                     && d.last == old(chans)[i].last && d.needsResync == old(chans)[i].needsResync
      ensures forall i :: 0 <= i < |addresses| && i >= |old(chans)| ==>
                chans[i].token == None && chans[i].expiresAt == None && chans[i].lastUsed == None
      ensures forall i :: 0 <= i < |addresses| && i < |old(chans)| ==>
                var c, d := old(chans)[i], chans[i];
                d.token == c.token && d.expiresAt == c.expiresAt && d.lastUsed == c.lastUsed
      ensures forall i :: |addresses| <= i < |chans| ==> chans[i] == old(chans)[i].(status := Retired)
    {
      ghost var was := chans;
      for i := 0 to |addresses|
        invariant |chans| == if i > |was| then i else |was|
        invariant forall j :: 0 <= j < i ==> chans[j] == if j < |was| then was[j].Synced(addresses[j])
                  else NewChannel(addresses[j])
        invariant forall j :: i <= j < |was| ==> chans[j] == was[j]
      {
        if i < |chans| {
          chans := chans[i := chans[i].Synced(addresses[i])];
        } else {
          chans := chans + [NewChannel(addresses[i])];
        }
      }
      ghost var mid := chans;
      for i := |addresses| to |chans|
        invariant |chans| == |mid|
        invariant forall j :: 0 <= j < |addresses| ==> chans[j] == mid[j]
        invariant forall j :: |addresses| <= j < i ==> chans[j] == mid[j].(status := Retired)
        invariant forall j :: i <= j < |mid| ==> chans[j] == mid[j]
      {
        chans := chans[i := chans[i].(status := Retired)];
      }
    }
  }
}

/** Channel safety over every run of holders that crash, overrun their lease and
    release late, while the accounts' sequence numbers advance. */
module ChannelSafety {
  import opened Common
  import opened Channels

  /** What the process holding a lease knows: the account's last sequence number
      once loaded, and whether the transaction it built after it landed. */
  datatype Holder = Holder(index: nat, address: string, expiresAt: int, last: Option<int>, landed: bool)

  datatype State = State(
    now: int, chans: seq<Channel>, holders: map<string, Holder>, used: set<string>, ledger: map<string, nat>)

  const INITIAL: State := State(0, [], map[], {}, map[])

  /** The last sequence number the account consumed on-chain. */
  function OnChain(s: State, address: string): nat { if address in s.ledger then s.ledger[address] else 0 }

  datatype Result =
    | Consumed  // the transaction landed: its number is spent
    | Unused    // rejected before the queue: the account is where it was
    | Unknown   // reload next time

  datatype Event =
    | Elapse(to: int)
    | Land(address: string, upTo: nat)
    | Acquire(index: nat, token: string, ttl: nat)
    | Load(token: string, seen: nat)
    | Confirm(token: string)
    | Release(token: string, result: Result, fate: Fate)
    | Die(token: string)
    | Sync(index: nat, address: string)
    | SetStatus(index: nat, status: Status)

  /** The number a holder's transaction carries. */
  function Built(h: Holder): int
    requires h.last.Some?
  {
    h.last.value + 1
  }

  function ReleaseOf(h: Holder, result: Result): (Option<int>, bool) {
    match result
    case Consumed => (if h.last.Some? then Some(Built(h)) else None, false)
    case Unused => (h.last, false)
    case Unknown => (None, true)
  }

  /** The next state. `moves` lets Sync change the address of a row that holds a
      token, as its statement does. */
  ghost function Apply(moves: bool, s: State, e: Event): Option<State> {
    match e
    case Elapse(to) => if to < s.now then None else Some(s.(now := to))
    case Land(address, upTo) => if upTo < OnChain(s, address) then None
      else Some(s.(ledger := s.ledger[address := upTo]))
    case Acquire(i, token, ttl) =>
      if i >= |s.chans| || !s.chans[i].Leasable(s.now) || token in s.used then None
      else
        var c := s.chans[i].Leased(token, ttl, s.now);
        Some(s.(chans := s.chans[i := c], used := s.used + {token},
                holders := s.holders[token := Holder(i, c.address, s.now + ttl, c.Trusted(), false)]))
    case Load(token, seen) =>
      if token !in s.holders || s.holders[token].last.Some? || seen > OnChain(s, s.holders[token].address) then None
      else Some(s.(holders := s.holders[token := s.holders[token].(last := Some(seen))]))
    case Confirm(token) =>
      if token !in s.holders || s.holders[token].last.None?
        || Built(s.holders[token]) > OnChain(s, s.holders[token].address) then None
      else Some(s.(holders := s.holders[token := s.holders[token].(landed := true)]))
    case Release(token, result, fate) =>
      if token !in s.holders then None
      else
        var h := s.holders[token];
        if (result == Consumed && !h.landed) || (result == Unused && h.last.None?) || h.index >= |s.chans| then None
        else
          var (consumed, resync) := ReleaseOf(h, result);
          var c := s.chans[h.index];
          Some(s.(holders := s.holders - {token},
                  chans := if fate.Applied() && c.token == Some(token)
                    then s.chans[h.index := c.Released(consumed, resync)] else s.chans))
    case Die(token) => Some(s.(holders := s.holders - {token}))
    case Sync(i, address) =>
      if i > |s.chans| then None
      else if i == |s.chans| then Some(s.(chans := s.chans + [NewChannel(address)]))
      else if !moves && s.chans[i].address != address && s.chans[i].token.Some? then None
      else Some(s.(chans := s.chans[i := s.chans[i].Synced(address)]))
    case SetStatus(i, status) =>
      if i >= |s.chans| then None else Some(s.(chans := s.chans[i := s.chans[i].(status := status)]))
  }

  ghost function Run(moves: bool, s: State, events: seq<Event>): Option<State>
    decreases |events|
  {
    if events == [] then Some(s)
    else
      var t := Apply(moves, s, events[0]);
      if t.None? then None else Run(moves, t.value, events[1..])
  }

  ghost predicate Reachable(moves: bool, s: State) { exists events :: Run(moves, INITIAL, events) == Some(s) }

  // ---- The invariant ----

  ghost predicate RowLeased(s: State, c: Channel) {
    (c.token.Some? ==> c.token.value in s.used) && (c.token.Some? <==> c.expiresAt.Some?)
  }

  ghost predicate HolderLeased(s: State, token: string, h: Holder) {
    && token in s.used && h.index < |s.chans|
    && (s.chans[h.index].token == Some(token) ==> s.chans[h.index].expiresAt == Some(h.expiresAt))
    && (s.now <= h.expiresAt ==> s.chans[h.index].token == Some(token))
  }

  /** Leases are exclusive, whatever Sync does. */
  ghost predicate Leases(s: State) {
    && (forall i :: 0 <= i < |s.chans| ==> RowLeased(s, s.chans[i]))
    && (forall t :: t in s.holders ==> HolderLeased(s, t, s.holders[t]))
    && (forall i, j :: 0 <= i < j < |s.chans| && s.chans[i].token.Some? ==> s.chans[i].token != s.chans[j].token)
  }

  /** The stored sequence number never runs ahead of the account's. */
  ghost predicate RowBehind(s: State, c: Channel) {
    c.last.Some? ==> c.last.value <= OnChain(s, c.address)
  }

  ghost predicate HolderBehind(s: State, token: string, h: Holder) {
    && (h.last.Some? ==> h.last.value <= OnChain(s, h.address))
    && (h.landed ==> h.last.Some? && Built(h) <= OnChain(s, h.address))
    && (h.index < |s.chans| && s.chans[h.index].token == Some(token) ==> s.chans[h.index].address == h.address)
  }

  ghost predicate Sequences(s: State) {
    && (forall i :: 0 <= i < |s.chans| ==> RowBehind(s, s.chans[i]))
    && (forall t :: t in s.holders ==> HolderBehind(s, t, s.holders[t]))
  }

  ghost predicate Inv(moves: bool, s: State) { Leases(s) && (!moves ==> Sequences(s)) }

  lemma StepLeases(moves: bool, s: State, e: Event)
    requires Leases(s) && Apply(moves, s, e).Some?
    ensures Leases(Apply(moves, s, e).value)
  {
    match e
    case Acquire(_, _, _) => AcquireLeases(moves, s, e);
    case Release(_, _, _) => ReleaseLeases(moves, s, e);
    case Sync(_, _) => RowLeases(moves, s, e);
    case SetStatus(_, _) => RowLeases(moves, s, e);
    case _ => HolderLeases(moves, s, e);
  }

  lemma AcquireLeases(moves: bool, s: State, e: Event)
    requires e.Acquire? && Leases(s) && Apply(moves, s, e).Some?
    ensures Leases(Apply(moves, s, e).value)
  {
    var t := Apply(moves, s, e).value;
    forall k | k in t.holders ensures HolderLeased(t, k, t.holders[k]) {
      if k in s.holders { assert HolderLeased(s, k, s.holders[k]); }
    }
    forall j | 0 <= j < |t.chans| ensures RowLeased(t, t.chans[j]) {
      if j < |s.chans| { assert RowLeased(s, s.chans[j]); }
    }
  }

  lemma ReleaseLeases(moves: bool, s: State, e: Event)
    requires e.Release? && Leases(s) && Apply(moves, s, e).Some?
    ensures Leases(Apply(moves, s, e).value)
  {
    var t := Apply(moves, s, e).value;
    forall k | k in t.holders ensures HolderLeased(t, k, t.holders[k]) {
      if k in s.holders { assert HolderLeased(s, k, s.holders[k]); }
    }
    forall j | 0 <= j < |t.chans| ensures RowLeased(t, t.chans[j]) {
      if j < |s.chans| { assert RowLeased(s, s.chans[j]); }
    }
  }

  lemma RowLeases(moves: bool, s: State, e: Event)
    requires (e.Sync? || e.SetStatus?) && Leases(s) && Apply(moves, s, e).Some?
    ensures Leases(Apply(moves, s, e).value)
  {
    var t := Apply(moves, s, e).value;
    forall k | k in t.holders ensures HolderLeased(t, k, t.holders[k]) {
      if k in s.holders { assert HolderLeased(s, k, s.holders[k]); }
    }
    forall j | 0 <= j < |t.chans| ensures RowLeased(t, t.chans[j]) {
      if j < |s.chans| { assert RowLeased(s, s.chans[j]); }
    }
  }

  lemma HolderLeases(moves: bool, s: State, e: Event)
    requires !(e.Acquire? || e.Release? || e.Sync? || e.SetStatus?) && Leases(s) && Apply(moves, s, e).Some?
    ensures Leases(Apply(moves, s, e).value)
  {
    var t := Apply(moves, s, e).value;
    forall k | k in t.holders ensures HolderLeased(t, k, t.holders[k]) {
      if k in s.holders { assert HolderLeased(s, k, s.holders[k]); }
    }
    forall j | 0 <= j < |t.chans| ensures RowLeased(t, t.chans[j]) {
      if j < |s.chans| { assert RowLeased(s, s.chans[j]); }
    }
  }

  lemma StepSequences(s: State, e: Event)
    requires Leases(s) && Sequences(s) && Apply(false, s, e).Some?
    ensures Sequences(Apply(false, s, e).value)
  {
    match e
    case Acquire(_, _, _) => LeaseSequences(s, e);
    case Release(_, _, _) => LeaseSequences(s, e);
    case Sync(_, _) => RowSequences(s, e);
    case SetStatus(_, _) => RowSequences(s, e);
    case _ => HolderSequences(s, e);
  }

  lemma LeaseSequences(s: State, e: Event)
    requires (e.Acquire? || e.Release?) && Leases(s) && Sequences(s) && Apply(false, s, e).Some?
    ensures Sequences(Apply(false, s, e).value)
  {
    var t := Apply(false, s, e).value;
    forall k | k in t.holders ensures HolderBehind(t, k, t.holders[k]) {
      if k in s.holders { assert HolderBehind(s, k, s.holders[k]) && HolderLeased(s, k, s.holders[k]); }
    }
    forall j | 0 <= j < |t.chans| ensures RowBehind(t, t.chans[j]) {
      if j < |s.chans| { assert RowBehind(s, s.chans[j]); }
    }
  }

  lemma RowSequences(s: State, e: Event)
    requires (e.Sync? || e.SetStatus?) && Leases(s) && Sequences(s) && Apply(false, s, e).Some?
    ensures Sequences(Apply(false, s, e).value)
  {
    var t := Apply(false, s, e).value;
    forall k | k in t.holders ensures HolderBehind(t, k, t.holders[k]) {
      if k in s.holders { assert HolderBehind(s, k, s.holders[k]) && HolderLeased(s, k, s.holders[k]); }
    }
    forall j | 0 <= j < |t.chans| ensures RowBehind(t, t.chans[j]) {
      if j < |s.chans| { assert RowBehind(s, s.chans[j]); }
    }
  }

  lemma HolderSequences(s: State, e: Event)
    requires !(e.Acquire? || e.Release? || e.Sync? || e.SetStatus?) && Leases(s) && Sequences(s)
             && Apply(false, s, e).Some?
    ensures Sequences(Apply(false, s, e).value)
  {
    var t := Apply(false, s, e).value;
    forall k | k in t.holders ensures HolderBehind(t, k, t.holders[k]) {
      if k in s.holders { assert HolderBehind(s, k, s.holders[k]) && HolderLeased(s, k, s.holders[k]); }
    }
    forall j | 0 <= j < |t.chans| ensures RowBehind(t, t.chans[j]) {
      if j < |s.chans| { assert RowBehind(s, s.chans[j]); }
    }
  }

  /** Every event keeps leases exclusive, and sequences behind the chain unless
      it moves a leased row. */
  lemma StepKeeps(moves: bool, s: State, e: Event)
    requires Inv(moves, s) && Apply(moves, s, e).Some?
    ensures Inv(moves, Apply(moves, s, e).value)
  {
    StepLeases(moves, s, e);
    if !moves { StepSequences(s, e); }
  }

  lemma {:induction false} RunKeeps(moves: bool, s: State, events: seq<Event>)
    requires Inv(moves, s) && Run(moves, s, events).Some?
    ensures Inv(moves, Run(moves, s, events).value)
    decreases |events|
  {
    if events != [] {
      StepKeeps(moves, s, events[0]);
      RunKeeps(moves, Apply(moves, s, events[0]).value, events[1..]);
    }
  }

  lemma ReachableKeeps(moves: bool, s: State)
    requires Reachable(moves, s)
    ensures Inv(moves, s)
  {
    var events :| Run(moves, INITIAL, events) == Some(s);
    RunKeeps(moves, INITIAL, events);
  }

  // ---- Theorems ----

  /** At most one unexpired lease per channel. */
  lemma OneLeasePerChannel(moves: bool, s: State, a: string, b: string)
    requires Reachable(moves, s) && a in s.holders && b in s.holders && s.holders[a].index == s.holders[b].index
    requires s.now <= s.holders[a].expiresAt && s.now <= s.holders[b].expiresAt
    ensures a == b
  {
    ReachableKeeps(moves, s);
    assert HolderLeased(s, a, s.holders[a]) && HolderLeased(s, b, s.holders[b]);
  }

  /** Taking over a lease that was never released, its holder crashed or slow,
      makes the new holder reload the sequence. */
  lemma TakeoverReloads(moves: bool, s: State, index: nat, token: string, ttl: nat)
    requires Reachable(moves, s) && index < |s.chans| && s.chans[index].token.Some?
    requires Apply(moves, s, Acquire(index, token, ttl)).Some?
    ensures var t := Apply(moves, s, Acquire(index, token, ttl)).value;
            t.holders[token].last == None && t.chans[index].needsResync
  {
    ReachableKeeps(moves, s);
    assert RowLeased(s, s.chans[index]);
  }

  /** A channel may be leased exactly when it is in rotation and no unexpired lease
      is on its row. */
  lemma AcquirableIff(moves: bool, s: State, index: nat, token: string, ttl: nat)
    requires Reachable(moves, s) && index < |s.chans| && token !in s.used
    ensures Apply(moves, s, Acquire(index, token, ttl)).Some? <==>
            var c := s.chans[index];
            c.status == Active && !(c.token.Some? && c.expiresAt.Some? && s.now <= c.expiresAt.value)
  {
    ReachableKeeps(moves, s);
    assert RowLeased(s, s.chans[index]);
  }

  /** A released channel in rotation can be leased again at once, and what the
      next lease builds on is what the release said: one past the number the holder
      built on if it was consumed, that number if not, and a reload if unknown. */
  lemma NextLease(
    moves: bool, s: State, prior: string, result: Result, fate: Fate, token: string, ttl: nat)
    requires Reachable(moves, s) && prior in s.holders && Apply(moves, s, Release(prior, result, fate)).Some?
    requires var c := s.chans[s.holders[prior].index]; c.token == Some(prior) && c.status == Active && fate.Applied()
    requires token !in s.used
    ensures var h := s.holders[prior];
            var t := Apply(moves, Apply(moves, s, Release(prior, result, fate)).value, Acquire(h.index, token, ttl));
            && t.Some? && token in t.value.holders && t.value.holders[token].index == h.index
            && t.value.holders[token].last
               == match result
                  case Consumed => if h.last.Some? then Some(h.last.value + 1) else s.chans[h.index].last
                  case Unused => h.last
                  case Unknown => None
  {
  }

  /** A holder whose lease was taken over had let it expire, and its late release
      changes no row. */
  lemma LateReleaseIsInert(moves: bool, s: State, prior: string, result: Result, fate: Fate)
    requires Reachable(moves, s) && prior in s.holders && Apply(moves, s, Release(prior, result, fate)).Some?
    requires s.chans[s.holders[prior].index].token != Some(prior)
    ensures s.holders[prior].expiresAt < s.now
    ensures Apply(moves, s, Release(prior, result, fate)).value.chans == s.chans
  {
    ReachableKeeps(moves, s);
    assert HolderLeased(s, prior, s.holders[prior]);
  }

  /** The stored sequence never exceeds the account's, so no transaction is ever
      built beyond the account's next sequence number. */
  ghost predicate NeverAhead(s: State) {
    && (forall i :: 0 <= i < |s.chans| && s.chans[i].last.Some? ==>
      s.chans[i].last.value <= OnChain(s, s.chans[i].address))
    && (forall t :: t in s.holders && s.holders[t].last.Some? ==>
          Built(s.holders[t]) <= OnChain(s, s.holders[t].address) + 1)
  }

  /** It holds in every run if and only if no Sync changes the address of a row
      that holds a token. */
  lemma NeverAheadIffUnmoved(moves: bool)
    ensures (forall s :: Reachable(moves, s) ==> NeverAhead(s)) <==> !moves
  {
    if moves {
      var s := MovedRowRunsAhead(Unused);
    } else {
      forall s | Reachable(moves, s) ensures NeverAhead(s) {
        ReachableKeeps(moves, s);
        forall i | 0 <= i < |s.chans| ensures RowBehind(s, s.chans[i]) { }
        forall t | t in s.holders ensures HolderBehind(s, t, s.holders[t]) { }
      }
    }
  }

  // ---- A row moved under its lease ----

  lemma {:induction false} RunAppend(moves: bool, s: State, events: seq<Event>, e: Event)
    requires Run(moves, s, events).Some?
    ensures Run(moves, s, events + [e]) == Apply(moves, Run(moves, s, events).value, e)
    decreases |events|
  {
    if events == [] {
      assert events + [e] == [e] && [e][1..] == [];
    } else {
      assert (events + [e])[1..] == events[1..] + [e];
      RunAppend(moves, Apply(moves, s, events[0]).value, events[1..], e);
    }
  }

  lemma Take(s: State, e: Event) returns (t: State)
    requires Reachable(true, s) && Apply(true, s, e).Some?
    ensures Reachable(true, t) && t == Apply(true, s, e).value
  {
    t := Apply(true, s, e).value;
    var events :| Run(true, INITIAL, events) == Some(s);
    RunAppend(true, INITIAL, events, e);
    assert Run(true, INITIAL, events + [e]) == Some(t);
  }

  /** The channel "A", its account at 5, leased as "t", loaded, and then moved to
      the unused account "B" under the lease. */
  lemma Move() returns (s: State)
    ensures Reachable(true, s) && |s.chans| == 1 && s.chans[0].token == Some("t") && s.chans[0].address == "B"
    ensures "t" in s.holders && s.holders["t"].index == 0 && s.holders["t"].address == "A"
            && s.holders["t"].last == Some(5)
    ensures OnChain(s, "A") == 5 && OnChain(s, "B") == 0
  {
    assert Run(true, INITIAL, []) == Some(INITIAL);
    s := Take(INITIAL, Sync(0, "A"));
    s := Take(s, Land("A", 5));
    s := Take(s, Acquire(0, "t", 1));
    s := Take(s, Load("t", 5));
    s := Take(s, Sync(0, "B"));
  }

  /** When the holder then releases, with its number consumed or unused, the row
      ends with a sequence ahead of its new account and no reload asked for. */
  lemma MovedRowRunsAhead(result: Result) returns (s: State)
    requires result == Consumed || result == Unused
    ensures Reachable(true, s) && !NeverAhead(s) && |s.chans| == 1 && !s.chans[0].needsResync
  {
    s := Move();
    if result == Consumed {
      s := Take(s, Land("A", 6));
      s := Take(s, Confirm("t"));
    }
    s := Take(s, Release("t", result, Kept));
    assert s.chans[0].last.Some? && s.chans[0].address == "B" && OnChain(s, "B") == 0;
  }
}
