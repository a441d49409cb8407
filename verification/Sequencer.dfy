/** The pool's sequence numbers: seeded from Horizon once, then counted in
    memory until a failed send drops the position. */
module Sequencer {
  import opened Common

  datatype Position = Position(next: int, loaded: bool)

  /** One use of the sequencer. Horizon's answer matters only when unseeded. */
  datatype Use = Draw(horizon: Option<int>) | Resync

  function Used(p: Position, u: Use): (Position, Option<int>) {
    match u
    case Resync => (p.(loaded := false), None)
    case Draw(horizon) =>
      if p.loaded then (p.(next := p.next + 1), Some(p.next))
      else if horizon.None? then (p, None)
      else (Position(horizon.value + 2, true), Some(horizon.value + 1))
  }

  /** The numbers handed out over a history, in order. */
  function Drawn(p: Position, uses: seq<Use>): seq<int>
    decreases |uses|
  {
    if uses == [] then []
    else
      var (q, n) := Used(p, uses[0]);
      (if n.Some? then [n.value] else []) + Drawn(q, uses[1..])
  }

  /** Without a resync the numbers are consecutive, so a burst of transfers
      never shares one. */
  lemma {:induction false} ConsecutiveWithoutResync(p: Position, uses: seq<Use>)
    requires Resync !in uses
    ensures var d := Drawn(p, uses);
            && (p.loaded && d != [] ==> d[0] == p.next)
            && forall i :: 0 <= i < |d| ==> d[i] == d[0] + i
    decreases |uses|
  {
    if uses != [] {
      var (q, n) := Used(p, uses[0]);
      ConsecutiveWithoutResync(q, uses[1..]);
      if n.Some? {
        assert uses[0].Draw? && q.loaded && q.next == n.value + 1;
        assert Drawn(p, uses) == [n.value] + Drawn(q, uses[1..]);
      } else {
        assert Drawn(p, uses) == Drawn(q, uses[1..]);
      }
    }
  }

  // ---- Across resyncs ----

  /** Whatever was drawn before it, the draw after a resync reads the account anew:
      it hands out one past the number Horizon reports, and counts on from there. */
  lemma {:induction false} ResyncReads(p: Position, before: seq<Use>, horizon: int, rest: seq<Use>)
    ensures Drawn(p, before + [Resync, Draw(Some(horizon))] + rest)
            == Drawn(p, before) + [horizon + 1] + Drawn(Position(horizon + 2, true), rest)
    decreases |before|
  {
    var tail := [Resync, Draw(Some(horizon))] + rest;
    if before == [] {
      assert before + [Resync, Draw(Some(horizon))] + rest == tail;
      ResyncFirst(p, horizon, rest);
    } else {
      var (q, n) := Used(p, before[0]);
      var uses := before + [Resync, Draw(Some(horizon))] + rest;
      assert uses[0] == before[0] && uses[1..] == before[1..] + [Resync, Draw(Some(horizon))] + rest;
      ResyncReads(q, before[1..], horizon, rest);
    }
  }

  lemma ResyncFirst(p: Position, horizon: int, rest: seq<Use>)
    ensures Drawn(p, [Resync, Draw(Some(horizon))] + rest)
            == [horizon + 1] + Drawn(Position(horizon + 2, true), rest)
  {
    var draws := [Draw(Some(horizon))] + rest;
    assert ([Resync, Draw(Some(horizon))] + rest)[1..] == draws && draws[1..] == rest;
    var q := p.(loaded := false);
    assert Drawn(q, draws) == [horizon + 1] + Drawn(Position(horizon + 2, true), rest);
  }

  /** The use reads the account from Horizon. */
  predicate Seeds(p: Position, u: Use) { u.Draw? && !p.loaded && u.horizon.Some? }

  function Later(last: Option<int>, n: Option<int>): Option<int> { if n.Some? then n else last }

  /** Every seeding sees the account at the last number drawn, or past it. */
  ghost predicate SeedsFresh(p: Position, uses: seq<Use>, last: Option<int>)
    decreases |uses|
  {
    uses != [] ==>
      var (q, n) := Used(p, uses[0]);
      && (Seeds(p, uses[0]) && last.Some? ==> last.value <= uses[0].horizon.value)
      && SeedsFresh(q, uses[1..], Later(last, n))
  }

  ghost predicate Increasing(d: seq<int>) { forall i, j :: 0 <= i < j < |d| ==> d[i] < d[j] }

  lemma IncreasingFrom(n: int, d: seq<int>)
    ensures Increasing([n] + d) <==> Increasing(d) && (d != [] ==> n < d[0])
  {
    var e := [n] + d;
    if Increasing(e) {
      forall i, j | 0 <= i < j < |d| ensures d[i] < d[j] { assert e[i + 1] < e[j + 1]; }
      if d != [] { assert e[0] < e[1]; }
    }
  }

  lemma {:induction false} IncreasingAfter(p: Position, uses: seq<Use>, last: Option<int>)
    requires p.loaded && last.Some? ==> last.value < p.next
    ensures var d := Drawn(p, uses);
            Increasing(d) && (last.Some? && d != [] ==> last.value < d[0]) <==> SeedsFresh(p, uses, last)
    decreases |uses|
  {
    if uses != [] {
      var (q, n) := Used(p, uses[0]);
      var d := Drawn(q, uses[1..]);
      IncreasingAfter(q, uses[1..], Later(last, n));
      if n.Some? {
        IncreasingFrom(n.value, d);
      } else {
        assert Drawn(p, uses) == d;
      }
    }
  }

  /** Over every history the numbers strictly increase if and only if every
      seeding sees the account at the last number drawn, or past it. */
  lemma IncreasingIffSeedsFresh(p: Position, uses: seq<Use>)
    ensures Increasing(Drawn(p, uses)) <==> SeedsFresh(p, uses, None)
  {
    IncreasingAfter(p, uses, None);
  }

  /** Horizon's view of the account never goes back: each seeding sees at least
      what the one before it saw. */
  ghost predicate Rising(p: Position, uses: seq<Use>, floor: int)
    decreases |uses|
  {
    uses != [] ==>
      var q := Used(p, uses[0]).0;
      if Seeds(p, uses[0]) then floor <= uses[0].horizon.value && Rising(q, uses[1..], uses[0].horizon.value)
      else Rising(q, uses[1..], floor)
  }

  ghost predicate Distinct(d: seq<int>) { forall i, j :: 0 <= i < j < |d| ==> d[i] != d[j] }

  ghost predicate Avoids(d: seq<int>, seen: set<int>) { forall i :: 0 <= i < |d| ==> d[i] !in seen }

  lemma DistinctFrom(n: int, d: seq<int>, seen: set<int>)
    ensures Distinct([n] + d) && Avoids([n] + d, seen) <==> n !in seen && Distinct(d) && Avoids(d, seen + {n})
  {
    var e := [n] + d;
    assert forall i :: 0 <= i < |d| ==> d[i] == e[i + 1];
    assert e[0] == n;
  }

  /** What has been drawn: everything since the last seeding, nothing later. */
  ghost predicate Drew(p: Position, floor: int, seen: set<int>, last: Option<int>) {
    if last.None? then seen == {} && (p.loaded ==> p.next == floor + 1)
    else
      && (forall x :: x in seen ==> x <= last.value) && (forall x :: floor < x <= last.value ==> x in seen)
      && floor < last.value && (p.loaded ==> p.next == last.value + 1)
  }

  lemma {:induction false} DistinctAfter(p: Position, uses: seq<Use>, floor: int, seen: set<int>, last: Option<int>)
    requires Rising(p, uses, floor) && Drew(p, floor, seen, last)
    ensures Distinct(Drawn(p, uses)) && Avoids(Drawn(p, uses), seen) <==> SeedsFresh(p, uses, last)
    decreases |uses|
  {
    if uses != [] {
      var (q, n) := Used(p, uses[0]);
      var d := Drawn(q, uses[1..]);
      if n.None? {
        assert Drawn(p, uses) == d;
        DistinctAfter(q, uses[1..], floor, seen, last);
      } else {
        DistinctFrom(n.value, d, seen);
        if n.value !in seen {
          var low := if p.loaded then floor else uses[0].horizon.value;
          DistinctAfter(q, uses[1..], low, seen + {n.value}, n);
        }
      }
    }
  }

  /** While Horizon never goes back, a number is handed out twice if and only if
      some seeding sees the account short of the last number drawn: the ledger
      holding it has not closed. */
  lemma RepeatsIffSeedStale(p: Position, uses: seq<Use>, floor: int)
    requires Rising(p, uses, floor) && (p.loaded ==> p.next == floor + 1)
    ensures Distinct(Drawn(p, uses)) <==> SeedsFresh(p, uses, None)
  {
    DistinctAfter(p, uses, floor, {}, None);
  }

  class PoolSequencer {
    var pools: map<string, Position>

    function Of(address: string): Position reads this {
      if address in pools then pools[address] else Position(0, false)
    }

    constructor ()
      ensures pools == map[]
    {
      pools := map[];
    }

    method Next(address: string, horizon: Option<int>) returns (number: Option<int>)
      modifies this
      ensures (Of(address), number) == Used(old(Of(address)), Draw(horizon))
      ensures old(Of(address)).loaded ==> number == Some(old(Of(address)).next)
      ensures !old(Of(address)).loaded ==> number == if horizon.None? then None else Some(horizon.value + 1)
      ensures Of(address) == if number.None? then old(Of(address)) else Position(number.value + 1, true)
      ensures forall other :: other != address ==> Of(other) == old(Of(other))
    {
      var p := Of(address);
      if !p.loaded {
        if horizon.None? {
          return None;
        }
        p := Position(horizon.value + 1, true);
      }
      number := Some(p.next);
      pools := pools[address := p.(next := p.next + 1)];
    }

    method Resynced(address: string)
      modifies this
      ensures Of(address) == Used(old(Of(address)), Resync).0 && !Of(address).loaded
      ensures forall other :: other != address ==> Of(other) == old(Of(other))
    {
      pools := pools[address := Of(address).(loaded := false)];
    }
  }
}
