/** A submitter's whole path, with anything else happening between its calls, is
    part of one run of the sponsor. */
module SubmitterRuns {
  import opened Common
  import opened Ledger
  import opened SponsorTable
  import opened Sponsor
  import opened SponsorTheorems
  import opened Submitter

  /** Not a step of the submitter of request i. */
  predicate Foreign(e: Event, i: nat) { !(e.SubmitterDoes? && e.i == i) && !(e.SubmitterDies? && e.i == i) }

  /** The submitter's own part of its slot. */
  predicate SameSubmitter(s: Slot, t: Slot) {
    t.call == s.call && t.resource == s.resource && t.phase == s.phase && t.beat == s.beat
  }

  lemma ForeignKeeps(cfg: Config, s: State, e: Event, i: nat)
    requires i < |s.slots| && Foreign(e, i) && Apply(cfg, s, e).Some?
    ensures var t := Apply(cfg, s, e).value; i < |t.slots| && SameSubmitter(s.slots[i], t.slots[i])
  {
  }

  lemma {:induction false} ForeignRunKeeps(cfg: Config, s: State, events: seq<Event>, i: nat)
    requires i < |s.slots| && (forall e :: e in events ==> Foreign(e, i)) && Run(cfg, s, events).Some?
    ensures var t := Run(cfg, s, events).value; i < |t.slots| && SameSubmitter(s.slots[i], t.slots[i])
    ensures Reachable(cfg, s) ==> Reachable(cfg, Run(cfg, s, events).value)
    decreases |events|
  {
    if events != [] {
      ForeignKeeps(cfg, s, events[0], i);
      var t := Apply(cfg, s, events[0]).value;
      if Reachable(cfg, s) { var _ := Take(cfg, s, events[0]); }
      ForeignRunKeeps(cfg, t, events[1..], i);
    }
  }

  /** The state after the calls, each preceded by events of others. */
  ghost function Woven(
    cfg: Config, s: State, i: nat, calls: seq<(World, Action)>, between: seq<seq<Event>>): Option<State>
    requires |between| == |calls|
    decreases |calls|
  {
    if calls == [] then Some(s)
    else
      var n := |calls| - 1;
      var u := Woven(cfg, s, i, calls[..n], between[..n]);
      var v := if u.None? then None else Run(cfg, u.value, between[n]);
      if v.None? then None else Apply(cfg, v.value, SubmitterDoes(i, calls[n].1))
  }

  /** The call finds the world as it is, and writes a hash in time if it does. */
  ghost predicate Meets(cfg: Config, s: State, i: nat, w: World, a: Action) {
    && i < |s.slots| && w.now == s.now && w.chain == s.chain
    && w.rec == s.slots[i].rec && w.listed == s.slots[i].listed && w.decided == s.slots[i].decided
    && (Hashes(s.slots[i], a) ==> s.now <= s.slots[i].Deadline(cfg))
  }

  /** What happens between the calls can happen, is done by others, and leaves the
      worlds the calls were made in. */
  ghost predicate Fits(cfg: Config, s: State, i: nat, calls: seq<(World, Action)>, between: seq<seq<Event>>)
    requires |between| == |calls|
    decreases |calls|
  {
    calls != [] ==>
      var n := |calls| - 1;
      && Fits(cfg, s, i, calls[..n], between[..n]) && (forall e :: e in between[n] ==> Foreign(e, i))
      && var u := Woven(cfg, s, i, calls[..n], between[..n]);
         u.Some? ==>
           var v := Run(cfg, u.value, between[n]);
           v.Some? && Meets(cfg, v.value, i, calls[n].0, calls[n].1)
  }

  /** Every call of the path can then be made in turn, the run ends with the slot
      the path ends with, and all of it is reachable from where it started. */
  lemma {:induction false} PathIsRun(
    cfg: Config, s: State, i: nat, calls: seq<(World, Action)>, between: seq<seq<Event>>)
    requires |between| == |calls| && i < |s.slots| && Path(cfg, s.slots[i], calls).Some?
    requires Fits(cfg, s, i, calls, between)
    ensures var t := Woven(cfg, s, i, calls, between);
            && t.Some? && i < |t.value.slots| && t.value.slots[i] == Path(cfg, s.slots[i], calls).value
            && (Reachable(cfg, s) ==> Reachable(cfg, t.value))
    decreases |calls|
  {
    if calls != [] {
      var n := |calls| - 1;
      var (w, a) := calls[n];
      PathIsRun(cfg, s, i, calls[..n], between[..n]);
      var u := Woven(cfg, s, i, calls[..n], between[..n]).value;
      ForeignRunKeeps(cfg, u, between[n], i);
      CallIsEvent(cfg, Run(cfg, u, between[n]).value, i, Path(cfg, s.slots[i], calls[..n]).value, w, a);
    }
  }
}
