/** What a fee-bump bids, and the most a sponsored submission can bid. */
module FeeBump {
  import opened Common

  const MIN_BASE_FEE: nat := 100
  const MAX_UINT32: nat := 0xFFFF_FFFF
  const MAX_INT64: nat := 0x7FFF_FFFF_FFFF_FFFF

  /** AtInnerRate: the inner transaction's inclusion rate, rounded up, for one
      more operation than it has, plus its resource fee once. */
  function AtInnerRate(innerFee: nat, resourceFee: int, ops: nat): Option<int> {
    var inclusion := innerFee - resourceFee;
    if ops == 0 || inclusion < ops * MIN_BASE_FEE then None
    else
      var rate := (inclusion + ops - 1) / ops;
      Some(rate * (ops + 1) + resourceFee)
  }

  /** The rate rule of CAP-0015 for an inclusion bid over ops + 1 operations: no
      lower per operation than the inner transaction's, nor than the minimum. */
  predicate MeetsRate(bid: int, inclusion: int, ops: nat) {
    bid * ops >= inclusion * (ops + 1) && bid >= MIN_BASE_FEE * (ops + 1)
  }

  lemma CancelLess(a: int, b: int, c: nat)
    requires a * c < b * c
    ensures a < b
  {
  }

  lemma CancelLessReal(a: real, b: real, c: real)
    requires 0.0 < c && a * c < b * c
    ensures a < b
  {
  }

  /** The rounded-up quotient, and when it is exact. */
  lemma CeilingOf(inclusion: nat, ops: nat)
    requires 0 < ops
    ensures var rate := (inclusion + ops - 1) / ops;
            && inclusion <= rate * ops < inclusion + ops
            && (inclusion % ops == 0 <==> rate * ops == inclusion)
  {
    var rate, left := (inclusion + ops - 1) / ops, (inclusion + ops - 1) % ops;
    assert rate * ops + left == inclusion + ops - 1;
    var q, m := inclusion / ops, inclusion % ops;
    assert inclusion == q * ops + m;
    // m + ops - 1 is either below ops or one ops above left
    assert (rate - q) * ops == m + ops - 1 - left;
    if m == 0 {
      CancelLess(rate - q, 1, ops);
      CancelLess(-1, rate - q, ops);
    } else {
      CancelLess(0, rate - q, ops);
      CancelLess(rate - q, 2, ops);
    }
  }

  /** For any operation count the bid meets the rule, counts the resource fee
      once, and overshoots the real-valued minimum by less than ops + 1. */
  lemma BidMeetsRule(innerFee: nat, resourceFee: int, ops: nat)
    requires AtInnerRate(innerFee, resourceFee, ops).Some?
    ensures var inclusion := innerFee - resourceFee;
            var bid := AtInnerRate(innerFee, resourceFee, ops).value - resourceFee;
            && MeetsRate(bid, inclusion, ops)
            && bid as real - (inclusion * (ops + 1)) as real / ops as real < (ops + 1) as real
  {
    var inclusion := innerFee - resourceFee;
    CeilingOf(inclusion, ops);
    RateMeetsRule((inclusion + ops - 1) / ops, inclusion, ops);
  }

  lemma RateMeetsRule(rate: nat, inclusion: int, ops: nat)
    requires 0 < ops && inclusion >= ops * MIN_BASE_FEE && inclusion <= rate * ops < inclusion + ops
    ensures MeetsRate(rate * (ops + 1), inclusion, ops)
    ensures (rate * (ops + 1)) as real - (inclusion * (ops + 1)) as real / ops as real < (ops + 1) as real
  {
    Scaled(rate, inclusion, ops);
    CancelLess(MIN_BASE_FEE - 1, rate, ops);
    assert rate * (ops + 1) >= MIN_BASE_FEE * (ops + 1);
    RealOvershoot(rate * (ops + 1), inclusion * (ops + 1), ops);
  }

  lemma Scaled(rate: nat, inclusion: int, ops: nat)
    requires inclusion <= rate * ops < inclusion + ops
    ensures rate * (ops + 1) * ops == rate * ops * (ops + 1)
    ensures inclusion * (ops + 1) <= rate * (ops + 1) * ops < inclusion * (ops + 1) + ops * (ops + 1)
    ensures rate * ops != inclusion ==> inclusion * (ops + 1) <= (rate * (ops + 1) - 1) * ops
  {
    var x := rate * ops;
    assert rate * (ops + 1) * ops == x * (ops + 1);
    var d := x - inclusion;
    assert x * (ops + 1) == inclusion * (ops + 1) + d * (ops + 1);
    assert d * (ops + 1) < ops * (ops + 1);
    assert (rate * (ops + 1) - 1) * ops == x * (ops + 1) - ops;
    if d != 0 { assert d * (ops + 1) >= ops + 1; }
  }

  lemma RealOvershoot(bid: int, need: int, ops: nat)
    requires 0 < ops && bid * ops < need + ops * (ops + 1)
    ensures bid as real - need as real / ops as real < (ops + 1) as real
  {
    var b, n, o := bid as real, need as real, ops as real;
    assert b * o == (bid * ops) as real;
    assert o * (o + 1.0) == (ops * (ops + 1)) as real;
    var x := n / o;
    assert x * o == n;
    CancelLessReal(b - x, o + 1.0, o);
  }

  /** It is the least bid meeting the rule if and only if the inner inclusion
      fee divides evenly among its operations. */
  lemma BidMinimalIffEven(innerFee: nat, resourceFee: int, ops: nat)
    requires AtInnerRate(innerFee, resourceFee, ops).Some?
    ensures var inclusion := innerFee - resourceFee;
            var bid := AtInnerRate(innerFee, resourceFee, ops).value - resourceFee;
            (forall other :: MeetsRate(other, inclusion, ops) ==> bid <= other) <==> inclusion % ops == 0
  {
    var inclusion := innerFee - resourceFee;
    var rate := (inclusion + ops - 1) / ops;
    CeilingOf(inclusion, ops);
    Scaled(rate, inclusion, ops);
    if inclusion % ops == 0 {
      forall other | MeetsRate(other, inclusion, ops) ensures rate * (ops + 1) <= other {
        EvenIsLeast(rate, inclusion, ops, other);
      }
    } else {
      OneLessWouldDo(rate, inclusion, ops);
    }
  }

  lemma EvenIsLeast(rate: nat, inclusion: int, ops: nat, other: int)
    requires 0 < ops && rate * ops == inclusion && MeetsRate(other, inclusion, ops)
    ensures rate * (ops + 1) <= other
  {
    assert inclusion * (ops + 1) == (rate * (ops + 1)) * ops;
    assert (rate * (ops + 1) - 1) * ops == inclusion * (ops + 1) - ops;
    CancelLess(rate * (ops + 1) - 1, other, ops);
  }

  lemma OneLessWouldDo(rate: nat, inclusion: int, ops: nat)
    requires 0 < ops && inclusion >= ops * MIN_BASE_FEE && inclusion < rate * ops < inclusion + ops
    ensures MeetsRate(rate * (ops + 1) - 1, inclusion, ops)
  {
    Scaled(rate, inclusion, ops);
    CancelLess(MIN_BASE_FEE, rate, ops);
    assert rate * (ops + 1) >= (MIN_BASE_FEE + 1) * (ops + 1);
  }

  /** With one operation, what every relayed transaction has, the bid is exactly
      twice the inclusion fee plus the resource fee, and minimal. */
  lemma SingleOperationBid(innerFee: nat, resourceFee: int)
    requires innerFee - resourceFee >= MIN_BASE_FEE
    ensures AtInnerRate(innerFee, resourceFee, 1) == Some(2 * (innerFee - resourceFee) + resourceFee)
    ensures var inclusion := innerFee - resourceFee; forall other :: MeetsRate(other, inclusion, 1) ==>
            2 * inclusion <= other
  {
    BidMinimalIffEven(innerFee, resourceFee, 1);
  }

  // ---- The sponsor's own bids ----

  /** inclusionFee: the network's p90, at least the minimum, at most the cap. */
  function InclusionFee(p90: Option<int>, cap: nat): nat {
    var fee := if p90.Some? && p90.value > MIN_BASE_FEE then p90.value else MIN_BASE_FEE;
    if fee < cap then fee else cap
  }

  /** A fee at the cap, or both at the minimum and at what the network asks. */
  predicate Competes(fee: nat, p90: Option<int>, cap: nat) {
    fee >= cap || (fee >= MIN_BASE_FEE && (p90.Some? ==> fee >= p90.value))
  }

  /** The fee is the least that competes, so within the cap whatever is asked. */
  lemma InclusionFeeIsLeast(p90: Option<int>, cap: nat)
    ensures InclusionFee(p90, cap) <= cap && Competes(InclusionFee(p90, cap), p90, cap)
    ensures forall fee: nat :: Competes(fee, p90, cap) ==> InclusionFee(p90, cap) <= fee
  {
  }

  /** envelope and seal: the bid of a one-operation submission, if it is valid. */
  function BidOf(inclusion: nat, resourceFee: nat): (bid: Option<int>)
    ensures bid.Some? <==> MIN_BASE_FEE <= inclusion && inclusion + resourceFee <= MAX_UINT32
    ensures bid.Some? ==> bid.value == 2 * inclusion + resourceFee
  {
    if inclusion + resourceFee > MAX_UINT32 then None else AtInnerRate(inclusion + resourceFee, resourceFee, 1)
  }

  /** maxBid, which is what Reserve holds against the caps. */
  function MaxBid(cap: nat, resourceFee: nat): nat {
    if resourceFee > MAX_INT64 - 2 * cap then MAX_INT64 else 2 * cap + resourceFee
  }

  /** The sums stay inside int64. */
  predicate CapFits(cap: nat) { 2 * cap + MAX_UINT32 <= MAX_INT64 }

  /** Whatever the fee retries reach, no bid exceeds its reservation; and one at the
      cap reaches it, so no less would do. */
  lemma BidWithinReservation(inclusion: nat, cap: nat, resourceFee: nat)
    requires CapFits(cap) && inclusion <= cap && BidOf(inclusion, resourceFee).Some?
    ensures 0 <= BidOf(inclusion, resourceFee).value <= MaxBid(cap, resourceFee)
    ensures BidOf(inclusion, resourceFee).value == MaxBid(cap, resourceFee) <==> inclusion == cap
  {
    SingleOperationBid(inclusion + resourceFee, resourceFee);
  }
}
