/** Forward mode's fees: converting a network cost into the user's token, the
    quote the user signs, and the price both are computed from. Amounts are
    exact; a price is a real number. */
module Fees {
  import opened Common
  import opened FeeBump

  function Ceiling(x: real): (n: int)
    ensures (n - 1) as real < x <= n as real
  {
    -((-x).Floor)
  }

  /** stroops × (1 + margin) × price; XLM itself needs no price. */
  function ExactFee(native: bool, marginBps: nat, price: real, stroops: int): real {
    var withMargin := (stroops * (10_000 + marginBps)) as real / 10_000.0;
    if native then withMargin else withMargin * price
  }

  datatype FeeError = NegativeCost | PriceUnavailable | Overflow | Implausible | TooLow

  datatype Fee = Amount(units: int) | Refused(why: FeeError)

  /** FeeInToken, with the price xlmUSD returned, if it returned one. */
  function FeeInToken(native: bool, marginBps: nat, price: Option<real>, stroops: int): Fee {
    if stroops < 0 then Refused(NegativeCost)
    else if !native && price.None? then Refused(PriceUnavailable)
    else
      var q := Ceiling(ExactFee(native, marginBps, if native then 1.0 else price.value, stroops));
      if q > MAX_INT64 then Refused(Overflow) else Amount(if q < 1 then 1 else q)
  }

  lemma MultiplyMono(a: real, b: real, c: real, d: real)
    requires 0.0 <= a <= b && 0.0 <= c <= d
    ensures 0.0 <= a * c <= b * d
  {
    assert a * c <= b * c;
    assert b * c <= b * d;
  }

  lemma ExactFeeMono(native: bool, marginBps: nat, price: real, price': real, stroops: nat, stroops': nat)
    requires 0.0 <= price <= price' && stroops <= stroops'
    ensures 0.0 <= ExactFee(native, marginBps, price, stroops) <= ExactFee(native, marginBps, price', stroops')
  {
    var k := 10_000 + marginBps;
    assert stroops * k <= stroops' * k;
    MultiplyMono((stroops * k) as real / 10_000.0, (stroops' * k) as real / 10_000.0, price, price');
  }

  /** n is a positive whole amount no less than the exact cost. */
  predicate Covers(n: int, x: real) { 1 <= n && x <= n as real }

  /** The exact fee is cost times one plus the margin, times the price. */
  lemma ExactFeeIs(native: bool, marginBps: nat, price: real, stroops: int)
    ensures ExactFee(native, marginBps, if native then 1.0 else price, stroops)
            == stroops as real * (1.0 + marginBps as real / 10_000.0) * (if native then 1.0 else price)
  {
    assert (stroops * (10_000 + marginBps)) as real == stroops as real * (10_000.0 + marginBps as real);
    assert stroops as real * (10_000.0 + marginBps as real) / 10_000.0
        == stroops as real * (1.0 + marginBps as real / 10_000.0);
  }

  /** Why a fee is refused: a negative cost, no price where one is needed, or no
      amount within int64 that covers the exact cost. */
  lemma FeeRefusedIff(native: bool, marginBps: nat, price: Option<real>, stroops: int)
    ensures var fee := FeeInToken(native, marginBps, price, stroops);
            var priced := native || price.Some?;
            var x := ExactFee(native, marginBps, if native || price.None? then 1.0 else price.value, stroops);
            && (fee == Refused(NegativeCost) <==> stroops < 0)
            && (fee == Refused(PriceUnavailable) <==> stroops >= 0 && !priced)
            && (fee == Refused(Overflow) <==> stroops >= 0 && priced && forall n :: Covers(n, x) ==> n > MAX_INT64)
            && (fee.Refused? ==> fee.why in {NegativeCost, PriceUnavailable, Overflow})
  {
    if stroops >= 0 && (native || price.Some?) {
      var x := ExactFee(native, marginBps, if native then 1.0 else price.value, stroops);
      var q := Ceiling(x);
      if q <= MAX_INT64 { assert Covers(if q < 1 then 1 else q, x); }
      forall n | Covers(n, x) ensures q <= n { assert (q - 1) as real < n as real; }
    }
  }

  /** The fee covers the exact cost, and no smaller positive amount does. */
  lemma FeeIsLeastCover(native: bool, marginBps: nat, price: real, stroops: int)
    requires FeeInToken(native, marginBps, Some(price), stroops).Amount?
    ensures var fee := FeeInToken(native, marginBps, Some(price), stroops).units;
            var x := stroops as real * (1.0 + marginBps as real / 10_000.0) * (if native then 1.0 else price);
            && fee <= MAX_INT64 && Covers(fee, x)
            && forall n :: Covers(n, x) ==> fee <= n
  {
    var x := ExactFee(native, marginBps, if native then 1.0 else price, stroops);
    ExactFeeIs(native, marginBps, price, stroops);
    forall n | Covers(n, x) ensures FeeInToken(native, marginBps, Some(price), stroops).units <= n {
      assert (Ceiling(x) - 1) as real < n as real;
    }
  }

  /** Monotone in cost and price: a dearer fee that fits means a cheaper one fits. */
  lemma FeeMonotone(native: bool, marginBps: nat, price: real, price': real, stroops: nat, stroops': nat)
    requires 0.0 <= price <= price' && stroops <= stroops'
    requires FeeInToken(native, marginBps, Some(price'), stroops').Amount?
    ensures FeeInToken(native, marginBps, Some(price), stroops).Amount?
    ensures FeeInToken(native, marginBps, Some(price), stroops).units
            <= FeeInToken(native, marginBps, Some(price'), stroops').units
  {
    var p, p' := if native then 1.0 else price, if native then 1.0 else price';
    ExactFeeMono(native, marginBps, p, p', stroops, stroops');
    var x, y := ExactFee(native, marginBps, p, stroops), ExactFee(native, marginBps, p', stroops');
    assert (Ceiling(x) - 1) as real < Ceiling(y) as real;
  }

  // ---- The quote ----

  const MAX_RESOURCE_FEE: nat := 1_000_000_000

  /** Quote's max_fee_amount for a simulated resource fee. */
  function Quote(native: bool, marginBps: nat, price: Option<real>, cap: nat, resourceFee: int): Fee {
    if resourceFee < 0 || resourceFee > MAX_RESOURCE_FEE then Refused(Implausible)
    else FeeInToken(native, marginBps, price, MaxBid(cap, resourceFee))
  }

  /** feeFor: what the submission charges, refused above the signed maximum. */
  function FeeFor(
    native: bool, marginBps: nat, price: Option<real>, inclusion: nat, resourceFee: int, maxFee: int): Fee {
    if resourceFee < 0 || resourceFee > MAX_RESOURCE_FEE then Refused(Implausible)
    else
      var fee := FeeInToken(native, marginBps, price, 2 * inclusion + resourceFee);
      if fee.Amount? && fee.units > maxFee then Refused(TooLow) else fee
  }

  /** A submission is priced exactly when its resource fee is plausible, its cost has
      a fee, and that fee is within the signed maximum; only the last is TooLow. */
  lemma PricedIff(
    native: bool, marginBps: nat, price: Option<real>, inclusion: nat, resourceFee: int, maxFee: int)
    ensures var fee := FeeFor(native, marginBps, price, inclusion, resourceFee, maxFee);
            var cost := FeeInToken(native, marginBps, price, 2 * inclusion + resourceFee);
            && (fee == Refused(Implausible) <==> !(0 <= resourceFee <= 1_000_000_000))
            && (fee.Amount? ==> fee == cost && fee.units <= maxFee)
            && (fee == Refused(TooLow) <==> 0 <= resourceFee <= 1_000_000_000 && cost.Amount? && cost.units > maxFee)
  {
    FeeRefusedIff(native, marginBps, price, 2 * inclusion + resourceFee);
  }

  /** A quoted maximum is enough: a later submission whose resource fee and price
      are no higher is priced, never refused, whatever inclusion fee the network
      statistics lead to. */
  lemma QuoteIsEnough(
    native: bool, marginBps: nat, price: real, price': real, cap: nat, p90: Option<int>, quoted: int,
    resourceFee: nat)
    requires CapFits(cap) && 0.0 <= price' <= price && resourceFee <= quoted
    requires Quote(native, marginBps, Some(price), cap, quoted).Amount?
    ensures var maxFee := Quote(native, marginBps, Some(price), cap, quoted).units;
            FeeFor(native, marginBps, Some(price'), InclusionFee(p90, cap), resourceFee, maxFee).Amount?
  {
    FeeMonotone(native, marginBps, price', price, 2 * InclusionFee(p90, cap) + resourceFee, MaxBid(cap, quoted));
  }

  /** And it is no more than is needed: a submission at the cap is charged all of it. */
  lemma QuoteIsReached(native: bool, marginBps: nat, price: Option<real>, cap: nat, resourceFee: nat)
    requires CapFits(cap) && resourceFee <= 1_000_000_000 && 2 * cap + resourceFee <= MAX_INT64
    requires Quote(native, marginBps, price, cap, resourceFee).Amount?
    ensures var maxFee := Quote(native, marginBps, price, cap, resourceFee).units;
            FeeFor(native, marginBps, price, cap, resourceFee, maxFee) == Amount(maxFee)
  {
  }

  /** The bid at `later` costs no more than the priced one with its margin. */
  predicate WithinMargin(marginBps: nat, inclusion: nat, later: nat, resourceFee: nat) {
    (2 * later + resourceFee) * 10_000 <= (2 * inclusion + resourceFee) * (10_000 + marginBps)
  }

  /** What the user reimburses is priced at the first inclusion fee, while a run may
      raise it. In any token the fee covers, at the price used, the first bid and
      every later one within the margin; and it stays within the signed maximum. */
  lemma FeeCoversBids(
    native: bool, marginBps: nat, price: Option<real>, inclusion: nat, later: nat, resourceFee: nat, maxFee: int)
    requires price.Some? ==> 0.0 <= price.value
    requires FeeFor(native, marginBps, price, inclusion, resourceFee, maxFee).Amount?
    requires BidOf(later, resourceFee).Some?
             && (later == inclusion || WithinMargin(marginBps, inclusion, later, resourceFee))
    ensures var units := FeeFor(native, marginBps, price, inclusion, resourceFee, maxFee).units;
            var bid := BidOf(later, resourceFee).value as real;
            (if native then bid else bid * price.value) <= units as real && units <= maxFee
  {
    var cost, bid := 2 * inclusion + resourceFee, 2 * later + resourceFee;
    var p := if native then 1.0 else price.value;
    var withMargin := (cost * (10_000 + marginBps)) as real / 10_000.0;
    assert cost * (10_000 + marginBps) >= cost * 10_000;
    assert withMargin >= bid as real;
    MultiplyMono(bid as real, withMargin, p, p);
  }

  /** In XLM exactly: a later bid is covered if and only if the stroop before it is
      still below the priced cost with its margin. */
  lemma LaterBidCoveredIff(marginBps: nat, inclusion: nat, later: nat, resourceFee: nat, maxFee: int)
    requires FeeFor(true, marginBps, None, inclusion, resourceFee, maxFee).Amount? && BidOf(later, resourceFee).Some?
    ensures BidOf(later, resourceFee).value <= FeeFor(true, marginBps, None, inclusion, resourceFee, maxFee).units
       <==> (2 * later + resourceFee - 1) * 10_000 < (2 * inclusion + resourceFee) * (10_000 + marginBps)
  {
    var exact := (2 * inclusion + resourceFee) * (10_000 + marginBps);
    var x := exact as real / 10_000.0;
    var bid := 2 * later + resourceFee;
    assert Ceiling(x) >= bid <==> (bid - 1) as real < x;
  }

  /** So with no resource fee a doubled bid is not covered under any margin below
      99.5 per cent. */
  lemma DoubledBidUncovered(marginBps: nat, inclusion: nat, maxFee: int)
    requires MIN_BASE_FEE <= inclusion && marginBps < 9_950
    requires FeeFor(true, marginBps, None, inclusion, 0, maxFee).Amount? && BidOf(2 * inclusion, 0).Some?
    ensures FeeFor(true, marginBps, None, inclusion, 0, maxFee).units < BidOf(2 * inclusion, 0).value
  {
    LaterBidCoveredIff(marginBps, inclusion, 2 * inclusion, 0, maxFee);
    MarginTooSmall(marginBps, inclusion);
  }

  lemma MarginTooSmall(marginBps: nat, inclusion: nat)
    requires MIN_BASE_FEE <= inclusion && marginBps < 9_950
    ensures (4 * inclusion - 1) * 10_000 >= 2 * inclusion * (10_000 + marginBps)
  {
    assert inclusion * marginBps <= inclusion * 9_949;
    assert 2 * inclusion * (10_000 + marginBps) == 20_000 * inclusion + 2 * (inclusion * marginBps);
  }

  // ---- The price ----

  /** xlmUSD: a plausible price from the feed, else the last good one while it is
      fresh. Zero bounds are unset; a failed or non-numeric feed is None. */
  class PriceGuard {
    const minimum: real
    const maximum: real
    const maxStale: nat
    var lastGood: real
    var lastGoodAt: int

    predicate Plausible(p: real) {
      0.0 < p && (minimum > 0.0 ==> minimum <= p) && (maximum > 0.0 ==> p <= maximum)
    }

    ghost predicate Valid() reads this { lastGood > 0.0 ==> Plausible(lastGood) }

    constructor (minimum: real, maximum: real, maxStale: nat)
      ensures Valid() && lastGood == 0.0
      ensures this.minimum == minimum && this.maximum == maximum && this.maxStale == maxStale
    {
      this.minimum, this.maximum, this.maxStale := minimum, maximum, maxStale;
      lastGood, lastGoodAt := 0.0, 0;
    }

    /** An implausible price is never used: whatever is returned is inside the
        bounds and was reported by the feed now or at most maxStale ago. */
    method XlmUsd(feed: Option<real>, now: int) returns (price: Option<real>)
      requires Valid()
      modifies this`lastGood, this`lastGoodAt
      ensures Valid()
      ensures price.Some? ==> Plausible(price.value)
      ensures feed.Some? && Plausible(feed.value) ==> price == feed && lastGood == feed.value && lastGoodAt == now
      ensures !(feed.Some? && Plausible(feed.value)) ==>
                && lastGood == old(lastGood) && lastGoodAt == old(lastGoodAt)
                && price == if lastGood > 0.0 && now - lastGoodAt <= maxStale then Some(lastGood) else None
    {
      if feed.Some? && Plausible(feed.value) {
        lastGood, lastGoodAt := feed.value, now;
        price := feed;
      } else if lastGood > 0.0 && now - lastGoodAt <= maxStale {
        price := Some(lastGood);
      } else {
        price := None;
      }
    }
  }
}
