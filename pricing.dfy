/**
 * What the three pricing calculators share: reading the follower count
 * and the engagement rate out of the form's text, the five follower
 * brackets, the spread of a range around a recommended price, and the
 * example deals built from reference records.
 */
module Pricing {
  import opened Wrappers
  import opened Numeric
  import opened Text
  import opened Types

  /**
   * `parseFloat(engagementRate)`, supplied by the caller: `None` stands
   * for NaN, which compares false with every number.
   */
  type Rate = Option<real>

  predicate Above(e: Rate, x: real) {
    e.Some? && e.value > x
  }

  predicate Below(e: Rate, x: real) {
    e.Some? && e.value < x
  }

  /** `parseInt(text.replace(/[^0-9]/g, ''))`: every digit of the text, read as one number. */
  function FollowerNumber(text: string): (n: Option<nat>)
    ensures n.None? <==> forall i :: 0 <= i < |text| ==> !IsDigit(text[i])
    ensures AllDigits(text) && text != [] ==> n == Some(DecimalValue(text))
  {
    ParseDigits(text)
  }

  /** A thousands separator is dropped: "25,000" reads as 25000. */
  lemma FollowerNumberGrouped()
    ensures FollowerNumber("25,000") == Some(25000)
  {
    ParseDigitsGrouped();
  }

  /** A suffix letter is dropped, not applied: "25K" reads as 25. */
  lemma FollowerNumberSuffixed()
    ensures FollowerNumber("25K") == Some(25)
  {
    ParseDigitsSuffixed();
  }

  /** The lower bounds of brackets 1 to 4. */
  function Threshold(i: nat): nat
    requires i < 4
  {
    [10000, 50000, 100000, 500000][i]
  }

  /**
   * The bracket of a follower count: below 10k, 50k, 100k, 500k, or above.
   * A count that is NaN fails every `<` test and lands in the top bracket.
   */
  function Tier(followers: Option<nat>): (t: nat)
    ensures t < 5
    ensures followers.None? ==> t == 4
    ensures followers.Some? ==>
      && (t == 0 || Threshold(t - 1) <= followers.value)
      && (t == 4 || followers.value < Threshold(t))
  {
    match followers
    case None => 4
    case Some(f) =>
      if f < 10000 then 0
      else if f < 50000 then 1
      else if f < 100000 then 2
      else if f < 500000 then 3
      else 4
  }

  /** More followers never means a lower bracket. */
  lemma TierMonotone(a: nat, b: nat)
    requires a <= b
    ensures Tier(Some(a)) <= Tier(Some(b))
  {
  }

  /** A range around `rec`: `min = round(rec * low)`, `max = round(rec * high)`. */
  function Spread(rec: int, low: real, high: real): PriceRange {
    PriceRange(Round(rec as real * low), Round(rec as real * high), rec)
  }

  /** With `low <= 1 <= high`, a non-negative recommendation sits inside its range. */
  lemma SpreadOrdered(rec: nat, low: real, high: real)
    requires 0.0 <= low <= 1.0 <= high
    ensures 0 <= Spread(rec, low, high).min <= rec <= Spread(rec, low, high).max
  {
    ScaleBounds(rec as real, low, high);
    RoundInt(0);
    RoundInt(rec);
    RoundMonotone(0.0, rec as real * low);
    RoundMonotone(rec as real * low, rec as real);
    RoundMonotone(rec as real, rec as real * high);
  }

  lemma ScaleBounds(x: real, low: real, high: real)
    requires 0.0 <= x && 0.0 <= low <= 1.0 <= high
    ensures 0.0 <= x * low <= x <= x * high
  {
  }

  /** A price of zero spreads to a range of zeros. */
  lemma SpreadOfZero(low: real, high: real)
    ensures Spread(0, low, high) == PriceRange(0, 0, 0)
  {
    RoundInt(0);
  }

  /** `influencerData.slice(0, 3).map(...)`: up to three reference records as example deals. */
  function ExampleDeals(data: seq<InfluencerData>): (deals: seq<ExampleDeal>)
    ensures |deals| == |Take(data, 3)|
    ensures forall i :: 0 <= i < |deals| ==>
      deals[i] == ExampleDeal(data[i].platform, data[i].followerCount, data[i].pricingExample,
                              data[i].niche + " creator with " + data[i].engagementRate + " engagement")
  {
    Deals(Take(data, 3))
  }

  function Deals(data: seq<InfluencerData>): (deals: seq<ExampleDeal>)
    ensures |deals| == |data|
    ensures forall i :: 0 <= i < |deals| ==>
      deals[i] == ExampleDeal(data[i].platform, data[i].followerCount, data[i].pricingExample,
                              data[i].niche + " creator with " + data[i].engagementRate + " engagement")
  {
    if data == [] then []
    else
      [ExampleDeal(data[0].platform, data[0].followerCount, data[0].pricingExample,
                   data[0].niche + " creator with " + data[0].engagementRate + " engagement")]
        + Deals(data[1..])
  }
}
