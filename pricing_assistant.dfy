/**
 * The pricing assistant screen (`src/components/PricingAssistant.tsx`):
 * the form's state, the `calculatePricing` flow, and the price the catch
 * block computes on its own when the reference table cannot be loaded.
 *
 * The catch block has a third price table of its own: five follower
 * brackets with no platform and no niche in it, a single engagement step
 * above 4%, and a range of 0.7 to 1.4 times the recommendation.
 */
module PricingAssistant {
  import opened Wrappers
  import opened Numeric
  import opened Types
  import opened Store
  import opened Subscription
  import opened UserData
  import opened Pricing
  import opened ClientAi
  import opened FeatureFlow

  /** The catch block's price per follower bracket, the same for every platform. */
  const CatchTable: seq<nat> := [75, 200, 500, 1500, 5000]

  function CatchBase(followers: string): (b: nat)
    ensures b in CatchTable
  {
    CatchTable[Tier(FollowerNumber(followers))]
  }

  /** The catch block's brackets: below 10k, 50k, 100k, 500k, else; text without digits is NaN and lands in the last. */
  lemma CatchBrackets(followers: string)
    ensures var n := FollowerNumber(followers);
      && (n.None? ==> CatchBase(followers) == 5000)
      && (n.Some? && n.value < 10000 ==> CatchBase(followers) == 75)
      && (n.Some? && 10000 <= n.value < 50000 ==> CatchBase(followers) == 200)
      && (n.Some? && 50000 <= n.value < 100000 ==> CatchBase(followers) == 500)
      && (n.Some? && 100000 <= n.value < 500000 ==> CatchBase(followers) == 1500)
      && (n.Some? && 500000 <= n.value ==> CatchBase(followers) == 5000)
  {
  }

  /** The one engagement step: 1.3 exactly when the rate is above 4. */
  function CatchMultiplier(e: Rate): (m: real)
    ensures m == 1.3 <==> Above(e, 4.0)
    ensures m == 1.0 <==> !Above(e, 4.0)
  {
    if Above(e, 4.0) then 1.3 else 1.0
  }

  function CatchRecommended(followers: string, e: Rate): (rec: nat)
    ensures CatchBase(followers) <= rec
    ensures !Above(e, 4.0) ==> rec == CatchBase(followers)
  {
    var x := CatchBase(followers) as real * CatchMultiplier(e);
    RoundInt(CatchBase(followers));
    RoundMonotone(CatchBase(followers) as real, x);
    Round(x)
  }

  /** What a high engagement rate makes of each bracket's price. */
  lemma CatchRecommendedRaised(followers: string, e: Rate)
    requires Above(e, 4.0)
    ensures var b := CatchBase(followers);
      && (b == 75 ==> CatchRecommended(followers, e) == 98)
      && (b == 200 ==> CatchRecommended(followers, e) == 260)
      && (b == 500 ==> CatchRecommended(followers, e) == 650)
      && (b == 1500 ==> CatchRecommended(followers, e) == 1950)
      && (b == 5000 ==> CatchRecommended(followers, e) == 6500)
  {
    var b := CatchBase(followers);
    assert b as real * 1.3 == (b * 13) as real / 10.0;
  }

  function CatchReasoning(req: PricingRequest): string {
    "Based on similar creators with " + req.followerCount + " followers and " + req.engagementRate
      + "% engagement rate on " + req.platform + "."
  }

  /** The response the catch block builds from the form alone. */
  function CatchPathPricing(req: PricingRequest, e: Rate): (r: PricingResponse)
    ensures 0 <= r.suggestedRange.min <= r.suggestedRange.recommended <= r.suggestedRange.max
    ensures r.suggestedRange == Spread(CatchRecommended(req.followerCount, e), 0.7, 1.4)
    ensures "High engagement rate" in r.premiumFactors <==> Above(e, 4.0)
    ensures |r.premiumFactors| <= 1
    ensures r.premiumFactors == (if Above(e, 4.0) then ["High engagement rate"] else [])
    ensures r.reasoning == CatchReasoning(req)
    ensures r.exampleDeals == [] && r.matchedData == []
  {
    SpreadOrdered(CatchRecommended(req.followerCount, e), 0.7, 1.4);
    PricingResponse(Spread(CatchRecommended(req.followerCount, e), 0.7, 1.4), CatchReasoning(req), [],
                    if Above(e, 4.0) then ["High engagement rate"] else [], [])
  }

  /** Neither the platform nor the niche changes the catch block's price or factors. */
  lemma CatchPathIgnoresPlatformAndNiche(req: PricingRequest, platform: string, niche: string, e: Rate)
    ensures var other := CatchPathPricing(req.(platform := platform, niche := niche), e);
      && other.suggestedRange == CatchPathPricing(req, e).suggestedRange
      && other.premiumFactors == CatchPathPricing(req, e).premiumFactors
  {
  }

  /** The form is complete: followers, engagement and niche all filled in. */
  predicate Ready(req: PricingRequest) {
    req.followerCount != "" && req.engagementRate != "" && req.niche != ""
  }

  /** What an admitted calculation shows: the client's answer, or the catch block's when the reference query errs. */
  function Answer(req: PricingRequest, io: FlowIo<PricingResponse>, parseRate: string -> Rate): (r: PricingResponse)
    ensures io.reference.None? ==> r == CatchPathPricing(req, parseRate(req.engagementRate))
    ensures io.reference.Some? ==> r == ClientAi.GeneratePricingWithAI(req, io.reference.value, io.reply, parseRate)
    ensures !io.reply.Delivered? || io.reference.None? ==>
      0 <= r.suggestedRange.min <= r.suggestedRange.recommended <= r.suggestedRange.max
  {
    match io.reference
    case None => CatchPathPricing(req, parseRate(req.engagementRate))
    case Some(data) => ClientAi.GeneratePricingWithAI(req, data, io.reply, parseRate)
  }

  /** The row `savePricingCalculation` is given. */
  function RecordOf(user: UserId, req: PricingRequest, r: PricingResponse): PricingRecord {
    PricingRecord(user, req.platform, req.followerCount, req.engagementRate, req.niche, req.dealType,
                  r.suggestedRange.min, r.suggestedRange.max, r.suggestedRange.recommended)
  }

  class PricingView {
    var platform: string
    var followers: string
    var engagement: string
    var niche: string
    var region: string
    var dealType: string
    var isGenerating: bool
    var response: Option<PricingResponse>
    var showLimitModal: bool

    /** The screen's initial state. */
    constructor ()
      ensures platform == "Instagram" && followers == "" && engagement == "" && niche == "" && region == ""
      ensures dealType == "sponsored post"
      ensures !isGenerating && response.None? && !showLimitModal
    {
      platform := "Instagram";
      followers := "";
      engagement := "";
      niche := "";
      region := "";
      dealType := "sponsored post";
      isGenerating := false;
      response := None;
      showLimitModal := false;
    }

    /** The request built from the form. */
    function Request(): PricingRequest
      reads this
    {
      PricingRequest(platform, followers, engagement, niche, region, dealType)
    }

    /**
     * `calculatePricing`. An incomplete form does nothing. Otherwise the old
     * answer is cleared and the gate asked; a refusal shows the limit modal
     * and generates, saves and counts nothing. An admitted calculation shows
     * the client's answer, or the catch block's when the reference query
     * errs, and in both cases saves one record and increments the pricing
     * counter once.
     */
    method CalculatePricing(db: Database, user: UserId, month: MonthKey, now: int,
                            io: FlowIo<PricingResponse>, parseRate: string -> Rate)
      modifies this`response, this`showLimitModal, this`isGenerating
      modifies db`usage, db`pricingCalculations, db`activityLog
      ensures Request() == old(Request())
      ensures !Ready(Request()) ==> unchanged(this) && unchanged(db)
      ensures Ready(Request()) ==>
        var g := GateFor(db, user, month, now, io.gate, old(db.usage), PricingCalculation);
        if !g.allowed then
          && response.None? && showLimitModal && isGenerating == old(isGenerating)
          && db.usage == g.table
          && db.pricingCalculations == old(db.pricingCalculations) && db.activityLog == old(db.activityLog)
        else
          var r := Answer(Request(), io, parseRate);
          var rec := RecordOf(user, Request(), r);
          && response == Some(r) && showLimitModal == old(showLimitModal) && !isGenerating
          && db.pricingCalculations == old(db.pricingCalculations) + (if io.save.insertFails then [] else [rec])
          && db.activityLog == old(db.activityLog)
               + (if !io.save.insertFails && !io.save.logFails then [PricingActivity(rec)] else [])
          && db.usage == Increment(g.table, (user, month), io.increment, PricingCalculation).table
    {
      if followers == "" || engagement == "" || niche == "" {
        return;
      }
      response := None;
      var allowed := CanPerformAction(db, user, month, now, io.gate, PricingCalculation);
      if !allowed {
        showLimitModal := true;
        return;
      }
      isGenerating := true;
      var req := Request();
      var r: PricingResponse;
      match io.reference {
        case Some(data) =>
          r := ClientAi.GeneratePricingWithAI(req, data, io.reply, parseRate);
        case None =>
          r := CatchPathPricing(req, parseRate(engagement));
      }
      response := Some(r);
      var _ := SavePricingCalculation(db, RecordOf(user, req, r), io.save);
      var _ := IncrementUsage(db, user, month, io.increment, PricingCalculation);
      isGenerating := false;
    }
  }
}
