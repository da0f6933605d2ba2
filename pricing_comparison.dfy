/**
 * The three price calculators side by side: the client's fallback
 * (`src/lib/openrouter.ts`), the proxy's (`openrouter-proxy/index.ts`) and
 * the screens' catch block (`PricingAssistant.tsx`, and the same lines in
 * `App.tsx`). They share the follower brackets and nothing else: the
 * tables, the engagement steps, the niche effect and the range width all
 * differ, so the same form gets different prices depending on which one
 * answers.
 */
module PricingComparison {
  import opened Wrappers
  import opened Numeric
  import opened Text
  import opened Types
  import opened Pricing
  import opened ClientAi
  import opened Proxy
  import opened PricingAssistant

  /** Twitter is priced by the client but not by the proxy, which has no table for it. */
  lemma TwitterPricedOnlyByClient(req: PricingRequest, e: Rate)
    requires Lower(req.platform) == "twitter"
    ensures ProxyRange(req, e) == PriceRange(0, 0, 0)
    ensures ClientRecommended(req, e) >= 56
  {
    UnknownPlatformPricesZero(req, e);
    var x := ClientBase(req.platform, FollowerNumber(req.followerCount)) as real * ClientMultiplier(e, req.niche);
    assert ClientBase(req.platform, FollowerNumber(req.followerCount)) >= 80;
    assert x >= 56.0;
    RoundInt(56);
    RoundMonotone(56.0, x);
  }

  /**
   * Two forms for the same platform and follower count, one in a premium
   * niche and one not: the client prices the premium one higher on a known
   * platform, while the proxy gives both the same range.
   */
  lemma NicheMovesOnlyClientPrice(premium: PricingRequest, plain: PricingRequest, e: Rate)
    requires premium.platform == plain.platform && premium.followerCount == plain.followerCount
    requires ClientTable(plain.platform).Some?
    requires ClientPremiumNiche(premium.niche) && !ClientPremiumNiche(plain.niche)
    ensures ClientRecommended(premium, e) > ClientRecommended(plain, e)
    ensures ProxyRange(premium, e) == ProxyRange(plain, e)
  {
    var base := ClientBase(plain.platform, FollowerNumber(plain.followerCount));
    assert base >= 80;
    var m := ClientEngagementMultiplier(e);
    assert ClientMultiplier(e, premium.niche) == m * 1.6;
    assert ClientMultiplier(e, plain.niche) == m;
    PremiumScaledHigher(base, m);
  }

  /** On a table price of at least 80, the premium factor 1.6 on top of any engagement step raises the rounded price. */
  lemma PremiumScaledHigher(base: nat, m: real)
    requires base >= 80 && m >= 0.7
    ensures ScaledPrice(base, m * 1.6) > ScaledPrice(base, m)
  {
    var b := base as real;
    assert b * m >= 56.0;
    assert b * (m * 1.6) >= b * m + 1.0;
  }

  /** The lowercased form of the two platform names the examples use. */
  lemma InstagramLower()
    ensures Lower("Instagram") == "instagram"
  {
    var s := "Instagram";
    assert Lower(s)[0] == 'i';
    assert Lower(s) == "instagram";
  }

  /** The follower counts the examples use, read back from their digits. */
  lemma FollowersRead()
    ensures FollowerNumber("5000") == Some(5000)
    ensures FollowerNumber("120000") == Some(120000)
  {
    assert AllDigits("5000") && AllDigits("120000");
    assert DecimalValue("5000") == 5000 by {
      assert "5000"[..3] == "500" && "500"[..2] == "50" && "50"[..1] == "5" && "5"[..0] == "";
    }
    assert DecimalValue("120000") == 120000 by {
      assert "120000"[..5] == "12000" && "12000"[..4] == "1200" && "1200"[..3] == "120";
      assert "120"[..2] == "12" && "12"[..1] == "1" && "1"[..0] == "";
    }
  }

  /** The four ranges the examples below arrive at. */
  lemma ExampleSpreads()
    ensures Spread(75, 0.7, 1.4) == PriceRange(53, 105, 75)
    ensures Spread(100, 0.8, 1.5) == PriceRange(80, 150, 100)
    ensures Spread(1950, 0.7, 1.4) == PriceRange(1365, 2730, 1950)
    ensures Spread(4032, 0.8, 1.5) == PriceRange(3226, 6048, 4032)
  {
    assert Round(52.5) == 53 && Round(105.0) == 105;
    assert Round(80.0) == 80 && Round(150.0) == 150;
    assert Round(1365.0) == 1365 && Round(2730.0) == 2730;
    assert Round(3225.6) == 3226 && Round(6048.0) == 6048;
  }

  /**
   * 5,000 Instagram followers at 2% engagement outside the premium niches: the proxy and the catch
   * block both say 53 to 105 around 75, the client says 80 to 150 around 100.
   */
  lemma SmallInstagramCreator(req: PricingRequest)
    requires req.platform == "Instagram" && req.followerCount == "5000"
    requires !ClientPremiumNiche(req.niche)
    ensures CatchPathPricing(req, Some(2.0)).suggestedRange == PriceRange(53, 105, 75)
    ensures ProxyRange(req, Some(2.0)) == PriceRange(53, 105, 75)
    ensures Spread(ClientRecommended(req, Some(2.0)), 0.8, 1.5) == PriceRange(80, 150, 100)
  {
    FollowersRead();
    ExampleSpreads();
    assert CatchRecommended(req.followerCount, Some(2.0)) == 75 by {
      assert Tier(Some(5000)) == 0;
    }
    assert ProxyRecommended(req, Some(2.0)) == 75 by {
      InstagramLower();
      assert ProxyBase(req.platform, Some(5000)) == 75;
      RoundInt(75);
    }
    assert ClientRecommended(req, Some(2.0)) == 100 by {
      InstagramLower();
      assert ClientBase(req.platform, Some(5000)) == 100;
      assert ClientMultiplier(Some(2.0), req.niche) == 1.0;
    }
  }

  /**
   * 120,000 Instagram followers at 6% engagement in a premium niche: the
   * proxy and the catch block agree on 1,950, the client's premium
   * multiplier takes it to 4,032.
   */
  lemma PremiumInstagramCreator(req: PricingRequest)
    requires req.platform == "Instagram" && req.followerCount == "120000"
    requires ClientPremiumNiche(req.niche)
    ensures CatchPathPricing(req, Some(6.0)).suggestedRange == PriceRange(1365, 2730, 1950)
    ensures ProxyRange(req, Some(6.0)) == PriceRange(1365, 2730, 1950)
    ensures Spread(ClientRecommended(req, Some(6.0)), 0.8, 1.5) == PriceRange(3226, 6048, 4032)
  {
    FollowersRead();
    ExampleSpreads();
    assert CatchRecommended(req.followerCount, Some(6.0)) == 1950 by {
      assert Tier(Some(120000)) == 3;
    }
    assert ProxyRecommended(req, Some(6.0)) == 1950 by {
      InstagramLower();
      assert ProxyBase(req.platform, Some(120000)) == 1500;
    }
    PremiumInstagramClientPrice(req);
  }

  /** The client's price in the example above: 1,800 times 1.4 times 1.6. */
  lemma PremiumInstagramClientPrice(req: PricingRequest)
    requires req.platform == "Instagram" && req.followerCount == "120000"
    requires ClientPremiumNiche(req.niche)
    ensures ClientRecommended(req, Some(6.0)) == 4032
  {
    assert ClientBase(req.platform, FollowerNumber(req.followerCount)) == 1800 by {
      InstagramLower();
      FollowersRead();
    }
    assert ClientMultiplier(Some(6.0), req.niche) == 2.24;
    assert ScaledPrice(1800, 2.24) == 4032;
  }
}
