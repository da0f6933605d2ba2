/**
 * The browser side of the AI features (`src/lib/openrouter.ts`): how a
 * failed call to the AI proxy is classified and turned into an error
 * message, how each feature's catch block reads that message, and the
 * deterministic fallbacks it then returns.
 *
 * The `fetch` to the proxy is a parameter: what came back from it.
 */
module ClientAi {
  import opened Wrappers
  import opened Numeric
  import opened Text
  import opened Types
  import opened Pricing
  import KitTemplate

  /**
   * What the proxy call produced: the JSON value of an OK response, a
   * non-OK status with the `error` string of its body (`None` when the body
   * has none), or a throw before any of that (network failure, unreadable
   * JSON) with its message.
   */
  datatype ProxyReply<T> = Delivered(value: T) | Rejected(status: nat, error: Option<string>) | Unreachable(message: string)

  /** `callOpenRouterProxy` either returns a value or throws an `Error` with a message. */
  datatype Outcome<T> = Returned(value: T) | Thrown(message: string)

  const KeyMissingMessage := "API_KEY_NOT_CONFIGURED"
  const QuotaMessage := "OPENROUTER_API_402_ERROR"

  /** The three kinds of failure the catch blocks tell apart. */
  datatype Failure = KeyMissing | QuotaExceeded | OtherFailure

  /**
   * How a non-OK reply should be classified: a missing key first, then a
   * 402 by status or anywhere in the error text, then anything else.
   */
  function Classify(status: nat, error: Option<string>): Failure {
    if error == Some(KeyMissingMessage) then KeyMissing
    else if status == 402 || (error.Some? && Contains(error.value, "402")) then QuotaExceeded
    else OtherFailure
  }

  /** The message `callOpenRouterProxy` throws for a non-OK reply. */
  function RejectionMessage(status: nat, error: Option<string>): (m: string)
    ensures error == Some(KeyMissingMessage) ==> m == KeyMissingMessage
    ensures error != Some(KeyMissingMessage) && (status == 402 || (error.Some? && Contains(error.value, "402")))
      ==> m == QuotaMessage
    ensures error.Some? && error.value != "" && m != KeyMissingMessage && m != QuotaMessage ==> m == error.value
    ensures (error.None? || error.value == "") && status != 402 ==> m == "API request failed: " + NatToString(status)
  {
    if error == Some(KeyMissingMessage) then KeyMissingMessage
    else if status == 402 || (error.Some? && Contains(error.value, "402")) then QuotaMessage
    else if error.Some? && error.value != "" then error.value
    else "API request failed: " + NatToString(status)
  }

  /** `callOpenRouterProxy`. */
  function CallProxy<T>(reply: ProxyReply<T>): (o: Outcome<T>)
    ensures reply.Delivered? <==> o.Returned?
    ensures reply.Delivered? ==> o.value == reply.value
    ensures reply.Unreachable? ==> o == Thrown(reply.message)
  {
    match reply
    case Delivered(v) => Returned(v)
    case Rejected(status, error) => Thrown(RejectionMessage(status, error))
    case Unreachable(m) => Thrown(m)
  }

  /** How the catch blocks read the message: only the two exact sentinel messages are recognised. */
  function FailureOf(message: string): Failure {
    if message == KeyMissingMessage then KeyMissing
    else if message == QuotaMessage then QuotaExceeded
    else OtherFailure
  }

  lemma QuotaMessageHas402()
    ensures Contains(QuotaMessage, "402")
  {
    assert StartsWith(QuotaMessage[15..], "402");
  }

  /**
   * The classification survives the trip through the thrown message: the
   * catch blocks, which only compare message texts, recover exactly the
   * class of the rejected reply.
   */
  lemma RejectionClassified<T>(status: nat, error: Option<string>)
    ensures CallProxy<T>(Rejected(status, error)).Thrown?
    ensures FailureOf(CallProxy<T>(Rejected(status, error)).message) == Classify(status, error)
  {
    var m := RejectionMessage(status, error);
    if Classify(status, error) == OtherFailure {
      if error.Some? && error.value != "" {
        assert m == error.value;
        QuotaMessageHas402();
      } else {
        assert m[3] == ' ';
        assert m[0] == 'A';
      }
    }
  }

  const KeyNotice := "\U{26A0}\U{FE0F} AI features require API key setup. "
  const QuotaNotice := "\U{1F4B3} AI quota exceeded - check OpenRouter billing. "

  /** The tip a failure shows: the base tip, behind a notice for the two recognised failures. */
  function WithNotice(f: Failure, tip: string): (r: string)
    ensures |r| >= |tip| && r[|r| - |tip|..] == tip
    ensures f == OtherFailure <==> r == tip
    ensures f == KeyMissing ==> r == KeyNotice + tip
    ensures f == QuotaExceeded ==> r == QuotaNotice + tip
  {
    match f
    case KeyMissing => KeyNotice + tip
    case QuotaExceeded => QuotaNotice + tip
    case OtherFailure => tip
  }

  /** The platform tips of `getFallbackOutreachTip`. */
  const InstagramTip := "\U{1F4A1} Personalize your DMs by mentioning specific posts or stories from the brand. This shows genuine interest and increases response rates by 40%."

  const TikTokTip := "\U{1F3AF} Reference trending sounds or challenges in your outreach. Brands love creators who stay current with platform trends."

  const YouTubeTip := "\U{1F4F9} Mention specific videos from their channel and how your content style would complement their brand message."

  const TwitterTip := "\U{1F426} Engage with their tweets first, then send a thoughtful DM referencing your interaction. Build rapport before pitching."

  /** `getFallbackOutreachTip`: one tip per platform, the Instagram tip for anything else. */
  function OutreachTip(platform: string): (tip: string)
    ensures platform == "TikTok" ==> tip == TikTokTip
    ensures platform == "YouTube" ==> tip == YouTubeTip
    ensures platform == "Twitter" ==> tip == TwitterTip
    ensures platform !in ["TikTok", "YouTube", "Twitter"] ==> tip == InstagramTip
  {
    if platform == "TikTok" then TikTokTip
    else if platform == "YouTube" then YouTubeTip
    else if platform == "Twitter" then TwitterTip
    else InstagramTip
  }

  /** The five tips `getFallbackPricingTip` picks from. */
  const PricingTips: seq<string> := [
    "\U{1F4B0} Bundle multiple deliverables (post + story + reel) for 15-25% higher rates than individual posts.",
    "\U{1F4C8} Track your engagement rates monthly. High-performing content justifies 20-30% rate increases.",
    "\U{1F3AF} Charge premium rates (1.5-2x) for exclusive partnerships or first-to-market product launches.",
    "\U{23F0} Offer early bird discounts for brands booking 30+ days in advance to secure consistent work.",
    "\U{1F504} Create tiered packages: Basic (post), Standard (post + story), Premium (post + story + reel + usage rights)."]

  /** `generateDailyOutreachTip`: the proxy's tip, or the fallback behind the notice the failure calls for. */
  function DailyOutreachTip(platform: string, reply: ProxyReply<string>): (tip: string)
    ensures reply.Delivered? ==> tip == reply.value
  {
    match CallProxy(reply)
    case Returned(v) => v
    case Thrown(m) => WithNotice(FailureOf(m), OutreachTip(platform))
  }

  /** `generateDailyPricingTip`; `pick` stands for `Math.floor(Math.random() * 5)`. */
  function DailyPricingTip(reply: ProxyReply<string>, pick: nat): (tip: string)
    requires pick < |PricingTips|
    ensures reply.Delivered? ==> tip == reply.value
  {
    match CallProxy(reply)
    case Returned(v) => v
    case Thrown(m) => WithNotice(FailureOf(m), PricingTips[pick])
  }

  /** A rejected tip request shows the notice of its class in front of the fallback tip, and only then. */
  lemma TipNotices(platform: string, status: nat, error: Option<string>, pick: nat)
    requires pick < |PricingTips|
    ensures DailyOutreachTip(platform, Rejected(status, error)) == WithNotice(Classify(status, error), OutreachTip(platform))
    ensures DailyPricingTip(Rejected(status, error), pick) == WithNotice(Classify(status, error), PricingTips[pick])
  {
    RejectionClassified<string>(status, error);
  }

  /** An unreachable proxy gives the bare fallback tip. */
  lemma UnreachableTipIsBare(platform: string, message: string)
    requires message != KeyMissingMessage && message != QuotaMessage
    ensures DailyOutreachTip(platform, Unreachable(message)) == OutreachTip(platform)
  {
  }

  /** The value propositions of the five known niches, and the default list. */
  const DefaultEnhancers: seq<string> := [
    "\U{1F3AF} \"Content that converts viewers into loyal customers\"",
    "\U{1F4C8} \"Authentic storytelling that drives real business results\"",
    "\U{2728} \"Creative campaigns that make your brand unforgettable\""]

  const FashionEnhancers: seq<string> := [
    "\U{2728} \"I turn fashion into stories that sell - 35% higher click-through rates\"",
    "\U{1F6CD}\U{FE0F} \"My followers ask \"where to buy\" on 80% of my outfit posts\"",
    "\U{1F4F8} \"Professional styling + authentic reviews = brand loyalty that lasts\""]

  const BeautyEnhancers: seq<string> := [
    "\U{1F484} \"Before/after content that drives 3x more engagement than standard posts\"",
    "\U{2728} \"My tutorials generate 50% more saves than industry average\"",
    "\U{1F31F} \"Honest reviews that build trust - 90% follower retention rate\""]

  const FitnessEnhancers: seq<string> := [
    "\U{1F4AA} \"Transformation content that motivates real lifestyle changes\"",
    "\U{1F3C3}\U{200D}\U{2640}\U{FE0F} \"My workout videos get 60% more shares than fitness industry average\"",
    "\U{26A1} \"Results-driven content that turns followers into customers\""]

  const FoodEnhancers: seq<string> := [
    "\U{1F37D}\U{FE0F} \"Recipe videos that get saved 4x more than standard food content\"",
    "\U{1F468}\U{200D}\U{1F373} \"My restaurant reviews drive 25% increase in foot traffic\"",
    "\U{1F4F1} \"Food styling that makes followers hungry for your brand\""]

  const TechEnhancers: seq<string> := [
    "\U{1F4F1} \"Tech reviews that simplify complex products for everyday users\"",
    "\U{26A1} \"My unboxing videos generate 40% more purchase intent\"",
    "\U{1F527} \"Honest tech advice that builds long-term brand credibility\""]

  /** `getFallbackBrandEnhancers`: always three suggestions, the default list for any other niche. */
  function BrandEnhancers(niche: string): (r: seq<string>)
    ensures |r| == 3
    ensures niche !in ["Fashion", "Beauty", "Fitness", "Food", "Tech"] ==> r == DefaultEnhancers
    ensures niche == "Fashion" ==> r == FashionEnhancers
    ensures niche == "Beauty" ==> r == BeautyEnhancers
    ensures niche == "Fitness" ==> r == FitnessEnhancers
    ensures niche == "Food" ==> r == FoodEnhancers
    ensures niche == "Tech" ==> r == TechEnhancers
  {
    if niche == "Fashion" then FashionEnhancers
    else if niche == "Beauty" then BeautyEnhancers
    else if niche == "Fitness" then FitnessEnhancers
    else if niche == "Food" then FoodEnhancers
    else if niche == "Tech" then TechEnhancers
    else DefaultEnhancers
  }

  /** `generateBrandMatchEnhancer`: on any failure, the three fallback suggestions and the niche echoed. */
  function GenerateBrandMatchEnhancer(niche: string, reply: ProxyReply<BrandMatchEnhancer>): (r: BrandMatchEnhancer)
    ensures reply.Delivered? ==> r == reply.value
    ensures !reply.Delivered? ==> r.niche == niche && r.suggestions == BrandEnhancers(niche) && |r.suggestions| == 3
  {
    match CallProxy(reply)
    case Returned(v) => v
    case Thrown(_) => BrandMatchEnhancer(BrandEnhancers(niche), niche)
  }

  const BioSuffix := " I specialize in creating authentic, engaging content that resonates with my audience and drives real results for brand partners."

  /** `enhanceBioWithAI`: on any failure, the bio with one fixed sentence appended. */
  function EnhanceBioWithAI(bio: string, reply: ProxyReply<string>): (r: string)
    ensures reply.Delivered? ==> r == reply.value
    ensures !reply.Delivered? ==> |r| == |bio| + |BioSuffix| && r[..|bio|] == bio && r[|bio|..] == BioSuffix
  {
    match CallProxy(reply)
    case Returned(v) => v
    case Thrown(_) => bio + BioSuffix
  }

  datatype DmKind = Reply | Outreach

  datatype Tone = Professional | Friendly | Confident

  /** The tone branch a `tone` string takes: anything but the first two takes the third. */
  function ToneOf(tone: string): (t: Tone)
    ensures t == Professional <==> tone == "professional"
    ensures t == Friendly <==> tone == "friendly"
  {
    if tone == "professional" then Professional
    else if tone == "friendly" then Friendly
    else Confident
  }

  /** `brandReply` is truthy: present and not empty. */
  predicate HasBrandReply(req: DMRequest) {
    req.brandReply.Some? && req.brandReply.value != ""
  }

  /**
   * Which template the fallback DM uses: a reply template only for a reply
   * with a brand message, an outreach template for outreach, none otherwise.
   */
  function TemplateFor(req: DMRequest): (c: Option<(DmKind, Tone)>)
    ensures c.Some? ==> c.value.1 == ToneOf(req.tone)
    ensures (c.Some? && c.value.0 == Reply) <==> req.messageType == "reply" && HasBrandReply(req)
    ensures (c.Some? && c.value.0 == Outreach) <==> req.messageType == "outreach"
  {
    if req.messageType == "reply" && HasBrandReply(req) then Some((Reply, ToneOf(req.tone)))
    else if req.messageType == "outreach" then Some((Outreach, ToneOf(req.tone)))
    else None
  }

  const DmSorry := "Sorry, something went wrong generating this message. Please try again."

  /** The fixed text between the fields of the six DM templates. */
  const ReplyProfessionalText1 := " regarding the collaboration opportunity.\n\nI'm very interested in working with "
  const ReplyProfessionalText2 := ", I believe we can create impactful content together.\n\nI'd love to discuss the campaign details, deliverables, and timeline. Could we schedule a brief call to align on the partnership specifics?\n\nI look forward to creating exceptional content for your brand.\n\nBest regards,"
  const ReplyFriendlyText1 := " Thanks so much for reaching out! \U{1F60A}\n\nI'm super excited about the possibility of working together! Your brand aligns perfectly with my content style and I know my "
  const ReplyFriendlyText2 := " followers would love it.\n\nI'd love to learn more about your campaign goals and discuss how we can create something amazing together. My "
  const ReplyFriendlyText3 := "% engagement rate shows how connected I am with my audience.\n\nWhen would be a good time to chat more about this opportunity?\n\nCan't wait to hear from you! \U{1F4AB}"
  const ReplyConfidentText1 := " me for this campaign!\n\nI'm confident we can create exceptional results together. With "
  const ReplyConfidentText2 := ", I consistently deliver high-performing content that drives real business outcomes.\n\nI'd like to understand your specific goals and KPIs so I can propose the most effective content strategy. My approach focuses on authentic storytelling that converts.\n\nLet's discuss how I can help exceed your campaign objectives.\n\nBest,"
  const OutreachProfessionalText1 := "% engagement rate.\n\nI've been following your brand and believe there's excellent synergy between your products and my audience. I specialize in creating authentic content that drives real engagement and conversions.\n\nI'd love to discuss potential collaboration opportunities that could benefit both of us. I can provide my media kit and previous campaign results upon request.\n\nWould you be open to exploring a partnership?\n\nBest regards,"
  const OutreachFriendlyText1 := " is doing! Your recent campaigns caught my attention and I think my "
  const OutreachFriendlyText2 := "% engagement) would be genuinely excited about your products.\n\nI create authentic content that my audience trusts, and I'd love to showcase your brand in a way that feels natural and engaging.\n\nWould you be interested in chatting about a potential collaboration? I'd be happy to share my media kit and some ideas!\n\nLooking forward to hearing from you! \U{2728}"
  const OutreachConfidentText1 := "\n\nI'm reaching out because I believe we could create something amazing together. With "
  const OutreachConfidentText2 := "% engagement rate), I consistently deliver results for brand partners.\n\nI specialize in creating authentic, conversion-focused content that resonates with my audience. My previous collaborations have generated impressive ROI for brands in similar spaces.\n\nI'd love to discuss how we can achieve your marketing goals together. My content drives real business outcomes, not just vanity metrics.\n\nShall we schedule a brief call to explore partnership opportunities?\n\nBest,"

  function ReplyProfessional(req: DMRequest): string {
    "Thank you for reaching out"
      + ReplyProfessionalText1
      + OrElse(req.brandType, "your brand")
      + ". Based on my "
      + req.followerCount
      + " followers and "
      + req.engagementRate
      + "% engagement rate on "
      + req.platform
      + ReplyProfessionalText2
  }

  function ReplyFriendly(req: DMRequest): string {
    "Hi!"
      + ReplyFriendlyText1
      + req.followerCount
      + ReplyFriendlyText2
      + req.engagementRate
      + ReplyFriendlyText3
  }

  function ReplyConfident(req: DMRequest): string {
    "Thank you for considering"
      + ReplyConfidentText1
      + req.followerCount
      + " followers and a "
      + req.engagementRate
      + "% engagement rate on "
      + req.platform
      + ReplyConfidentText2
  }

  function OutreachProfessional(req: DMRequest): string {
    "Hello "
      + OrElse(req.brandType, "[Brand Name]")
      + " team,"
      + "\n\nI hope this message finds you well. I'm a "
      + req.platform
      + " creator with "
      + req.followerCount
      + " engaged followers and a "
      + req.engagementRate
      + OutreachProfessionalText1
  }

  function OutreachFriendly(req: DMRequest): string {
    "Hi "
      + "there! \U{1F44B}\n\nI absolutely love what "
      + OrElse(req.brandType, "[Brand Name]")
      + OutreachFriendlyText1
      + req.platform
      + " community ("
      + req.followerCount
      + " followers with "
      + req.engagementRate
      + OutreachFriendlyText2
  }

  function OutreachConfident(req: DMRequest): string {
    "Hello "
      + OrElse(req.brandType, "[Brand Name]")
      + "!"
      + OutreachConfidentText1
      + req.followerCount
      + " highly engaged followers on "
      + req.platform
      + " ("
      + req.engagementRate
      + OutreachConfidentText2
  }

  /** The six DM templates of `generateFallbackDM`. */
  function DmTemplate(kind: DmKind, tone: Tone, req: DMRequest): string {
    match (kind, tone)
    case (Reply, Professional) => ReplyProfessional(req)
    case (Reply, Friendly) => ReplyFriendly(req)
    case (Reply, Confident) => ReplyConfident(req)
    case (Outreach, Professional) => OutreachProfessional(req)
    case (Outreach, Friendly) => OutreachFriendly(req)
    case (Outreach, Confident) => OutreachConfident(req)
  }

  /**
   * A few characters near the start of each template, enough to tell the
   * six apart: `T` and then `r` or `c` for the replies opening with
   * "Thank you for", `H` for the others, then `!`, a space or `l` after
   * `Hi`/`He`, and after `Hello <brand>` a space or an exclamation mark.
   * Every template is longer than the apology.
   */
  lemma ReplyProfessionalMarks(req: DMRequest)
    ensures var s := ReplyProfessional(req);
      |s| > |DmSorry| && |s| > 14 && s[0] == 'T' && s[14] == 'r'
  {
  }

  lemma ReplyFriendlyMarks(req: DMRequest)
    ensures var s := ReplyFriendly(req);
      |s| > |DmSorry| && |s| > 14 && s[0] == 'H' && s[2] == '!'
  {
  }

  lemma ReplyConfidentMarks(req: DMRequest)
    ensures var s := ReplyConfident(req);
      |s| > |DmSorry| && |s| > 14 && s[0] == 'T' && s[14] == 'c'
  {
  }

  lemma OutreachProfessionalMarks(req: DMRequest)
    ensures var s := OutreachProfessional(req);
      var n := 6 + |OrElse(req.brandType, "[Brand Name]")|;
      |s| > |DmSorry| && |s| > 14 && s[0] == 'H' && s[2] == 'l' && |s| > n && s[n] == ' '
  {
  }

  lemma OutreachFriendlyMarks(req: DMRequest)
    ensures var s := OutreachFriendly(req);
      |s| > |DmSorry| && |s| > 14 && s[0] == 'H' && s[2] == ' '
  {
  }

  lemma OutreachConfidentMarks(req: DMRequest)
    ensures var s := OutreachConfident(req);
      var n := 6 + |OrElse(req.brandType, "[Brand Name]")|;
      |s| > |DmSorry| && |s| > 14 && s[0] == 'H' && s[2] == 'l' && |s| > n && s[n] == '!'
  {
  }

  /** The number of each branch of `generateFallbackDM`. */
  function BranchNumber(kind: DmKind, tone: Tone): nat {
    (if kind == Reply then 0 else 3) + (match tone case Professional => 0 case Friendly => 1 case Confident => 2)
  }

  /** Reads the branch back from the marks of a message; `n` is the index just past `Hello <brand>`. */
  function BranchOfText(s: string, n: nat): nat {
    if |s| <= 14 then 6
    else if s[0] == 'T' then (if s[14] == 'r' then 0 else 2)
    else if s[2] == '!' then 1
    else if s[2] == ' ' then 4
    else if |s| <= n then 6
    else if s[n] == ' ' then 3
    else 5
  }

  lemma DmTemplateMarks(kind: DmKind, tone: Tone, req: DMRequest)
    ensures |DmTemplate(kind, tone, req)| > |DmSorry|
    ensures BranchOfText(DmTemplate(kind, tone, req), 6 + |OrElse(req.brandType, "[Brand Name]")|) == BranchNumber(kind, tone)
  {
    match (kind, tone)
    case (Reply, Professional) => ReplyProfessionalMarks(req);
    case (Reply, Friendly) => ReplyFriendlyMarks(req);
    case (Reply, Confident) => ReplyConfidentMarks(req);
    case (Outreach, Professional) => OutreachProfessionalMarks(req);
    case (Outreach, Friendly) => OutreachFriendlyMarks(req);
    case (Outreach, Confident) => OutreachConfidentMarks(req);
  }

  /** Different branches give different messages, and none of them is the apology. */
  lemma DmTemplatesDistinct(k1: DmKind, t1: Tone, k2: DmKind, t2: Tone, req: DMRequest)
    requires (k1, t1) != (k2, t2)
    ensures DmTemplate(k1, t1, req) != DmTemplate(k2, t2, req)
    ensures DmTemplate(k1, t1, req) != DmSorry
  {
    DmTemplateMarks(k1, t1, req);
    DmTemplateMarks(k2, t2, req);
    BranchNumberInjective(k1, t1, k2, t2);
  }

  lemma BranchNumberInjective(k1: DmKind, t1: Tone, k2: DmKind, t2: Tone)
    requires (k1, t1) != (k2, t2)
    ensures BranchNumber(k1, t1) != BranchNumber(k2, t2)
  {
  }

  /** `generateFallbackDM`; its `type` argument plays no part. */
  function FallbackDm(req: DMRequest): (r: string)
    ensures TemplateFor(req).None? <==> r == DmSorry
    ensures TemplateFor(req).Some? ==> r == DmTemplate(TemplateFor(req).value.0, TemplateFor(req).value.1, req)
  {
    match TemplateFor(req)
    case None => DmSorry
    case Some((kind, tone)) =>
      DmTemplatesDistinct(kind, tone, Reply, if tone == Professional then Friendly else Professional, req);
      DmTemplate(kind, tone, req)
  }

  /**
   * A reply without a brand message is the apology; a reply or outreach
   * with any other tone than professional or friendly takes the third,
   * confident template.
   */
  lemma FallbackDmBranches(req: DMRequest)
    ensures req.messageType == "reply" && !HasBrandReply(req) ==> FallbackDm(req) == DmSorry
    ensures req.messageType != "reply" && req.messageType != "outreach" ==> FallbackDm(req) == DmSorry
    ensures req.messageType == "outreach" && req.tone != "professional" && req.tone != "friendly"
      ==> FallbackDm(req) == DmTemplate(Outreach, Confident, req)
    ensures req.messageType == "reply" && HasBrandReply(req) && req.tone != "professional" && req.tone != "friendly"
      ==> FallbackDm(req) == DmTemplate(Reply, Confident, req)
  {
  }

  /** `generateDMWithAI` on the client: on any failure, the fallback three times and up to three records. */
  function GenerateDMWithAI(req: DMRequest, data: seq<InfluencerData>, reply: ProxyReply<DMResponse>): (r: DMResponse)
    ensures reply.Delivered? ==> r == reply.value
    ensures !reply.Delivered? ==>
      && r.primary == FallbackDm(req)
      && r.alternatives == [r.primary, r.primary]
      && r.matchedData == Take(data, 3)
  {
    match CallProxy(reply)
    case Returned(v) => v
    case Thrown(_) => DMResponse(FallbackDm(req), [FallbackDm(req), FallbackDm(req)], Take(data, 3))
  }

  /** The client's price table for a platform, compared case-insensitively; `None` for an unknown platform. */
  function ClientTable(platform: string): (t: Option<seq<nat>>)
    ensures t.Some? ==> |t.value| == 5
    ensures t.Some? <==> Lower(platform) in ["instagram", "tiktok", "youtube", "twitter"]
  {
    var p := Lower(platform);
    if p == "instagram" then Some([100, 250, 600, 1800, 5500])
    else if p == "tiktok" then Some([150, 350, 800, 2200, 6500])
    else if p == "youtube" then Some([250, 700, 1800, 5500, 16000])
    else if p == "twitter" then Some([80, 200, 450, 1200, 3500])
    else None
  }

  /** `basePrice`: the table entry of the follower bracket, 0 for an unknown platform. */
  function ClientBase(platform: string, followers: Option<nat>): nat {
    match ClientTable(platform)
    case None => 0
    case Some(t) => t[Tier(followers)]
  }

  /** Every table of the client grows with the follower bracket. */
  lemma ClientBaseMonotone(platform: string, a: nat, b: nat)
    requires a <= b
    ensures ClientBase(platform, Some(a)) <= ClientBase(platform, Some(b))
  {
    TierMonotone(a, b);
  }

  /** The engagement multiplier: above 6, 4 or 2 raises it; below 1 lowers it; NaN leaves it at 1. */
  function ClientEngagementMultiplier(e: Rate): (m: real)
    ensures 0.7 <= m <= 1.6
    ensures e.None? ==> m == 1.0
  {
    if Above(e, 6.0) then 1.6
    else if Above(e, 4.0) then 1.4
    else if Above(e, 2.0) then 1.2
    else if Below(e, 1.0) then 0.7
    else 1.0
  }

  /** A higher engagement rate never lowers the multiplier. */
  lemma ClientEngagementMonotone(a: real, b: real)
    requires a <= b
    ensures ClientEngagementMultiplier(Some(a)) <= ClientEngagementMultiplier(Some(b))
  {
  }

  const ClientPremiumNiches: seq<string> := ["finance", "investing", "b2b", "saas", "luxury", "health", "medical"]

  predicate ClientPremiumNiche(niche: string) {
    ContainsAny(Lower(niche), ClientPremiumNiches)
  }

  /** `multiplier`, times 1.6 again in a premium niche. */
  function ClientMultiplier(e: Rate, niche: string): (m: real)
    ensures 0.7 <= m <= 2.56
    ensures ClientPremiumNiche(niche) ==> m == ClientEngagementMultiplier(e) * 1.6
    ensures !ClientPremiumNiche(niche) ==> m == ClientEngagementMultiplier(e)
  {
    ClientEngagementMultiplier(e) * (if ClientPremiumNiche(niche) then 1.6 else 1.0)
  }

  /** The position of each premium factor in the list. */
  function FactorRank(factor: string): nat {
    if factor == "High engagement rate" then 0
    else if factor == "Premium niche" then 1
    else if factor == "Multi-post campaign value" then 2
    else 3
  }

  /** `premiumFactors` of the client fallback. */
  function ClientPremiumFactors(e: Rate, niche: string, dealType: string, region: string): (r: seq<string>)
    ensures "High engagement rate" in r <==> Above(e, 4.0)
    ensures "Premium niche" in r <==> ClientPremiumNiche(niche)
    ensures "Multi-post campaign value" in r <==> Contains(dealType, "campaign")
    ensures "High-value region" in r <==> ContainsAny(region, ["US", "UK", "Australia"])
    ensures forall f :: f in r ==> f in ClientFactorNames
    ensures Ascending(r)
  {
    var engaged, premium := Above(e, 4.0), ClientPremiumNiche(niche);
    var campaign, valuable := Contains(dealType, "campaign"), ContainsAny(region, ["US", "UK", "Australia"]);
    FactorListMembers(engaged, premium, campaign, valuable);
    FactorListAscending(engaged, premium, campaign, valuable);
    OnlyNamed(engaged, premium, campaign, valuable, "High engagement rate", "Premium niche", "Multi-post campaign value", "High-value region");
    Optional(engaged, "High engagement rate") + Optional(premium, "Premium niche")
      + Optional(campaign, "Multi-post campaign value") + Optional(valuable, "High-value region")
  }

  /** The premium factors the client fallback can list. */
  const ClientFactorNames: seq<string> := ["High engagement rate", "Premium niche", "Multi-post campaign value", "High-value region"]

  /** Four optional names, joined, hold nothing but those names. */
  lemma OnlyNamed(p: bool, q: bool, u: bool, v: bool, w: string, x: string, y: string, z: string)
    ensures forall f :: f in Optional(p, w) + Optional(q, x) + Optional(u, y) + Optional(v, z) ==> f in [w, x, y, z]
  {
  }

  /** Each factor comes after the ones of lower rank. */
  predicate Ascending(r: seq<string>) {
    forall i :: 0 <= i < |r| - 1 ==> FactorRank(r[i]) < FactorRank(r[i + 1])
  }

  /** Of the four optional factors, each is listed exactly when its flag is set. */
  lemma FactorListMembers(p: bool, q: bool, u: bool, v: bool)
    ensures var r := Optional(p, "High engagement rate") + Optional(q, "Premium niche")
      + Optional(u, "Multi-post campaign value") + Optional(v, "High-value region");
      && ("High engagement rate" in r <==> p)
      && ("Premium niche" in r <==> q)
      && ("Multi-post campaign value" in r <==> u)
      && ("High-value region" in r <==> v)
  {
    FactorRanks();
  }

  /** The four optional factors are listed in rank order. */
  lemma FactorListAscending(p: bool, q: bool, u: bool, v: bool)
    ensures Ascending(Optional(p, "High engagement rate") + Optional(q, "Premium niche")
      + Optional(u, "Multi-post campaign value") + Optional(v, "High-value region"))
  {
    FactorRanks();
    RankedJoin(p, q, u, v, "High engagement rate", "Premium niche", "Multi-post campaign value", "High-value region");
  }

  /** Four optional names of ranks 0 to 3, joined in that order, are ascending. */
  lemma RankedJoin(p: bool, q: bool, u: bool, v: bool, w: string, x: string, y: string, z: string)
    requires FactorRank(w) == 0 && FactorRank(x) == 1 && FactorRank(y) == 2 && FactorRank(z) == 3
    ensures Ascending(Optional(p, w) + Optional(q, x) + Optional(u, y) + Optional(v, z))
  {
    var a := Optional(p, w);
    AscendingSnoc([], p, w);
    assert [] + a == a;
    AscendingSnoc(a, q, x);
    AscendingSnoc(a + Optional(q, x), u, y);
    AscendingSnoc(a + Optional(q, x) + Optional(u, y), v, z);
  }

  /** Every factor of `r` ranks below `k`. */
  predicate RanksBelow(r: seq<string>, k: nat) {
    forall i :: 0 <= i < |r| ==> FactorRank(r[i]) < k
  }

  /** An optional factor ranked above all of an ascending list keeps it ascending. */
  lemma AscendingSnoc(r: seq<string>, p: bool, w: string)
    requires Ascending(r) && RanksBelow(r, FactorRank(w))
    ensures Ascending(r + Optional(p, w)) && RanksBelow(r + Optional(p, w), FactorRank(w) + 1)
  {
  }

  lemma FactorRanks()
    ensures FactorRank("High engagement rate") == 0 && FactorRank("Premium niche") == 1
    ensures FactorRank("Multi-post campaign value") == 2 && FactorRank("High-value region") == 3
  {
    assert "Premium niche"[0] != "High engagement rate"[0];
    assert "Multi-post campaign value"[0] != "High engagement rate"[0];
    assert "Multi-post campaign value"[0] != "Premium niche"[0];
    assert "High-value region"[4] != "High engagement rate"[4];
    assert "High-value region"[0] != "Premium niche"[0];
    assert "High-value region"[0] != "Multi-post campaign value"[0];
  }

  /** `reasoning` of the client fallback. */
  function ClientReasoning(req: PricingRequest, e: Rate): string {
    "Based on market analysis for " + req.niche + " creators with " + req.followerCount + " followers and "
      + req.engagementRate + "% engagement rate on " + req.platform + ". Your engagement rate "
      + (if Above(e, 3.0) then "is above average" else "could be improved")
      + " for your follower count, which " + (if Above(e, 3.0) then "positively impacts" else "affects")
      + " your pricing power. "
      + (if req.dealType != "" then "For " + req.dealType + " content, we recommend staying within this range for optimal brand-creator fit." else "")
  }

  /** A table price scaled by a multiplier, to the nearest whole unit. */
  function ScaledPrice(base: nat, m: real): (rec: nat)
    requires 0.0 <= m
    ensures base as real * m - 0.5 < rec as real <= base as real * m + 0.5
  {
    RoundInt(0);
    RoundMonotone(0.0, base as real * m);
    Round(base as real * m)
  }

  /** The recommended price of the client fallback. */
  function ClientRecommended(req: PricingRequest, e: Rate): nat {
    ScaledPrice(ClientBase(req.platform, FollowerNumber(req.followerCount)), ClientMultiplier(e, req.niche))
  }

  /** `generateFallbackPricing`; `parseRate` is `parseFloat`. */
  function FallbackPricing(req: PricingRequest, data: seq<InfluencerData>, parseRate: string -> Rate): (r: PricingResponse)
    ensures 0 <= r.suggestedRange.min <= r.suggestedRange.recommended <= r.suggestedRange.max
    ensures r.suggestedRange == Spread(ClientRecommended(req, parseRate(req.engagementRate)), 0.8, 1.5)
    ensures ClientTable(req.platform).None? ==> r.suggestedRange == PriceRange(0, 0, 0)
    ensures r.premiumFactors == ClientPremiumFactors(parseRate(req.engagementRate), req.niche, req.dealType, req.region)
    ensures r.reasoning == ClientReasoning(req, parseRate(req.engagementRate))
    ensures r.exampleDeals == ExampleDeals(data) && r.matchedData == data
  {
    var e := parseRate(req.engagementRate);
    var rec := ClientRecommended(req, e);
    SpreadOrdered(rec, 0.8, 1.5);
    assert ClientTable(req.platform).None? ==> rec == 0 by {
      RoundInt(0);
    }
    SpreadOfZero(0.8, 1.5);
    PricingResponse(Spread(rec, 0.8, 1.5), ClientReasoning(req, e), ExampleDeals(data),
                    ClientPremiumFactors(e, req.niche, req.dealType, req.region), data)
  }

  /** `generatePricingWithAI` on the client. */
  function GeneratePricingWithAI(req: PricingRequest, data: seq<InfluencerData>, reply: ProxyReply<PricingResponse>,
                                 parseRate: string -> Rate): (r: PricingResponse)
    ensures reply.Delivered? ==> r == reply.value
    ensures !reply.Delivered? ==> r == FallbackPricing(req, data, parseRate)
  {
    match CallProxy(reply)
    case Returned(v) => v
    case Thrown(_) => FallbackPricing(req, data, parseRate)
  }

  const FallbackKitSections: seq<string> :=
    ["Header", "About Me", "Platform Statistics", "Audience Demographics", "Services", "Past Collaborations", "Contact"]

  const FallbackKitTips: seq<string> := [
    "Use consistent brand colors throughout",
    "Keep sections concise and scannable",
    "Include high-quality profile image",
    "Add social proof with past collaborations",
    "Make contact information prominent",
    "Ensure mobile responsiveness"]

  /** `generateFallbackMediaKit`: the screen kit, seven section names, six tips and no records. */
  function FallbackMediaKit(req: MediaKitRequest): (r: MediaKitResponse)
    ensures r.content == Document(KitTemplate.Render(req, Screen))
    ensures |r.sections| == 7 && |r.designTips| == 6 && r.matchedData == []
  {
    MediaKitResponse(Document(KitTemplate.Render(req, Screen)), FallbackKitSections, FallbackKitTips, [])
  }

  /** `generateMediaKitWithAI` on the client. */
  function GenerateMediaKitWithAI(req: MediaKitRequest, reply: ProxyReply<MediaKitResponse>): (r: MediaKitResponse)
    ensures reply.Delivered? ==> r == reply.value
    ensures !reply.Delivered? ==> r == FallbackMediaKit(req)
  {
    match CallProxy(reply)
    case Returned(v) => v
    case Thrown(_) => FallbackMediaKit(req)
  }
}
