/**
 * The request and response shapes that the client, the AI proxy and the
 * components exchange (`src/types/index.ts`), plus the structure of the
 * professional media-kit document that both kit templates produce.
 *
 * Optional strings that the source only tests for truthiness are plain
 * strings whose empty value stands for "absent". `brandReply`, `emailTone`
 * and `brandName` are `Option`s because the source sets them to
 * `undefined` on purpose, and a property depends on it.
 */
module Types {
  import opened Wrappers

  /** One row of the `influencer_data` reference table. */
  datatype InfluencerData = InfluencerData(
    platform: string,
    followerCount: string,
    engagementRate: string,
    niche: string,
    region: string,
    dmReplyExample: string,
    pricingExample: string,
    mediaKitSections: string)

  /** `messageType` and `tone` are kept as the strings the JSON payload carries. */
  datatype DMRequest = DMRequest(
    platform: string,
    followerCount: string,
    engagementRate: string,
    messageType: string,
    tone: string,
    brandType: string,
    brandReply: Option<string>)

  datatype DMResponse = DMResponse(
    primary: string,
    alternatives: seq<string>,
    matchedData: seq<InfluencerData>)

  datatype PricingRequest = PricingRequest(
    platform: string,
    followerCount: string,
    engagementRate: string,
    niche: string,
    region: string,
    dealType: string)

  datatype PriceRange = PriceRange(min: int, max: int, recommended: int)

  datatype ExampleDeal = ExampleDeal(platform: string, followers: string, rate: string, context: string)

  datatype PricingResponse = PricingResponse(
    suggestedRange: PriceRange,
    reasoning: string,
    exampleDeals: seq<ExampleDeal>,
    premiumFactors: seq<string>,
    matchedData: seq<InfluencerData>)

  datatype Platform = Platform(name: string, handle: string, followers: string)

  datatype Audience = Audience(gender: string, age: string, countries: string)

  datatype MediaKitRequest = MediaKitRequest(
    creatorName: string,
    bio: string,
    niche: string,
    platforms: seq<Platform>,
    audience: Audience,
    pastCollabs: string,
    theme: string,
    kitStyle: string,
    emailTone: Option<string>,
    services: string,
    location: string,
    email: string,
    brandName: Option<string>,
    profileImageUrl: string,
    brandLogoUrl: string,
    brandColor: string)

  datatype BrandMatchEnhancer = BrandMatchEnhancer(suggestions: seq<string>, niche: string)

  /** The two style sheets: the client's screen layout and the proxy's single-page print layout. */
  datatype Layout = Screen | Print

  datatype HeaderItem =
    | Logo(url: string)
    | ProfileImage(url: string, alt: string)
    | CreatorName(name: string)
    | NicheLine(text: string)
    | Location(place: string)

  datatype PlatformCard = PlatformCard(name: string, followers: string, handle: string)

  datatype AudienceItem =
    | GenderSplit(value: string)
    | AgeRange(value: string)
    | TopCountries(value: string)

  datatype KitSection =
    | AboutMe(bio: string)
    | PlatformStatistics(cards: seq<PlatformCard>)
    | AudienceDemographics(items: seq<AudienceItem>)
    | Services(text: string)
    | PastCollaborations(text: string)

  /**
   * The professional media kit, at the level of its blocks: the page title,
   * the header colours, the header items, the content sections in order and
   * the contact block (which always shows, with an e-mail line or without).
   */
  datatype Kit = Kit(
    layout: Layout,
    title: string,
    accent: string,
    gradientEnd: string,
    header: seq<HeaderItem>,
    sections: seq<KitSection>,
    contactEmail: Option<string>)

  /** `htmlContent` is either the kit document or text the model wrote (the e-mail style). */
  datatype KitContent = Document(kit: Kit) | Text(text: string)

  datatype MediaKitResponse = MediaKitResponse(
    content: KitContent,
    sections: seq<string>,
    designTips: seq<string>,
    matchedData: seq<InfluencerData>)

  /** `list.slice(0, n)`. */
  function Take<T>(s: seq<T>, n: nat): (r: seq<T>)
    ensures |r| == (if |s| <= n then |s| else n)
    ensures r == s[..|r|]
  {
    if |s| <= n then s else s[..n]
  }

  /** `cond ? [x] : []`: a one-element list when `present` holds, else the empty one. */
  function Optional<T>(present: bool, x: T): (r: seq<T>)
    ensures present ==> r == [x]
    ensures !present ==> r == []
  {
    if present then [x] else []
  }
}
