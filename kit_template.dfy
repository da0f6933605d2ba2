/**
 * `createProfessionalMediaKit`, which exists twice: in the client
 * (`src/lib/openrouter.ts`, screen layout) and in the AI proxy
 * (`supabase/functions/openrouter-proxy/index.ts`, single-page print
 * layout). The two differ only in their style sheets; the blocks and the
 * conditions under which each one appears are the same, so one rendering
 * function with the layout as a parameter models both.
 */
module KitTemplate {
  import opened Wrappers
  import opened Types
  import opened Text

  const DefaultAccent := "#6366f1"
  const DefaultGradientEnd := "#8b5cf6"

  /** The position of a header item in the header. */
  function HeaderRank(h: HeaderItem): nat {
    match h
    case Logo(_) => 0
    case ProfileImage(_, _) => 1
    case CreatorName(_) => 2
    case NicheLine(_) => 3
    case Location(_) => 4
  }

  /** The heading a content section shows. */
  function SectionTitle(s: KitSection): string {
    match s
    case AboutMe(_) => "About Me"
    case PlatformStatistics(_) => "Platform Statistics"
    case AudienceDemographics(_) => "Audience Demographics"
    case Services(_) => "Services"
    case PastCollaborations(_) => "Past Collaborations"
  }

  /** The position of a content section in the page. */
  function SectionRank(s: KitSection): nat {
    match s
    case AboutMe(_) => 0
    case PlatformStatistics(_) => 1
    case AudienceDemographics(_) => 2
    case Services(_) => 3
    case PastCollaborations(_) => 4
  }

  function AudienceLabel(a: AudienceItem): string {
    match a
    case GenderSplit(_) => "Gender Split"
    case AgeRange(_) => "Age Range"
    case TopCountries(_) => "Top Countries"
  }

  /** The audience field an item shows. */
  function AudienceValue(a: Audience, item: AudienceItem): string {
    match item
    case GenderSplit(_) => a.gender
    case AgeRange(_) => a.age
    case TopCountries(_) => a.countries
  }

  function AudienceRank(a: AudienceItem): nat {
    match a
    case GenderSplit(_) => 0
    case AgeRange(_) => 1
    case TopCountries(_) => 2
  }

  predicate ShowsSection(ss: seq<KitSection>, title: string) {
    exists i :: 0 <= i < |ss| && SectionTitle(ss[i]) == title
  }

  predicate ShowsItem(items: seq<AudienceItem>, name: string) {
    exists i :: 0 <= i < |items| && AudienceLabel(items[i]) == name
  }

  predicate ShowsHeader(h: seq<HeaderItem>, n: nat) {
    exists i :: 0 <= i < |h| && HeaderRank(h[i]) == n
  }

  /** The item of the header with the given rank, as the request fills it in. */
  function HeaderSlot(req: MediaKitRequest, rank: nat): HeaderItem
    requires rank < 5
  {
    if rank == 0 then Logo(req.brandLogoUrl)
    else if rank == 1 then ProfileImage(req.profileImageUrl, req.creatorName)
    else if rank == 2 then CreatorName(req.creatorName)
    else if rank == 3 then NicheLine(req.niche + " Creator")
    else Location(req.location)
  }

  /** The header: logo and profile image when their URLs are set, the name, the niche line, the location when set. */
  function Header(req: MediaKitRequest): (h: seq<HeaderItem>)
    ensures forall i :: 0 <= i < |h| - 1 ==> HeaderRank(h[i]) < HeaderRank(h[i + 1])
  {
    var images := Optional(req.brandLogoUrl != "", Logo(req.brandLogoUrl))
      + Optional(req.profileImageUrl != "", ProfileImage(req.profileImageUrl, req.creatorName));
    var rest := [CreatorName(req.creatorName), NicheLine(req.niche + " Creator")]
      + Optional(req.location != "", Location(req.location));
    assert forall i :: 0 <= i < |images| ==> HeaderRank(images[i]) == i + (if req.brandLogoUrl != "" then 0 else 1);
    assert forall i :: 0 <= i < |rest| ==> HeaderRank(rest[i]) == i + 2;
    images + rest
  }

  /** Which header items show, and that each shows the request's own value. */
  lemma HeaderShape(req: MediaKitRequest)
    ensures ShowsHeader(Header(req), 0) <==> req.brandLogoUrl != ""
    ensures ShowsHeader(Header(req), 1) <==> req.profileImageUrl != ""
    ensures ShowsHeader(Header(req), 2) && ShowsHeader(Header(req), 3)
    ensures ShowsHeader(Header(req), 4) <==> req.location != ""
    ensures forall i :: 0 <= i < |Header(req)| ==>
      HeaderRank(Header(req)[i]) < 5 && Header(req)[i] == HeaderSlot(req, HeaderRank(Header(req)[i]))
  {
    var h := Header(req);
    var logo := if req.brandLogoUrl != "" then 1 else 0;
    var image := if req.profileImageUrl != "" then 1 else 0;
    if req.brandLogoUrl != "" {
      assert HeaderRank(h[0]) == 0;
    }
    if req.profileImageUrl != "" {
      assert HeaderRank(h[logo]) == 1;
    }
    assert HeaderRank(h[logo + image]) == 2;
    assert HeaderRank(h[logo + image + 1]) == 3;
    if req.location != "" {
      assert HeaderRank(h[logo + image + 2]) == 4;
    }
  }

  /** `platforms.map(...)`: one card per platform, in order. */
  function Cards(platforms: seq<Platform>): (cards: seq<PlatformCard>)
    ensures |cards| == |platforms|
    ensures forall i :: 0 <= i < |platforms| ==>
      cards[i] == PlatformCard(platforms[i].name, platforms[i].followers, platforms[i].handle)
  {
    if platforms == [] then []
    else [PlatformCard(platforms[0].name, platforms[0].followers, platforms[0].handle)] + Cards(platforms[1..])
  }

  predicate HasAudience(a: Audience) {
    a.gender != "" || a.age != "" || a.countries != ""
  }

  /** The audience grid: one item per non-empty field, in the fixed order. */
  function AudienceItems(a: Audience): (items: seq<AudienceItem>)
    ensures ShowsItem(items, "Gender Split") <==> a.gender != ""
    ensures ShowsItem(items, "Age Range") <==> a.age != ""
    ensures ShowsItem(items, "Top Countries") <==> a.countries != ""
    ensures items != [] <==> HasAudience(a)
    ensures forall i :: 0 <= i < |items| ==> items[i].value == AudienceValue(a, items[i])
    ensures forall i, j :: 0 <= i < j < |items| ==> AudienceRank(items[i]) < AudienceRank(items[j])
  {
    var g := Optional(a.gender != "", GenderSplit(a.gender));
    var r := Optional(a.age != "", AgeRange(a.age));
    var c := Optional(a.countries != "", TopCountries(a.countries));
    assert a.gender != "" ==> AudienceLabel((g + r + c)[0]) == "Gender Split";
    assert a.age != "" ==> AudienceLabel((g + r + c)[|g|]) == "Age Range";
    assert a.countries != "" ==> AudienceLabel((g + r + c)[|g| + |r|]) == "Top Countries";
    g + r + c
  }

  /** The section of the given rank, as the request fills it in. */
  function SectionFor(req: MediaKitRequest, rank: nat): (s: KitSection)
    ensures rank < 5 ==> SectionRank(s) == rank
  {
    if rank == 0 then AboutMe(req.bio)
    else if rank == 1 then PlatformStatistics(Cards(req.platforms))
    else if rank == 2 then AudienceDemographics(AudienceItems(req.audience))
    else if rank == 3 then Services(req.services)
    else PastCollaborations(req.pastCollabs)
  }

  /** The ranks of the sections that show: about and platforms always, then audience, services and past collaborations when set. */
  function ShownRanks(req: MediaKitRequest): (ks: seq<nat>)
    ensures |ks| >= 2 && ks[0] == 0 && ks[1] == 1
    ensures forall i :: 0 <= i < |ks| ==> ks[i] < 5
    ensures forall i :: 0 <= i < |ks| - 1 ==> ks[i] < ks[i + 1]
    ensures 2 in ks <==> HasAudience(req.audience)
    ensures 3 in ks <==> req.services != ""
    ensures 4 in ks <==> req.pastCollabs != ""
  {
    var tail := (if req.services != "" then [3] else []) + (if req.pastCollabs != "" then [4] else []);
    [0, 1] + (if HasAudience(req.audience) then [2] else []) + tail
  }

  /** The sections of the given ranks, in the same order. */
  function SectionsAt(req: MediaKitRequest, ks: seq<nat>): (ss: seq<KitSection>)
    ensures |ss| == |ks|
    ensures forall i :: 0 <= i < |ks| ==> ss[i] == SectionFor(req, ks[i])
  {
    if ks == [] then [] else [SectionFor(req, ks[0])] + SectionsAt(req, ks[1..])
  }

  /** The content sections, in rank order. */
  function Sections(req: MediaKitRequest): (ss: seq<KitSection>)
    ensures |ss| >= 2 && ss[0] == AboutMe(req.bio) && ss[1] == PlatformStatistics(Cards(req.platforms))
    ensures forall i :: 0 <= i < |ss| - 1 ==> SectionRank(ss[i]) < SectionRank(ss[i + 1])
  {
    var ks := ShownRanks(req);
    var ss := SectionsAt(req, ks);
    assert forall i :: 0 <= i < |ss| ==> SectionRank(ss[i]) == ks[i];
    ss
  }

  /** The heading of the section of each rank. */
  function RankTitle(rank: nat): string
    requires rank < 5
  {
    ["About Me", "Platform Statistics", "Audience Demographics", "Services", "Past Collaborations"][rank]
  }

  /** The headings differ in their first two letters. */
  lemma RankTitleInjective(a: nat, b: nat)
    requires a < 5 && b < 5 && RankTitle(a) == RankTitle(b)
    ensures a == b
  {
    assert RankTitle(a)[0] == RankTitle(b)[0] && RankTitle(a)[1] == RankTitle(b)[1];
  }

  lemma TitleByRank(s: KitSection)
    ensures SectionRank(s) < 5 && SectionTitle(s) == RankTitle(SectionRank(s))
  {
  }

  /** A section of rank 2 to 4 shows exactly when its rank is among the shown ranks. */
  lemma ShowsRank(req: MediaKitRequest, t: nat)
    requires 2 <= t < 5
    ensures ShowsSection(Sections(req), RankTitle(t)) <==> t in ShownRanks(req)
  {
    if t in ShownRanks(req) {
      RankShown(req, t);
    }
    if ShowsSection(Sections(req), RankTitle(t)) {
      ShownRank(req, t);
    }
  }

  lemma RankShown(req: MediaKitRequest, t: nat)
    requires t < 5 && t in ShownRanks(req)
    ensures ShowsSection(Sections(req), RankTitle(t))
  {
    var ks := ShownRanks(req);
    var ss := Sections(req);
    var i :| 0 <= i < |ks| && ks[i] == t;
    assert ss[i] == SectionFor(req, t);
    TitleByRank(ss[i]);
  }

  lemma ShownRank(req: MediaKitRequest, t: nat)
    requires t < 5 && ShowsSection(Sections(req), RankTitle(t))
    ensures t in ShownRanks(req)
  {
    var ks := ShownRanks(req);
    var ss := Sections(req);
    var i :| 0 <= i < |ss| && SectionTitle(ss[i]) == RankTitle(t);
    var r := SectionRank(ss[i]);
    TitleByRank(ss[i]);
    RankTitleInjective(r, t);
    assert ss[i] == SectionFor(req, ks[i]);
    assert r == ks[i];
  }

  /** Which sections show, and that each shows the request's own content. */
  lemma SectionsShape(req: MediaKitRequest)
    ensures ShowsSection(Sections(req), "Audience Demographics") <==> HasAudience(req.audience)
    ensures ShowsSection(Sections(req), "Services") <==> req.services != ""
    ensures ShowsSection(Sections(req), "Past Collaborations") <==> req.pastCollabs != ""
    ensures forall i :: 0 <= i < |Sections(req)| ==> Sections(req)[i] == SectionFor(req, SectionRank(Sections(req)[i]))
  {
    ShowsRank(req, 2);
    ShowsRank(req, 3);
    ShowsRank(req, 4);
    var ks := ShownRanks(req);
    assert forall i :: 0 <= i < |ks| ==> Sections(req)[i] == SectionFor(req, ks[i]);
  }

  /** `createProfessionalMediaKit(request)` under the given style sheet. */
  function Render(req: MediaKitRequest, layout: Layout): (k: Kit)
    ensures k.layout == layout && k.title == req.creatorName + " - Media Kit"
    ensures k.accent == OrElse(req.brandColor, DefaultAccent)
    ensures k.gradientEnd == OrElse(req.brandColor, DefaultGradientEnd)
    ensures k.header == Header(req) && k.sections == Sections(req)
    ensures k.contactEmail == (if req.email != "" then Some(req.email) else None)
  {
    Kit(layout, req.creatorName + " - Media Kit", OrElse(req.brandColor, DefaultAccent),
        OrElse(req.brandColor, DefaultGradientEnd), Header(req), Sections(req),
        if req.email != "" then Some(req.email) else None)
  }

  /** Without a brand colour the header runs from indigo to violet; with one it is a single colour. */
  lemma DefaultColours(req: MediaKitRequest, layout: Layout)
    ensures req.brandColor == "" ==> Render(req, layout).accent == "#6366f1" && Render(req, layout).gradientEnd == "#8b5cf6"
    ensures req.brandColor != "" ==> Render(req, layout).accent == Render(req, layout).gradientEnd == req.brandColor
  {
  }

  /** The client's screen kit and the proxy's print kit show the same blocks; only the style sheet differs. */
  lemma LayoutsAgree(req: MediaKitRequest)
    ensures Render(req, Screen).(layout := Print) == Render(req, Print)
  {
  }

  /** A kit with nothing optional filled in has exactly the about and platform sections and no e-mail line. */
  lemma MinimalKit(req: MediaKitRequest, layout: Layout)
    requires !HasAudience(req.audience) && req.services == "" && req.pastCollabs == "" && req.email == ""
    ensures Render(req, layout).sections == [AboutMe(req.bio), PlatformStatistics(Cards(req.platforms))]
    ensures Render(req, layout).contactEmail.None?
  {
    assert ShownRanks(req) == [0, 1];
  }
}
