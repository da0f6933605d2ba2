/**
 * The AI proxy edge function (`supabase/functions/openrouter-proxy/index.ts`):
 * the action dispatcher and its error-to-status mapping, the upstream call
 * and the text it throws, the brand-match line parser, the DM prompt
 * choice, the proxy's own pricing calculator and the media-kit bio
 * handling.
 *
 * The model behind OpenRouter is a parameter `llm` from a prompt to what
 * the upstream call produced. Prompts are kept as structured values: which
 * prompt is sent, and with which fields, is modelled; its wording is not.
 */
module Proxy {
  import opened Wrappers
  import opened Numeric
  import opened Text
  import opened Types
  import opened Pricing
  import KitTemplate
  import ClientAi

  /** The prompts the proxy sends, with the request fields each one interpolates. */
  datatype Prompt =
    | OutreachTipPrompt(platform: string)
    | PricingTipPrompt
    | BrandMatchPrompt(niche: string)
    | BioPrompt(bio: string, niche: string)
    | DmReplyPrompt(tone: string, brandReply: string, platform: string, followers: string, engagement: string, brandType: string)
    | DmOutreachPrompt(tone: string, platform: string, brandType: string, followers: string, engagement: string)
    | MoreVariant(base: Prompt, hint: string)
    | FocusVariant(base: Prompt)
    | PricingPrompt(request: PricingRequest)
    | EmailKitPrompt(kit: MediaKitRequest)
    | ShortenBioPrompt(bio: string)

  /**
   * What one call to the chat-completions endpoint produced: the message
   * content, a non-OK status with the upstream `error.message` ("" when
   * there is none), or a throw (network failure, unreadable body).
   */
  datatype LlmReply = Answer(content: string) | HttpError(status: nat, message: string) | Failed(reason: string)

  type Llm = Prompt -> LlmReply

  type Outcome<T> = ClientAi.Outcome<T>

  /** `callOpenRouter`: the content, or an error whose message embeds the upstream status. */
  function CallOpenRouter(prompt: Prompt, llm: Llm): (o: Outcome<string>)
    ensures llm(prompt).Answer? <==> o.Returned?
    ensures llm(prompt).Answer? ==> o.value == llm(prompt).content
    ensures llm(prompt).Failed? ==> o.message == llm(prompt).reason
  {
    match llm(prompt)
    case Answer(content) => ClientAi.Returned(content)
    case HttpError(status, message) => ClientAi.Thrown(UpstreamMessage(status, message))
    case Failed(reason) => ClientAi.Thrown(reason)
  }

  function UpstreamMessage(status: nat, message: string): string {
    "OpenRouter API error: " + NatToString(status) + " - " + OrElse(message, "Unknown error")
  }

  /** The status code can be found in the text of an upstream error. */
  lemma UpstreamMessageHasStatus(status: nat, message: string)
    ensures Contains(UpstreamMessage(status, message), NatToString(status))
  {
    var a, b := "OpenRouter API error: ", " - " + OrElse(message, "Unknown error");
    assert UpstreamMessage(status, message) == a + NatToString(status) + b;
    ContainsMiddle(a, NatToString(status), b);
  }

  lemma StatusTexts()
    ensures NatToString(402) == "402" && NatToString(429) == "429"
  {
    assert NatToString(4) == "4";
    assert NatToString(40) == "40";
    assert NatToString(42) == "42";
  }

  /** The JSON value a successful action answers with. */
  datatype ProxyResult =
    | TextResult(text: string)
    | BrandResult(enhancer: BrandMatchEnhancer)
    | DmResult(dm: DMResponse)
    | PricingResult(pricing: PricingResponse)
    | KitResult(kit: MediaKitResponse)

  datatype ProxyBody = PlainOk | ErrorJson(error: string) | ResultJson(result: ProxyResult)

  datatype ProxyResponse = ProxyResponse(status: nat, body: ProxyBody)

  /**
   * Everything the seven actions read from `data`; each action reads only
   * its own fields.
   */
  datatype ActionData = ActionData(
    platform: string,
    niche: string,
    bio: string,
    dmRequest: DMRequest,
    pricingRequest: PricingRequest,
    kitRequest: MediaKitRequest,
    influencerData: seq<InfluencerData>)

  /** The request body: the parsed `{ action, data }`, or the message `req.json()` throws. */
  datatype RequestBody = Parsed(action: string, data: ActionData) | Malformed(message: string)

  datatype ProxyRequest = ProxyRequest(verb: string, body: RequestBody)

  /** The outer `catch`: a message naming 429 or 402 becomes the quota sentinel with status 402; anything else a 500 with the message. */
  function Caught(message: string): (resp: ProxyResponse)
    ensures resp.body.ErrorJson?
    ensures resp.status == 402 <==> Contains(message, "429") || Contains(message, "402")
    ensures resp.status == 402 ==> resp.body.error == ClientAi.QuotaMessage
    ensures resp.status != 402 ==> resp == ProxyResponse(500, ErrorJson(message))
  {
    if Contains(message, "429") || Contains(message, "402") then ProxyResponse(402, ErrorJson(ClientAi.QuotaMessage))
    else ProxyResponse(500, ErrorJson(message))
  }

  /** An action's outcome as a response: the value with status 200, or what the `catch` makes of the error. */
  function Respond(o: Outcome<ProxyResult>): (resp: ProxyResponse)
    ensures o.Returned? ==> resp == ProxyResponse(200, ResultJson(o.value))
    ensures o.Thrown? ==> resp == Caught(o.message)
  {
    match o
    case Returned(r) => ProxyResponse(200, ResultJson(r))
    case Thrown(m) => Caught(m)
  }

  function AsText(o: Outcome<string>): Outcome<ProxyResult> {
    match o
    case Returned(v) => ClientAi.Returned(TextResult(v))
    case Thrown(m) => ClientAi.Thrown(m)
  }

  // ---------------------------------------------------------------------
  // Brand-match suggestions

  /**
   * A line that `line.trim()` turns into the empty string, so the filter
   * drops it (`Text.Trim` is empty exactly on all-white-space input).
   */
  predicate Blank(line: string) {
    AllSpace(line)
  }

  /** `lines.filter(line => line.trim())`: the lines that are not blank, in order. */
  function NonBlank(lines: seq<string>): (r: seq<string>)
    ensures |r| <= |lines|
    ensures forall k :: 0 <= k < |r| ==> !Blank(r[k])
  {
    if lines == [] then []
    else if !Blank(lines[0]) then [lines[0]] + NonBlank(lines[1..])
    else NonBlank(lines[1..])
  }

  lemma NonBlankSingle(line: string)
    ensures NonBlank([line]) == if Blank(line) then [] else [line]
  {
    assert [line][1..] == [];
  }

  /** Filtering keeps each non-blank line and drops each blank one, so it distributes over concatenation. */
  lemma {:induction false} NonBlankAppend(a: seq<string>, b: seq<string>)
    ensures NonBlank(a + b) == NonBlank(a) + NonBlank(b)
  {
    if a == [] {
      assert a + b == b;
    } else {
      assert (a + b)[0] == a[0];
      assert (a + b)[1..] == a[1..] + b;
      NonBlankAppend(a[1..], b);
      if !Blank(a[0]) {
        assert NonBlank(a + b) == [a[0]] + NonBlank(a[1..] + b);
        assert NonBlank(a) == [a[0]] + NonBlank(a[1..]);
        assert [a[0]] + (NonBlank(a[1..]) + NonBlank(b)) == ([a[0]] + NonBlank(a[1..])) + NonBlank(b);
      } else {
        assert NonBlank(a + b) == NonBlank(a[1..] + b);
      }
    }
  }

  /** The number of decimal digits `s` starts with. */
  function LeadingDigits(s: string): (k: nat)
    ensures k <= |s| && AllDigits(s[..k])
    ensures k < |s| ==> !IsDigit(s[k])
  {
    if s != [] && IsDigit(s[0]) then
      var k := 1 + LeadingDigits(s[1..]);
      assert s[..k] == [s[0]] + s[1..][..k - 1];
      k
    else 0
  }

  /** A digit run ended by a non-digit is exactly the leading run. */
  lemma {:induction false} LeadingDigitsExact(s: string, k: nat)
    requires k < |s| && AllDigits(s[..k]) && !IsDigit(s[k])
    ensures LeadingDigits(s) == k
  {
    if k > 0 {
      assert IsDigit(s[..k][0]);
      assert s[1..][..k - 1] == s[..k][1..];
      LeadingDigitsExact(s[1..], k - 1);
    }
  }

  /** `line` starts with `k` digits and then a dot: the text `/^\d+\./` matches. */
  predicate NumberedUpTo(line: string, k: nat) {
    0 < k < |line| && AllDigits(line[..k]) && line[k] == '.'
  }

  /** `line.replace(/^\d+\./, '')`: a leading run of digits followed by a dot is dropped. */
  function StripNumber(line: string): (r: string)
    ensures forall k :: NumberedUpTo(line, k) ==> r == line[k + 1..]
    ensures (forall k :: !NumberedUpTo(line, k)) ==> r == line
    ensures line == [] || !IsDigit(line[0]) ==> r == line
  {
    var n := LeadingDigits(line);
    forall k | NumberedUpTo(line, k)
      ensures k == n
    {
      LeadingDigitsExact(line, k);
    }
    if 0 < n < |line| && line[n] == '.' then
      assert NumberedUpTo(line, n);
      line[n + 1..]
    else line
  }

  /**
   * One suggestion line cleaned up: its leading number (digits, a dot and
   * any white space) is removed, then the line is trimmed. The white space
   * the pattern takes after the dot is white space `trim` drops anyway.
   */
  function Clean(line: string): (r: string)
    ensures Unpadded(r)
  {
    Trim(StripNumber(line))
  }

  /** A numbered line "N. text" is cleaned to the trimmed text after the dot. */
  lemma CleanNumbered(digits: string, text: string)
    requires digits != [] && AllDigits(digits)
    ensures Clean(digits + "." + text) == Trim(text)
  {
    var line := digits + "." + text;
    var k := |digits|;
    assert line[..k] == digits && NumberedUpTo(line, k);
    assert line[k + 1..] == text;
  }

  /** A line that does not start with a digit is only trimmed. */
  lemma CleanUnnumbered(line: string)
    requires line == [] || !IsDigit(line[0])
    ensures Clean(line) == Trim(line)
  {
  }

  /** The first suggestion of a numbered list, with a trailing blank. */
  lemma CleanExample()
    ensures Clean("1. Foo ") == "Foo"
  {
    var line := "1. Foo ";
    assert line[..1] == "1" && NumberedUpTo(line, 1);
    assert line[2..] == " Foo ";
    assert StripNumber(line) == " Foo ";
    TrimExample();
  }

  function CleanAll(lines: seq<string>): (r: seq<string>)
    ensures |r| == |lines|
    ensures forall k :: 0 <= k < |r| ==> r[k] == Clean(lines[k])
  {
    seq(|lines|, k requires 0 <= k < |lines| => Clean(lines[k]))
  }

  /** The three suggestions used when the model's text has fewer than three non-blank lines. */
  const SuggestionFallback: seq<string> := [
    "\U{F0}\U{178}\U{17D}\U{AF} \"Content that converts viewers into loyal customers\"",
    "\U{F0}\U{178}\U{201C}\U{2C6} \"Authentic storytelling that drives real business results\"",
    "\U{E2}\U{153}\U{A8} \"Creative campaigns that make your brand unforgettable\""]

  /** The non-blank lines of the model's text. */
  function SuggestionLines(response: string): seq<string> {
    NonBlank(Split(response, '\n'))
  }

  /** `generateBrandMatchEnhancer` after the model answered. */
  function BrandMatch(niche: string, response: string): (r: BrandMatchEnhancer)
    ensures r.niche == niche
    ensures |r.suggestions| == 3
    ensures |SuggestionLines(response)| >= 3 ==>
      forall k :: 0 <= k < 3 ==> r.suggestions[k] == Clean(SuggestionLines(response)[k])
    ensures |SuggestionLines(response)| < 3 ==> r.suggestions == SuggestionFallback
  {
    var suggestions := CleanAll(Take(SuggestionLines(response), 3));
    BrandMatchEnhancer(if |suggestions| >= 3 then suggestions else SuggestionFallback, niche)
  }

  /** The non-blank lines of three lines with blank lines between and after them are those three. */
  lemma LinesWithBlanks(a: string, b: string, c: string)
    requires !Blank(a) && !Blank(b) && !Blank(c)
    ensures NonBlank([a, "", b, c, ""]) == [a, b, c]
  {
    NonBlankSingle(a);
    NonBlankSingle("");
    NonBlankSingle(b);
    NonBlankSingle(c);
    assert [a, "", b, c, ""] == [a] + ([""] + ([b] + ([c] + [""])));
    NonBlankAppend([c], [""]);
    NonBlankAppend([b], [c] + [""]);
    NonBlankAppend([""], [b] + ([c] + [""]));
    NonBlankAppend([a], [""] + ([b] + ([c] + [""])));
  }

  /**
   * Three suggestion lines with blank lines between and after them are the
   * three lines `BrandMatch` takes, in order.
   */
  lemma NumberedLinesParsed(a: string, b: string, c: string)
    requires !Blank(a) && !Blank(b) && !Blank(c)
    requires '\n' !in a && '\n' !in b && '\n' !in c
    ensures SuggestionLines(Join([a, "", b, c, ""], '\n')) == [a, b, c]
  {
    var lines := [a, "", b, c, ""];
    assert forall k :: 0 <= k < |lines| ==> '\n' !in lines[k];
    SplitJoin(lines, '\n');
    LinesWithBlanks(a, b, c);
  }

  /** A piece without the separator, then the separator: the piece is the first part. */
  lemma {:induction false} SplitAfterPiece(w: string, rest: string, sep: char)
    requires sep !in w
    ensures Split(w + [sep] + rest, sep) == [w] + Split(rest, sep)
    decreases |w|
  {
    var s := w + [sep] + rest;
    if w == [] {
      assert s[1..] == rest;
    } else {
      assert s[1..] == w[1..] + [sep] + rest;
      SplitAfterPiece(w[1..], rest, sep);
      assert [w[0]] + w[1..] == w;
    }
  }

  /** A piece without the separator splits into itself. */
  lemma {:induction false} SplitPiece(w: string, sep: char)
    requires sep !in w
    ensures Split(w, sep) == [w]
    decreases |w|
  {
    if w != [] {
      SplitPiece(w[1..], sep);
      assert [w[0]] + w[1..] == w;
    }
  }

  /** Joining lines that hold no separator and splitting again gives the lines back. */
  lemma {:induction false} SplitJoin(lines: seq<string>, sep: char)
    requires |lines| >= 1
    requires forall k :: 0 <= k < |lines| ==> sep !in lines[k]
    ensures Split(Join(lines, sep), sep) == lines
  {
    if |lines| == 1 {
      SplitPiece(lines[0], sep);
    } else {
      SplitJoin(lines[1..], sep);
      SplitAfterPiece(lines[0], Join(lines[1..], sep), sep);
      assert [lines[0]] + lines[1..] == lines;
    }
  }

  /** `generateBrandMatchEnhancer`. */
  function GenerateBrandMatchEnhancer(niche: string, llm: Llm): (o: Outcome<BrandMatchEnhancer>)
    ensures o.Returned? <==> llm(BrandMatchPrompt(niche)).Answer?
    ensures o.Returned? ==> o.value == BrandMatch(niche, llm(BrandMatchPrompt(niche)).content)
  {
    match CallOpenRouter(BrandMatchPrompt(niche), llm)
    case Returned(text) => ClientAi.Returned(BrandMatch(niche, text))
    case Thrown(m) => ClientAi.Thrown(m)
  }

  // ---------------------------------------------------------------------
  // DM generation

  /** The reply prompt only for a reply with a brand message; the outreach prompt otherwise. */
  function DmPrompt(req: DMRequest): (p: Prompt)
    ensures p.DmReplyPrompt? <==> req.messageType == "reply" && ClientAi.HasBrandReply(req)
    ensures p.DmOutreachPrompt? <==> !(req.messageType == "reply" && ClientAi.HasBrandReply(req))
  {
    if req.messageType == "reply" && ClientAi.HasBrandReply(req) then
      DmReplyPrompt(req.tone, req.brandReply.value, req.platform, req.followerCount, req.engagementRate,
                    OrElse(req.brandType, "general"))
    else
      DmOutreachPrompt(req.tone, req.platform, OrElse(req.brandType, "a brand"), req.followerCount, req.engagementRate)
  }

  /** The wording that asks for a message in the given tone. */
  function ToneHint(t: ClientAi.Tone): string {
    match t
    case Professional => "professional and business-oriented"
    case Friendly => "friendly and approachable"
    case Confident => "confident and results-focused"
  }

  /** The next tone in the cycle professional, friendly, confident. */
  function Rotate(t: ClientAi.Tone): ClientAi.Tone {
    match t
    case Professional => ClientAi.Friendly
    case Friendly => ClientAi.Confident
    case Confident => ClientAi.Professional
  }

  /** The hint of the first alternative. */
  function AltHint(tone: string): string {
    if tone == "professional" then "friendly and approachable"
    else if tone == "friendly" then "confident and results-focused"
    else "professional and business-oriented"
  }

  /** The first alternative asks for the next tone in the cycle; any unknown tone counts as the third. */
  lemma AltHintRotates(tone: string)
    ensures AltHint(tone) == ToneHint(Rotate(ClientAi.ToneOf(tone)))
  {
  }

  /**
   * `generateDMWithAI` in the proxy: the message and two variants of its
   * prompt. An error in the first call is the result; of the two variant
   * calls, the first one's error is reported when both fail.
   */
  function GenerateDm(req: DMRequest, data: seq<InfluencerData>, llm: Llm): (o: Outcome<DMResponse>)
    ensures o.Returned? <==>
      && llm(DmPrompt(req)).Answer?
      && llm(MoreVariant(DmPrompt(req), AltHint(req.tone))).Answer?
      && llm(FocusVariant(DmPrompt(req))).Answer?
    ensures o.Returned? ==>
      && o.value.primary == llm(DmPrompt(req)).content
      && o.value.alternatives == [llm(MoreVariant(DmPrompt(req), AltHint(req.tone))).content,
                                  llm(FocusVariant(DmPrompt(req))).content]
      && o.value.matchedData == Take(data, 3)
  {
    var base := DmPrompt(req);
    match CallOpenRouter(base, llm)
    case Thrown(m) => ClientAi.Thrown(m)
    case Returned(primary) =>
      var alt1 := CallOpenRouter(MoreVariant(base, AltHint(req.tone)), llm);
      var alt2 := CallOpenRouter(FocusVariant(base), llm);
      if alt1.Thrown? then ClientAi.Thrown(alt1.message)
      else if alt2.Thrown? then ClientAi.Thrown(alt2.message)
      else ClientAi.Returned(DMResponse(primary, [alt1.value, alt2.value], Take(data, 3)))
  }

  // ---------------------------------------------------------------------
  // Pricing

  /** The proxy's price table: three platforms only, compared case-insensitively. */
  function ProxyTable(platform: string): (t: Option<seq<nat>>)
    ensures t.Some? ==> |t.value| == 5
    ensures t.Some? <==> Lower(platform) in ["instagram", "tiktok", "youtube"]
  {
    var p := Lower(platform);
    if p == "instagram" then Some([75, 200, 500, 1500, 5000])
    else if p == "tiktok" then Some([100, 300, 700, 2000, 6000])
    else if p == "youtube" then Some([200, 600, 1500, 5000, 15000])
    else None
  }

  function ProxyBase(platform: string, followers: Option<nat>): nat {
    match ProxyTable(platform)
    case None => 0
    case Some(t) => t[Tier(followers)]
  }

  /** Engagement above 4 raises the price by 30%, above 2 by 10%. */
  function ProxyMultiplier(e: Rate): (m: real)
    ensures 1.0 <= m <= 1.3
  {
    if Above(e, 4.0) then 1.3 else if Above(e, 2.0) then 1.1 else 1.0
  }

  /** A higher engagement rate never lowers the multiplier. */
  lemma ProxyMultiplierMonotone(a: real, b: real)
    requires a <= b
    ensures ProxyMultiplier(Some(a)) <= ProxyMultiplier(Some(b))
  {
  }

  function ProxyRecommended(req: PricingRequest, e: Rate): (rec: nat) {
    var x := ProxyBase(req.platform, FollowerNumber(req.followerCount)) as real * ProxyMultiplier(e);
    RoundMonotone(0.0, x);
    RoundInt(0);
    Round(x)
  }

  /** The range: 70% and 140% of the recommended price. */
  function ProxyRange(req: PricingRequest, e: Rate): (r: PriceRange)
    ensures 0 <= r.min <= r.recommended <= r.max
    ensures r.recommended == ProxyRecommended(req, e)
    ensures r.min == Round(r.recommended as real * 0.7) && r.max == Round(r.recommended as real * 1.4)
  {
    SpreadOrdered(ProxyRecommended(req, e), 0.7, 1.4);
    Spread(ProxyRecommended(req, e), 0.7, 1.4)
  }

  predicate ProxyPremiumNiche(niche: string) {
    ContainsAny(Lower(niche), ["finance", "investing", "luxury", "b2b"])
  }

  /** The premium factors: engagement first, then the niche. */
  function ProxyPremiumFactors(e: Rate, niche: string): (r: seq<string>)
    ensures "High engagement rate" in r <==> Above(e, 4.0)
    ensures "Premium niche" in r <==> ProxyPremiumNiche(niche)
    ensures |r| <= 2 && (|r| == 2 ==> r == ["High engagement rate", "Premium niche"])
    ensures forall f :: f in r ==> f in ["High engagement rate", "Premium niche"]
  {
    (if Above(e, 4.0) then ["High engagement rate"] else []) + (if ProxyPremiumNiche(niche) then ["Premium niche"] else [])
  }

  /** The pricing answer once the model has replied with `response`. */
  function ProxyPricing(req: PricingRequest, data: seq<InfluencerData>, response: string, e: Rate): PricingResponse {
    PricingResponse(ProxyRange(req, e), response, ExampleDeals(data), ProxyPremiumFactors(e, req.niche), data)
  }

  function ProxyPricingOutcome(req: PricingRequest, data: seq<InfluencerData>, llm: Llm, parseRate: string -> Rate): Outcome<PricingResponse> {
    match CallOpenRouter(PricingPrompt(req), llm)
    case Returned(text) => ClientAi.Returned(ProxyPricing(req, data, text, parseRate(req.engagementRate)))
    case Thrown(m) => ClientAi.Thrown(m)
  }

  /** In the proxy the niche never moves the price; it can only add a premium factor. */
  lemma NicheNeverChangesProxyPrice(req: PricingRequest, niche: string, e: Rate)
    ensures ProxyRange(req.(niche := niche), e) == ProxyRange(req, e)
  {
  }

  /** Twitter and every other platform outside the table price at zero. */
  lemma UnknownPlatformPricesZero(req: PricingRequest, e: Rate)
    requires ProxyTable(req.platform).None?
    ensures ProxyRange(req, e) == PriceRange(0, 0, 0)
  {
    RoundInt(0);
    SpreadOfZero(0.7, 1.4);
  }

  /** `generatePricingWithAI` in the proxy, step by step: the model is asked first, then the price is computed. */
  method GeneratePricingWithAI(req: PricingRequest, data: seq<InfluencerData>, llm: Llm, parseRate: string -> Rate)
    returns (o: Outcome<PricingResponse>)
    ensures o == ProxyPricingOutcome(req, data, llm, parseRate)
  {
    var response := CallOpenRouter(PricingPrompt(req), llm);
    if response.Thrown? {
      return ClientAi.Thrown(response.message);
    }
    var followerNum := FollowerNumber(req.followerCount);
    var engagementNum := parseRate(req.engagementRate);
    var basePrice: nat := 0;
    var tier := Tier(followerNum);
    var platform := Lower(req.platform);
    if platform == "instagram" {
      basePrice := [75, 200, 500, 1500, 5000][tier];
    } else if platform == "tiktok" {
      basePrice := [100, 300, 700, 2000, 6000][tier];
    } else if platform == "youtube" {
      basePrice := [200, 600, 1500, 5000, 15000][tier];
    }
    var multiplier := if Above(engagementNum, 4.0) then 1.3 else if Above(engagementNum, 2.0) then 1.1 else 1.0;
    var recommended := Round(basePrice as real * multiplier);
    var premiumFactors: seq<string> := [];
    if Above(engagementNum, 4.0) {
      premiumFactors := premiumFactors + ["High engagement rate"];
    }
    if ProxyPremiumNiche(req.niche) {
      premiumFactors := premiumFactors + ["Premium niche"];
    }
    var range := PriceRange(Round(recommended as real * 0.7), Round(recommended as real * 1.4), recommended);
    assert basePrice == ProxyBase(req.platform, followerNum);
    assert recommended == ProxyRecommended(req, engagementNum);
    assert range == ProxyRange(req, engagementNum);
    assert premiumFactors == ProxyPremiumFactors(engagementNum, req.niche);
    o := ClientAi.Returned(PricingResponse(range, response.value, ExampleDeals(data), premiumFactors, data));
  }

  // ---------------------------------------------------------------------
  // Media kit

  const EmailSections: seq<string> :=
    ["Subject Line", "Introduction", "Creator Metrics", "Value Proposition", "Collaboration Ideas", "Call to Action"]

  const EmailTips: seq<string> := [
    "Personalize the subject line with your niche",
    "Include specific metrics and engagement rates",
    "Mention relevant past collaborations",
    "Keep it concise but informative",
    "Include a clear call-to-action",
    "Attach your media kit for more details"]

  const KitSections: seq<string> :=
    ["Creator Bio", "Platform Statistics", "Audience Demographics", "Services", "Past Collaborations", "Contact Information"]

  const KitTips: seq<string> := [
    "Optimized for single-page layout",
    "Professional color scheme and typography",
    "All essential information included",
    "Print-friendly design",
    "Modern, clean aesthetic"]

  /**
   * The bio the print kit shows: unchanged up to 300 characters; longer,
   * the model's shortened version, or the first 200 characters and `...`
   * when that call fails.
   */
  function OptimizedBio(bio: string, llm: Llm): (r: string)
    ensures |bio| <= 300 ==> r == bio
    ensures |bio| > 300 && llm(ShortenBioPrompt(bio)).Answer? ==> r == llm(ShortenBioPrompt(bio)).content
    ensures |bio| > 300 && !llm(ShortenBioPrompt(bio)).Answer? ==> |r| == 203 && r[..200] == bio[..200] && r[200..] == "..."
  {
    if |bio| <= 300 then bio
    else
      match CallOpenRouter(ShortenBioPrompt(bio), llm)
      case Returned(short) => short
      case Thrown(_) => bio[..200] + "..."
  }

  function KitOutcome(req: MediaKitRequest, data: seq<InfluencerData>, llm: Llm): (o: Outcome<MediaKitResponse>)
    ensures req.kitStyle != "email" ==> o.Returned? && o.value.content.Document?
    ensures req.kitStyle != "email" ==>
      o.value == MediaKitResponse(Document(KitTemplate.Render(req.(bio := OptimizedBio(req.bio, llm)), Print)),
                                  KitSections, KitTips, Take(data, 3))
    ensures req.kitStyle == "email" ==> (o.Returned? <==> llm(EmailKitPrompt(req)).Answer?)
    ensures req.kitStyle == "email" && o.Returned? ==>
      o.value == MediaKitResponse(Text(llm(EmailKitPrompt(req)).content), EmailSections, EmailTips, Take(data, 3))
    ensures req.kitStyle == "email" && o.Thrown? ==> o == ClientAi.Thrown(CallOpenRouter(EmailKitPrompt(req), llm).message)
    ensures o.Returned? ==> |o.value.sections| == 6
  {
    if req.kitStyle == "email" then
      match CallOpenRouter(EmailKitPrompt(req), llm)
      case Returned(text) => ClientAi.Returned(MediaKitResponse(Text(text), EmailSections, EmailTips, Take(data, 3)))
      case Thrown(m) => ClientAi.Thrown(m)
    else
      var kit := KitTemplate.Render(req.(bio := OptimizedBio(req.bio, llm)), Print);
      ClientAi.Returned(MediaKitResponse(Document(kit), KitSections, KitTips, Take(data, 3)))
  }

  /**
   * The print kit differs from the kit of the request only in its about
   * section, and only when the bio is longer than 300 characters.
   */
  lemma ShortBioKeptInKit(req: MediaKitRequest, data: seq<InfluencerData>, llm: Llm)
    requires req.kitStyle != "email" && |req.bio| <= 300
    ensures KitOutcome(req, data, llm).value.content == Document(KitTemplate.Render(req, Print))
  {
    assert req.(bio := req.bio) == req;
  }

  /** A bio over 300 characters is replaced by the model's shortened version. */
  lemma LongBioShortenedInKit(req: MediaKitRequest, data: seq<InfluencerData>, llm: Llm)
    requires req.kitStyle != "email" && |req.bio| > 300 && llm(ShortenBioPrompt(req.bio)).Answer?
    ensures KitOutcome(req, data, llm).value.content
      == Document(KitTemplate.Render(req.(bio := llm(ShortenBioPrompt(req.bio)).content), Print))
  {
  }

  /** When shortening fails, a bio over 300 characters is cut to its first 200 and `...`. */
  lemma LongBioCutInKit(req: MediaKitRequest, data: seq<InfluencerData>, llm: Llm)
    requires req.kitStyle != "email" && |req.bio| > 300 && !llm(ShortenBioPrompt(req.bio)).Answer?
    ensures KitOutcome(req, data, llm).value.content
      == Document(KitTemplate.Render(req.(bio := req.bio[..200] + "..."), Print))
  {
    var r := OptimizedBio(req.bio, llm);
    assert r == r[..200] + r[200..];
  }

  /** `generateMediaKitWithAI` in the proxy, step by step. */
  method GenerateMediaKitWithAI(req: MediaKitRequest, data: seq<InfluencerData>, llm: Llm)
    returns (o: Outcome<MediaKitResponse>)
    ensures o == KitOutcome(req, data, llm)
  {
    if req.kitStyle == "email" {
      var emailContent := CallOpenRouter(EmailKitPrompt(req), llm);
      if emailContent.Thrown? {
        return ClientAi.Thrown(emailContent.message);
      }
      return ClientAi.Returned(MediaKitResponse(Text(emailContent.value), EmailSections, EmailTips, Take(data, 3)));
    }
    var optimizedBio := req.bio;
    if |req.bio| > 300 {
      var short := CallOpenRouter(ShortenBioPrompt(req.bio), llm);
      if short.Returned? {
        optimizedBio := short.value;
      } else {
        optimizedBio := req.bio[..200] + "...";
      }
    }
    var htmlContent := KitTemplate.Render(req.(bio := optimizedBio), Print);
    o := ClientAi.Returned(MediaKitResponse(Document(htmlContent), KitSections, KitTips, Take(data, 3)));
  }

  // ---------------------------------------------------------------------
  // Dispatcher

  const Actions: seq<string> := [
    "generateDailyOutreachTip", "generateDailyPricingTip", "generateBrandMatchEnhancer", "enhanceBioWithAI",
    "generateDMWithAI", "generatePricingWithAI", "generateMediaKitWithAI"]

  /** The `switch` over the action: the seven handlers, and `Unknown action` for anything else. */
  function Dispatch(action: string, data: ActionData, llm: Llm, parseRate: string -> Rate): (o: Outcome<ProxyResult>)
    ensures action !in Actions ==> o == ClientAi.Thrown("Unknown action")
  {
    if action == "generateDailyOutreachTip" then AsText(CallOpenRouter(OutreachTipPrompt(data.platform), llm))
    else if action == "generateDailyPricingTip" then AsText(CallOpenRouter(PricingTipPrompt, llm))
    else if action == "generateBrandMatchEnhancer" then
      match GenerateBrandMatchEnhancer(data.niche, llm)
      case Returned(v) => ClientAi.Returned(BrandResult(v))
      case Thrown(m) => ClientAi.Thrown(m)
    else if action == "enhanceBioWithAI" then AsText(CallOpenRouter(BioPrompt(data.bio, data.niche), llm))
    else if action == "generateDMWithAI" then
      match GenerateDm(data.dmRequest, data.influencerData, llm)
      case Returned(v) => ClientAi.Returned(DmResult(v))
      case Thrown(m) => ClientAi.Thrown(m)
    else if action == "generatePricingWithAI" then
      match ProxyPricingOutcome(data.pricingRequest, data.influencerData, llm, parseRate)
      case Returned(v) => ClientAi.Returned(PricingResult(v))
      case Thrown(m) => ClientAi.Thrown(m)
    else if action == "generateMediaKitWithAI" then
      match KitOutcome(data.kitRequest, data.influencerData, llm)
      case Returned(v) => ClientAi.Returned(KitResult(v))
      case Thrown(m) => ClientAi.Thrown(m)
    else ClientAi.Thrown("Unknown action")
  }

  /** The handler: preflight, the key check before the body is read, then the dispatch and the `catch`. */
  method Serve(req: ProxyRequest, apiKey: string, llm: Llm, parseRate: string -> Rate) returns (resp: ProxyResponse)
    ensures req.verb == "OPTIONS" ==> resp == ProxyResponse(200, PlainOk)
    ensures req.verb != "OPTIONS" && apiKey == "" ==> resp == ProxyResponse(500, ErrorJson(ClientAi.KeyMissingMessage))
    ensures req.verb != "OPTIONS" && apiKey != "" && req.body.Malformed? ==> resp == Caught(req.body.message)
    ensures req.verb != "OPTIONS" && apiKey != "" && req.body.Parsed?
      ==> resp == Respond(Dispatch(req.body.action, req.body.data, llm, parseRate))
  {
    if req.verb == "OPTIONS" {
      return ProxyResponse(200, PlainOk);
    }
    if apiKey == "" {
      return ProxyResponse(500, ErrorJson(ClientAi.KeyMissingMessage));
    }
    if req.body.Malformed? {
      return Caught(req.body.message);
    }
    var action, data := req.body.action, req.body.data;
    var result: Outcome<ProxyResult>;
    if action == "generatePricingWithAI" {
      var pricing := GeneratePricingWithAI(data.pricingRequest, data.influencerData, llm, parseRate);
      result := match pricing
        case Returned(v) => ClientAi.Returned(PricingResult(v))
        case Thrown(m) => ClientAi.Thrown(m);
    } else if action == "generateMediaKitWithAI" {
      var kit := GenerateMediaKitWithAI(data.kitRequest, data.influencerData, llm);
      result := match kit
        case Returned(v) => ClientAi.Returned(KitResult(v))
        case Thrown(m) => ClientAi.Thrown(m);
    } else {
      result := Dispatch(action, data, llm, parseRate);
    }
    resp := Respond(result);
  }

  /** Every answer to an unknown action is a 500 carrying `Unknown action`. */
  lemma UnknownActionRefused(action: string, data: ActionData, llm: Llm, parseRate: string -> Rate)
    requires action !in Actions
    ensures Respond(Dispatch(action, data, llm, parseRate)) == ProxyResponse(500, ErrorJson("Unknown action"))
  {
    assert !Contains("Unknown action", "429") && !Contains("Unknown action", "402") by {
      forall i | 0 <= i <= |"Unknown action"|
        ensures !StartsWith("Unknown action"[i..], "429") && !StartsWith("Unknown action"[i..], "402")
      {
        if i + 3 <= 14 {
          assert "Unknown action"[i..][..3] != "429" && "Unknown action"[i..][..3] != "402" by {
            assert !IsDigit("Unknown action"[i]);
          }
        }
      }
    }
  }

  /**
   * What the browser makes of an error response: the quota class exactly
   * when the proxy's error text named 429 or 402, the missing-key class
   * for the missing-key sentinel, and the generic class otherwise.
   */
  lemma ClientClassifiesCaught(message: string)
    ensures var resp := Caught(message);
      ClientAi.Classify(resp.status, Some(resp.body.error)) ==
        if Contains(message, "429") || Contains(message, "402") then ClientAi.QuotaExceeded
        else if message == ClientAi.KeyMissingMessage then ClientAi.KeyMissing
        else ClientAi.OtherFailure
  {
    assert |ClientAi.QuotaMessage| != |ClientAi.KeyMissingMessage|;
  }

  /** The missing-key answer is classified as such by the browser. */
  lemma ClientClassifiesMissingKey()
    ensures ClientAi.Classify(500, Some(ClientAi.KeyMissingMessage)) == ClientAi.KeyMissing
  {
  }

  /** An upstream 429 (rate limit) or 402 reaches the browser as the quota notice. */
  lemma UpstreamLimitShownAsQuota(prompt: Prompt, llm: Llm, status: nat, message: string)
    requires llm(prompt) == HttpError(status, message) && (status == 402 || status == 429)
    ensures Caught(CallOpenRouter(prompt, llm).message).status == 402
    ensures ClientAi.FailureOf(ClientAi.CallProxy<ProxyResult>(
      ClientAi.Rejected(402, Some(Caught(CallOpenRouter(prompt, llm).message).body.error))).message) == ClientAi.QuotaExceeded
  {
    UpstreamMessageHasStatus(status, message);
    StatusTexts();
    ClientAi.RejectionClassified<ProxyResult>(402, Some(ClientAi.QuotaMessage));
  }
}
