/**
 * The media kit screen (`src/components/MediaKit.tsx`): the form's state,
 * the `generateMediaKit` flow, the bio enhancement, per-platform edits,
 * the PDF file name and the theme colours.
 */
module MediaKitView {
  import opened Wrappers
  import opened Text
  import opened Types
  import opened Store
  import opened Subscription
  import opened UserData
  import opened ClientAi
  import opened FeatureFlow

  /** The platforms sent and saved: those with both a handle and a follower count, in order. */
  function Listed(platforms: seq<Platform>): (r: seq<Platform>)
    ensures |r| <= |platforms|
    ensures forall k :: 0 <= k < |r| ==> r[k] in platforms && r[k].handle != "" && r[k].followers != ""
    ensures forall p :: p in platforms && p.handle != "" && p.followers != "" ==> p in r
  {
    if platforms == [] then []
    else
      var rest := Listed(platforms[1..]);
      assert forall p :: p in platforms[1..] ==> p in platforms;
      assert forall p :: p in platforms ==> p == platforms[0] || p in platforms[1..];
      if platforms[0].handle != "" && platforms[0].followers != "" then [platforms[0]] + rest else rest
  }

  /** Filtering keeps the original order: it distributes over concatenation. */
  lemma {:induction false} ListedAppend(a: seq<Platform>, b: seq<Platform>)
    ensures Listed(a + b) == Listed(a) + Listed(b)
  {
    if a == [] {
      assert a + b == b;
    } else {
      assert (a + b)[0] == a[0];
      assert (a + b)[1..] == a[1..] + b;
      ListedAppend(a[1..], b);
    }
  }

  datatype PlatformField = Name | Handle | Followers

  /** `{ ...p, [field]: value }`. */
  function WithField(p: Platform, field: PlatformField, value: string): (q: Platform)
    ensures field == Name ==> q.name == value && q.handle == p.handle && q.followers == p.followers
    ensures field == Handle ==> q.handle == value && q.name == p.name && q.followers == p.followers
    ensures field == Followers ==> q.followers == value && q.name == p.name && q.handle == p.handle
  {
    match field
    case Name => p.(name := value)
    case Handle => p.(handle := value)
    case Followers => p.(followers := value)
  }

  /** `updatePlatform`'s new list: one field of one element replaced, everything else as it was. */
  function UpdatedPlatforms(platforms: seq<Platform>, index: nat, field: PlatformField, value: string): (r: seq<Platform>)
    requires index < |platforms|
    ensures |r| == |platforms|
    ensures forall k :: 0 <= k < |r| && k != index ==> r[k] == platforms[k]
    ensures r[index] == WithField(platforms[index], field, value)
  {
    platforms[index := WithField(platforms[index], field, value)]
  }

  /** Editing a field back to the value it had leaves the list as it was. */
  lemma UpdateRestores(platforms: seq<Platform>, index: nat, field: PlatformField, value: string)
    requires index < |platforms|
    ensures var old_value := match field
        case Name => platforms[index].name
        case Handle => platforms[index].handle
        case Followers => platforms[index].followers;
      UpdatedPlatforms(UpdatedPlatforms(platforms, index, field, value), index, field, old_value) == platforms
  {
    var p := platforms[index];
    var back := match field
        case Name => p.name
        case Handle => p.handle
        case Followers => p.followers;
    var q := WithField(WithField(p, field, value), field, back);
    assert q == p;
    var r := UpdatedPlatforms(UpdatedPlatforms(platforms, index, field, value), index, field, back);
    assert forall k :: 0 <= k < |r| ==> r[k] == platforms[k];
  }

  const PdfSuffix := "_MediaKit.pdf"

  /** The PDF's file name: every run of white space in the creator's name becomes one `_`, then `_MediaKit.pdf`. */
  function PdfFilename(creatorName: string): (name: string)
    ensures |name| >= |PdfSuffix| && name[|name| - |PdfSuffix|..] == PdfSuffix
    ensures NoSpace(name[..|name| - |PdfSuffix|])
    ensures |name| <= |creatorName| + |PdfSuffix|
  {
    var slug := ReplaceSpaceRuns(creatorName, '_');
    assert (slug + PdfSuffix)[..|slug|] == slug;
    slug + PdfSuffix
  }

  /** A name without white space is kept as it is in front of the suffix. */
  lemma PdfFilenameKeepsPlainName(creatorName: string)
    requires NoSpace(creatorName)
    ensures PdfFilename(creatorName) == creatorName + PdfSuffix
  {
    ReplaceSpaceRunsKeeps(creatorName, '_');
  }

  /** Two words with a double space between them are joined by one `_`. */
  lemma PdfFilenameExample()
    ensures PdfFilename("Jane  Doe") == "Jane_Doe" + PdfSuffix
  {
    ReplaceSpaceRunsExample();
  }

  datatype ThemeColors = ThemeColors(primary: string, secondary: string, bg: string, border: string)

  /** `getThemeColors`: four named themes over the custom colour; an unknown theme gets `creative`. */
  function GetThemeColors(theme: string, customColor: string): (c: ThemeColors)
    ensures c.primary == customColor && c.secondary == customColor + "80"
  {
    var bg := if theme == "elegant" then "from-amber-800/20 to-orange-800/20"
      else if theme == "bold" then "from-red-800/20 to-pink-800/20"
      else if theme == "minimal" then "from-slate-800/20 to-slate-700/20"
      else "from-purple-800/20 to-pink-800/20";
    var border := if theme == "elegant" then "border-amber-500/20"
      else if theme == "bold" then "border-red-500/20"
      else if theme == "minimal" then "border-slate-500/20"
      else "border-purple-500/20";
    ThemeColors(customColor, customColor + "80", bg, border)
  }

  /** An unknown theme is drawn as `creative`. */
  lemma UnknownThemeIsCreative(theme: string, customColor: string)
    requires theme !in {"creative", "elegant", "bold", "minimal"}
    ensures GetThemeColors(theme, customColor) == GetThemeColors("creative", customColor)
  {
  }

  /** The form is complete: creator name, bio and niche, and for the e-mail style also the brand. */
  predicate Ready(kitStyle: string, creatorName: string, bio: string, niche: string, brandName: string) {
    creatorName != "" && bio != "" && niche != "" && !(kitStyle == "email" && brandName == "")
  }

  class MediaKitView {
    var kitStyle: string
    var creatorName: string
    var email: string
    var bio: string
    var niche: string
    var location: string
    var services: string
    var pastCollabs: string
    var brandName: string
    var emailTone: string
    var theme: string
    var profileImage: string
    var logoImage: string
    var customColor: string
    var platforms: seq<Platform>
    var audience: Audience
    var isEnhancingBio: bool
    var isGenerating: bool
    var response: Option<MediaKitResponse>
    var showLimitModal: bool

    /** The screen's initial state: three empty platform rows and the notion style. */
    constructor ()
      ensures kitStyle == "notion" && emailTone == "professional" && theme == "creative" && customColor == "#8B5CF6"
      ensures creatorName == "" && email == "" && bio == "" && niche == "" && location == ""
      ensures services == "" && pastCollabs == "" && brandName == "" && profileImage == "" && logoImage == ""
      ensures platforms == [Platform("Instagram", "", ""), Platform("YouTube", "", ""), Platform("TikTok", "", "")]
      ensures audience == Audience("", "", "")
      ensures !isEnhancingBio && !isGenerating && response.None? && !showLimitModal
    {
      kitStyle := "notion";
      creatorName := "";
      email := "";
      bio := "";
      niche := "";
      location := "";
      services := "";
      pastCollabs := "";
      brandName := "";
      emailTone := "professional";
      theme := "creative";
      profileImage := "";
      logoImage := "";
      customColor := "#8B5CF6";
      platforms := [Platform("Instagram", "", ""), Platform("YouTube", "", ""), Platform("TikTok", "", "")];
      audience := Audience("", "", "");
      isEnhancingBio := false;
      isGenerating := false;
      response := None;
      showLimitModal := false;
    }

    /** The request the form sends: tone and brand only in the e-mail style, only the listed platforms. */
    function Request(): (req: MediaKitRequest)
      reads this`creatorName, this`bio, this`niche, this`platforms, this`audience, this`pastCollabs, this`theme
      reads this`kitStyle, this`emailTone, this`services, this`location, this`email, this`brandName
      reads this`profileImage, this`logoImage, this`customColor
      ensures req.emailTone.Some? <==> kitStyle == "email"
      ensures req.brandName.Some? <==> kitStyle == "email"
      ensures req.platforms == Listed(platforms)
    {
      MediaKitRequest(creatorName, bio, niche, Listed(platforms), audience, pastCollabs, theme, kitStyle,
                      if kitStyle == "email" then Some(emailTone) else None,
                      services, location, email,
                      if kitStyle == "email" then Some(brandName) else None,
                      profileImage, logoImage, customColor)
    }

    /**
     * `enhanceBio`: with a bio and a niche, the bio becomes the client's
     * answer (the bio with one fixed sentence appended when the proxy fails);
     * otherwise nothing happens.
     */
    method EnhanceBio(reply: ProxyReply<string>)
      modifies this`bio, this`isEnhancingBio
      ensures old(bio) == "" || niche == "" ==> bio == old(bio) && isEnhancingBio == old(isEnhancingBio)
      ensures old(bio) != "" && niche != "" ==> bio == EnhanceBioWithAI(old(bio), reply) && !isEnhancingBio
    {
      if bio == "" || niche == "" {
        return;
      }
      isEnhancingBio := true;
      bio := EnhanceBioWithAI(bio, reply);
      isEnhancingBio := false;
    }

    /** `updatePlatform`. */
    method UpdatePlatform(index: nat, field: PlatformField, value: string)
      requires index < |platforms|
      modifies this`platforms
      ensures platforms == UpdatedPlatforms(old(platforms), index, field, value)
    {
      platforms := UpdatedPlatforms(platforms, index, field, value);
    }

    /**
     * `generateMediaKit`. An incomplete form does nothing. Otherwise the old
     * kit is cleared and the gate asked; a refusal shows the limit modal and
     * generates, saves and counts nothing. When the reference query errs the
     * error is only logged: no kit, no save, no count. Otherwise the client's
     * kit is shown, saved once with the listed platforms, and the media-kit
     * counter incremented once.
     */
    method GenerateMediaKit(db: Database, user: UserId, month: MonthKey, now: int, io: FlowIo<MediaKitResponse>)
      modifies this`response, this`showLimitModal, this`isGenerating
      modifies db`usage, db`mediaKits, db`activityLog
      ensures !Ready(kitStyle, creatorName, bio, niche, brandName) ==> unchanged(this) && unchanged(db)
      ensures Ready(kitStyle, creatorName, bio, niche, brandName) ==>
        var g := GateFor(db, user, month, now, io.gate, old(db.usage), MediaKitGeneration);
        if !g.allowed then
          && response.None? && showLimitModal && isGenerating == old(isGenerating)
          && db.usage == g.table
          && db.mediaKits == old(db.mediaKits) && db.activityLog == old(db.activityLog)
        else if io.reference.None? then
          && response.None? && showLimitModal == old(showLimitModal) && !isGenerating
          && db.usage == g.table
          && db.mediaKits == old(db.mediaKits) && db.activityLog == old(db.activityLog)
        else
          var r := ClientAi.GenerateMediaKitWithAI(old(Request()), io.reply);
          var rec := KitRecord(user, creatorName, niche, kitStyle, old(Request()).emailTone, Listed(platforms), r.content);
          && response == Some(r) && showLimitModal == old(showLimitModal) && !isGenerating
          && db.mediaKits == old(db.mediaKits) + (if io.save.insertFails then [] else [rec])
          && db.activityLog == old(db.activityLog)
               + (if !io.save.insertFails && !io.save.logFails then [KitActivity(rec)] else [])
          && db.usage == Increment(g.table, (user, month), io.increment, MediaKitGeneration).table
    {
      if !Ready(kitStyle, creatorName, bio, niche, brandName) {
        return;
      }
      var req := Request();
      response := None;
      var allowed := CanPerformAction(db, user, month, now, io.gate, MediaKitGeneration);
      if !allowed {
        showLimitModal := true;
        return;
      }
      isGenerating := true;
      Produce(db, user, month, io, req);
    }

    /** The part of `generateMediaKit` after an admitting gate, for the request `req` the form built: the `try` block and the reset of the spinner. */
    method Produce(db: Database, user: UserId, month: MonthKey, io: FlowIo<MediaKitResponse>, req: MediaKitRequest)
      modifies this`response, this`isGenerating
      modifies db`usage, db`mediaKits, db`activityLog
      ensures !isGenerating
      ensures io.reference.None? ==>
        && response == old(response)
        && db.usage == old(db.usage) && db.mediaKits == old(db.mediaKits) && db.activityLog == old(db.activityLog)
      ensures io.reference.Some? ==>
        var r := ClientAi.GenerateMediaKitWithAI(req, io.reply);
        var rec := KitRecord(user, creatorName, niche, kitStyle, req.emailTone, Listed(platforms), r.content);
        && response == Some(r)
        && db.mediaKits == old(db.mediaKits) + (if io.save.insertFails then [] else [rec])
        && db.activityLog == old(db.activityLog)
             + (if !io.save.insertFails && !io.save.logFails then [KitActivity(rec)] else [])
        && db.usage == Increment(old(db.usage), (user, month), io.increment, MediaKitGeneration).table
    {
      if io.reference.Some? {
        var r := ClientAi.GenerateMediaKitWithAI(req, io.reply);
        response := Some(r);
        var rec := KitRecord(user, creatorName, niche, kitStyle, req.emailTone, Listed(platforms), r.content);
        var _ := SaveMediaKit(db, rec, io.save);
        var _ := IncrementUsage(db, user, month, io.increment, MediaKitGeneration);
      }
      isGenerating := false;
    }
  }
}
