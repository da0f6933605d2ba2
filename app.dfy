/**
 * The application shell (`src/App.tsx`): which screen is shown for the
 * signed-in state and the active view, the dashboard's time-ago and
 * activity texts, and the pricing calculator that the shell defines for
 * itself and routes to.
 *
 * Times are milliseconds since the epoch; parsing the stored date text is
 * not modelled.
 */
module App {
  import opened Wrappers
  import opened Text
  import opened Types
  import opened Store
  import opened Subscription
  import opened UserData
  import opened Pricing
  import opened ClientAi
  import opened FeatureFlow
  import opened PricingAssistant

  const Hour: nat := 3600000

  /**
   * `getTimeAgo`: whole hours elapsed, rounded down. Less than an hour,
   * including a date in the future, is "Just now"; less than a day counts
   * hours (so "1 hours ago"); then whole days, with "1 day ago" singular.
   */
  function TimeAgo(now: int, date: int): (r: string)
    ensures now - date < Hour <==> r == "Just now"
    ensures Hour <= now - date < 24 * Hour ==> r == NatToString((now - date) / Hour) + " hours ago"
    ensures 24 * Hour <= now - date < 48 * Hour ==> r == "1 day ago"
    ensures 48 * Hour <= now - date ==> r == NatToString((now - date) / (24 * Hour)) + " days ago"
  {
    var hours := (now - date) / Hour;
    if hours < 1 then "Just now"
    else if hours < 24 then NatToString(hours) + " hours ago"
    else
      var days := hours / 24;
      assert days == (now - date) / (24 * Hour) by {
        DaysOfHours(now - date);
      }
      if days == 1 then "1 day ago" else NatToString(days) + " days ago"
  }

  /** Whole days are whole hours divided by 24. */
  lemma DaysOfHours(x: nat)
    ensures x / Hour / 24 == x / (24 * Hour)
  {
    var d := x / (24 * Hour);
    var r := x % (24 * Hour);
    assert x == d * (24 * Hour) + r && 0 <= r < 24 * Hour;
    assert x / Hour == d * 24 + r / Hour by {
      assert x == (d * 24 + r / Hour) * Hour + r % Hour;
    }
    assert r / Hour < 24;
  }

  /** Exactly one hour is shown with the plural: "1 hours ago". */
  lemma OneHourIsPlural(date: int)
    ensures TimeAgo(date + Hour, date) == "1 hours ago"
  {
    assert (date + Hour - date) / Hour == 1;
  }

  /** Every answer but "Just now" ends with "ago". */
  lemma TimeAgoEndsWithAgo(now: int, date: int)
    requires now - date >= Hour
    ensures var r := TimeAgo(now, date); |r| >= 3 && r[|r| - 3..] == "ago"
  {
  }

  /** A detail as the template reads it: a non-empty text, or the default when it is missing or empty. */
  function DetailText(details: map<string, Detail>, key: string, default: string): (s: string)
    ensures (key in details && details[key] == Str(s) && s != "") || s == default
    ensures key in details && details[key].Str? && details[key].s != "" ==> s == details[key].s
    ensures !(key in details && details[key].Str? && details[key].s != "") ==> s == default
  {
    if key in details && details[key].Str? && details[key].s != "" then details[key].s else default
  }

  /** `getActivityDescription`. */
  function ActivityDescription(a: Activity): (r: string)
    ensures a.activityType !in {"dm_generation", "pricing_calculation", "media_kit_creation"} ==> r == "Unknown activity"
  {
    var d := a.details;
    if a.activityType == "dm_generation" then
      "Generated " + DetailText(d, "message_type", "DM") + " for " + DetailText(d, "platform", "platform")
    else if a.activityType == "pricing_calculation" then
      "Calculated pricing for " + DetailText(d, "platform", "platform") + " in " + DetailText(d, "niche", "niche")
    else if a.activityType == "media_kit_creation" then
      "Created " + DetailText(d, "kit_style", "media kit") + " for " + DetailText(d, "creator_name", "creator")
    else "Unknown activity"
  }

  /** The entry a saved DM logs is described by its own message type and platform, with defaults for empty ones. */
  lemma SavedDmDescribed(rec: DmRecord)
    ensures ActivityDescription(DmActivity(rec))
      == "Generated " + OrElse(rec.messageType, "DM") + " for " + OrElse(rec.platform, "platform")
  {
  }

  /** The entry a saved calculation logs is described by its platform and niche. */
  lemma SavedPricingDescribed(rec: PricingRecord)
    ensures ActivityDescription(PricingActivity(rec))
      == "Calculated pricing for " + OrElse(rec.platform, "platform") + " in " + OrElse(rec.niche, "niche")
  {
  }

  /** The entry a saved kit logs is described by its style and creator. */
  lemma SavedKitDescribed(rec: KitRecord)
    ensures ActivityDescription(KitActivity(rec))
      == "Created " + OrElse(rec.kitStyle, "media kit") + " for " + OrElse(rec.creatorName, "creator")
  {
  }

  datatype Screen =
    | LoadingScreen
    | LandingScreen
    | AuthScreen
    | DashboardScreen
    | DmGeneratorScreen
    | PricingAssistantScreen
    | MediaKitScreen
    | PricingPlansScreen

  /** The views the signed-in content switch names. */
  const NamedViews: set<string> := {"dashboard", "dm-generator", "pricing-assistant", "media-kit", "pricing-page"}

  /**
   * What `App` renders: the spinner while auth loads; without a user the
   * landing page for the landing view and the sign-in page for any other;
   * with a user the page of the active view, the dashboard for a view it
   * does not name. The pricing-assistant view is the shell's own
   * calculator (`LocalPricingView` below).
   */
  function Route(loading: bool, signedIn: bool, view: string): (s: Screen)
    ensures loading <==> s == LoadingScreen
    ensures !loading && !signedIn ==> (s == LandingScreen <==> view == "landing")
    ensures !loading && !signedIn && view != "landing" ==> s == AuthScreen
    ensures !loading && signedIn ==> s != LandingScreen && s != AuthScreen
    ensures !loading && signedIn && view !in NamedViews ==> s == DashboardScreen
  {
    if loading then LoadingScreen
    else if !signedIn then (if view == "landing" then LandingScreen else AuthScreen)
    else if view == "dm-generator" then DmGeneratorScreen
    else if view == "pricing-assistant" then PricingAssistantScreen
    else if view == "media-kit" then MediaKitScreen
    else if view == "pricing-page" then PricingPlansScreen
    else DashboardScreen
  }

  /** Each named view has a page of its own. */
  lemma NamedViewsDistinct(a: string, b: string)
    requires a in NamedViews && b in NamedViews && a != b
    ensures Route(false, true, a) != Route(false, true, b)
  {
  }

  class AppShell {
    var activeView: string
    var user: Option<UserId>
    var userProfile: Option<Profile>

    /** The first render: the landing view, no user yet, no profile. */
    constructor ()
      ensures activeView == "landing" && user.None? && userProfile.None?
    {
      activeView := "landing";
      user := None;
      userProfile := None;
    }

    function Shown(loading: bool): Screen
      reads this
    {
      Route(loading, user.Some?, activeView)
    }

    /**
     * The effect on a change of user: with a user, the profile is loaded
     * (`profile` is what the read returned) and the view becomes the
     * dashboard; without one, the view goes back to the landing page and
     * the old profile is kept.
     */
    method OnUserChanged(newUser: Option<UserId>, profile: Option<Profile>)
      modifies this
      ensures user == newUser
      ensures newUser.Some? ==> activeView == "dashboard" && userProfile == profile
      ensures newUser.None? ==> activeView == "landing" && userProfile == old(userProfile)
      ensures Shown(false) == if newUser.Some? then DashboardScreen else LandingScreen
    {
      user := newUser;
      if newUser.Some? {
        userProfile := profile;
        activeView := "dashboard";
      } else {
        activeView := "landing";
      }
    }

    /** `handleAuthSuccess`. */
    method HandleAuthSuccess()
      modifies this`activeView
      ensures activeView == "dashboard"
      ensures user.Some? ==> Shown(false) == DashboardScreen
    {
      activeView := "dashboard";
    }

    /** `handleSignOut`, after the sign-out call: the landing view. */
    method HandleSignOut()
      modifies this`activeView
      ensures activeView == "landing"
      ensures user.None? ==> Shown(false) == LandingScreen
    {
      activeView := "landing";
    }

    /** `handleShowPricing`. */
    method HandleShowPricing()
      modifies this`activeView
      ensures activeView == "pricing-page"
      ensures user.Some? ==> Shown(false) == PricingPlansScreen
    {
      activeView := "pricing-page";
    }

    /** `handleGetStarted`: a signed-in user goes to the dashboard, anyone else to the sign-in page. */
    method HandleGetStarted()
      modifies this`activeView
      ensures Shown(false) == if user.Some? then DashboardScreen else AuthScreen
    {
      if user.Some? {
        activeView := "dashboard";
      } else {
        activeView := "auth";
      }
    }
  }

  /**
   * The pricing calculator `App.tsx` defines for itself. Its flow is the
   * pricing screen's with one step fewer: the previous answer is not
   * cleared, so a refused calculation leaves the old answer on screen.
   */
  class LocalPricingView {
    var platform: string
    var followers: string
    var engagement: string
    var niche: string
    var region: string
    var dealType: string
    var isGenerating: bool
    var response: Option<PricingResponse>
    var showLimitModal: bool

    constructor ()
      ensures platform == "Instagram" && followers == "" && engagement == "" && niche == "" && region == ""
      ensures dealType == "sponsored post"
      ensures !isGenerating && response.None? && !showLimitModal
    {
      platform := "Instagram";
      followers := "";
      engagement := "";
      niche := "";
      region := "";
      dealType := "sponsored post";
      isGenerating := false;
      response := None;
      showLimitModal := false;
    }

    function Request(): PricingRequest
      reads this`platform, this`followers, this`engagement, this`niche, this`region, this`dealType
    {
      PricingRequest(platform, followers, engagement, niche, region, dealType)
    }

    /**
     * `calculatePricing`: an incomplete form does nothing; a refusal shows
     * the limit modal and keeps whatever answer was shown; an admitted
     * calculation shows the client's answer or the catch block's, saves one
     * record and increments the pricing counter once.
     */
    method CalculatePricing(db: Database, user: UserId, month: MonthKey, now: int,
                            io: FlowIo<PricingResponse>, parseRate: string -> Rate)
      modifies this`response, this`showLimitModal, this`isGenerating
      modifies db`usage, db`pricingCalculations, db`activityLog
      ensures !PricingAssistant.Ready(Request()) ==> unchanged(this) && unchanged(db)
      ensures PricingAssistant.Ready(Request()) ==>
        var g := GateFor(db, user, month, now, io.gate, old(db.usage), PricingCalculation);
        if !g.allowed then
          && response == old(response) && showLimitModal && isGenerating == old(isGenerating)
          && db.usage == g.table
          && db.pricingCalculations == old(db.pricingCalculations) && db.activityLog == old(db.activityLog)
        else
          var r := Answer(Request(), io, parseRate);
          var rec := PricingAssistant.RecordOf(user, Request(), r);
          && response == Some(r) && showLimitModal == old(showLimitModal) && !isGenerating
          && db.pricingCalculations == old(db.pricingCalculations) + (if io.save.insertFails then [] else [rec])
          && db.activityLog == old(db.activityLog)
               + (if !io.save.insertFails && !io.save.logFails then [PricingActivity(rec)] else [])
          && db.usage == Increment(g.table, (user, month), io.increment, PricingCalculation).table
    {
      if followers == "" || engagement == "" || niche == "" {
        return;
      }
      var allowed := CanPerformAction(db, user, month, now, io.gate, PricingCalculation);
      if !allowed {
        showLimitModal := true;
        return;
      }
      isGenerating := true;
      var req := Request();
      var r := Answer(req, io, parseRate);
      response := Some(r);
      var _ := SavePricingCalculation(db, PricingAssistant.RecordOf(user, req, r), io.save);
      var _ := IncrementUsage(db, user, month, io.increment, PricingCalculation);
      isGenerating := false;
    }
  }
}
