/**
 * The DM generator screen (`src/components/DMGenerator.tsx`): the form's
 * state, the `generateDM` flow and the per-platform tone advice.
 */
module DmGenerator {
  import opened Wrappers
  import opened Text
  import opened Types
  import opened Store
  import opened Subscription
  import opened UserData
  import opened ClientAi
  import opened FeatureFlow

  const DmErrorText := "Sorry, there was an error generating your DM. Please try again."

  const DefaultToneAdvice := "Professional approach recommended"

  /** `getBestToneByPlatform`: four platforms have advice of their own; any other gets the default. */
  function BestToneByPlatform(platform: string): (advice: string)
    ensures platform !in {"Instagram", "TikTok", "YouTube", "Twitter"} <==> advice == DefaultToneAdvice
  {
    if platform == "Instagram" then "Friendly works best - visual storytelling"
    else if platform == "TikTok" then "Confident & energetic - viral potential"
    else if platform == "YouTube" then "Professional - long-form content"
    else if platform == "Twitter" then "Confident - thought leadership"
    else DefaultToneAdvice
  }

  /** The four platforms get four different pieces of advice. */
  lemma ToneAdviceDistinct(a: string, b: string)
    requires a in {"Instagram", "TikTok", "YouTube", "Twitter"} && b in {"Instagram", "TikTok", "YouTube", "Twitter"}
    requires a != b
    ensures BestToneByPlatform(a) != BestToneByPlatform(b)
  {
    assert |BestToneByPlatform(a)| != |BestToneByPlatform(b)|;
  }

  /** The form is complete: followers and engagement filled in, and a reply has a brand message that is not blank. */
  predicate Ready(dmType: string, followerCount: string, engagementRate: string, brandReply: string) {
    followerCount != "" && engagementRate != "" && !(dmType == "reply" && Trim(brandReply) == "")
  }

  /** The request the form sends: `brandReply` only in reply mode. */
  function RequestOf(dmType: string, platform: string, followerCount: string, engagementRate: string,
                     brandType: string, brandReply: string, tone: string): (req: DMRequest)
    ensures req.brandReply.Some? <==> dmType == "reply"
    ensures req.brandReply.Some? ==> req.brandReply.value == brandReply
    ensures req.messageType == dmType && req.tone == tone && req.platform == platform
  {
    DMRequest(platform, followerCount, engagementRate, dmType, tone, brandType,
              if dmType == "reply" then Some(brandReply) else None)
  }

  /**
   * The screen's guard keeps the client's "Sorry" fallback away: a ready
   * form asking for a reply carries a brand message that is not empty, so
   * the client falls back to a reply template instead.
   */
  lemma ReadyReplyGetsTemplate(platform: string, followerCount: string, engagementRate: string,
                               brandType: string, brandReply: string, tone: string)
    requires Ready("reply", followerCount, engagementRate, brandReply)
    ensures var req := RequestOf("reply", platform, followerCount, engagementRate, brandType, brandReply, tone);
      FallbackDm(req) == DmTemplate(Reply, ToneOf(tone), req) && FallbackDm(req) != DmSorry
  {
    var req := RequestOf("reply", platform, followerCount, engagementRate, brandType, brandReply, tone);
    assert brandReply != "";
    assert HasBrandReply(req);
    DmTemplateMarks(Reply, ToneOf(tone), req);
  }

  /** The row `saveDMGeneration` is given: the primary message is the content kept. */
  function RecordOf(user: UserId, req: DMRequest, r: DMResponse): DmRecord {
    DmRecord(user, req.platform, req.messageType, req.tone, req.followerCount, req.engagementRate, req.brandType, r.primary)
  }

  class DmView {
    var dmType: string
    var platform: string
    var followerCount: string
    var engagementRate: string
    var brandType: string
    var brandReply: string
    var tone: string
    var isGenerating: bool
    var response: Option<DMResponse>
    var showLimitModal: bool

    /** The screen's initial state. */
    constructor ()
      ensures dmType == "outreach" && platform == "Instagram" && tone == "professional"
      ensures followerCount == "" && engagementRate == "" && brandType == "" && brandReply == ""
      ensures !isGenerating && response.None? && !showLimitModal
    {
      dmType := "outreach";
      platform := "Instagram";
      followerCount := "";
      engagementRate := "";
      brandType := "";
      brandReply := "";
      tone := "professional";
      isGenerating := false;
      response := None;
      showLimitModal := false;
    }

    function Request(): DMRequest
      reads this
    {
      RequestOf(dmType, platform, followerCount, engagementRate, brandType, brandReply, tone)
    }

    /**
     * `generateDM`. An incomplete form does nothing. Otherwise the old answer
     * is cleared and the gate asked; a refusal shows the limit modal and
     * generates, saves and counts nothing. When the reference query errs, the
     * fixed error text is shown and nothing is saved or counted; otherwise the
     * client's answer is shown, its primary message saved and the DM counter
     * incremented once.
     */
    method GenerateDm(db: Database, user: UserId, month: MonthKey, now: int, io: FlowIo<DMResponse>)
      modifies this`response, this`showLimitModal, this`isGenerating
      modifies db`usage, db`dmGenerations, db`activityLog
      ensures Request() == old(Request())
      ensures !Ready(dmType, followerCount, engagementRate, brandReply) ==> unchanged(this) && unchanged(db)
      ensures Ready(dmType, followerCount, engagementRate, brandReply) ==>
        var g := GateFor(db, user, month, now, io.gate, old(db.usage), DmGeneration);
        if !g.allowed then
          && response.None? && showLimitModal && isGenerating == old(isGenerating)
          && db.usage == g.table
          && db.dmGenerations == old(db.dmGenerations) && db.activityLog == old(db.activityLog)
        else if io.reference.None? then
          && response == Some(DMResponse(DmErrorText, [], [])) && showLimitModal == old(showLimitModal) && !isGenerating
          && db.usage == g.table
          && db.dmGenerations == old(db.dmGenerations) && db.activityLog == old(db.activityLog)
        else
          var r := ClientAi.GenerateDMWithAI(Request(), io.reference.value, io.reply);
          var rec := RecordOf(user, Request(), r);
          && response == Some(r) && showLimitModal == old(showLimitModal) && !isGenerating
          && db.dmGenerations == old(db.dmGenerations) + (if io.save.insertFails then [] else [rec])
          && db.activityLog == old(db.activityLog)
               + (if !io.save.insertFails && !io.save.logFails then [DmActivity(rec)] else [])
          && db.usage == Increment(g.table, (user, month), io.increment, DmGeneration).table
    {
      if !Ready(dmType, followerCount, engagementRate, brandReply) {
        return;
      }
      response := None;
      var allowed := CanPerformAction(db, user, month, now, io.gate, DmGeneration);
      if !allowed {
        showLimitModal := true;
        return;
      }
      isGenerating := true;
      match io.reference {
        case None =>
          response := Some(DMResponse(DmErrorText, [], []));
        case Some(data) =>
          var req := Request();
          var r := ClientAi.GenerateDMWithAI(req, data, io.reply);
          response := Some(r);
          var _ := SaveDmGeneration(db, RecordOf(user, req, r), io.save);
          var _ := IncrementUsage(db, user, month, io.increment, DmGeneration);
      }
      isGenerating := false;
    }
  }
}
