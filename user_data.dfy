/**
 * The user data service (`src/lib/userDataService.ts`): append-only
 * record tables, each save followed by one activity-log entry, the
 * newest-first list getters and the dashboard statistics.
 *
 * A database call that returns an error is a boolean parameter; the
 * statistics take the one `Math.random()` draw as a parameter in [0, 1).
 */
module UserData {
  import opened Wrappers
  import opened Numeric
  import opened Types
  import opened Store

  /** Whether the record insert errs and whether the activity insert errs. */
  datatype SaveIo = SaveIo(insertFails: bool, logFails: bool)

  /** The entry `saveDMGeneration` logs for a record. */
  function DmActivity(rec: DmRecord): (a: Activity)
    ensures a.user == rec.user && a.activityType == "dm_generation"
    ensures a.details.Keys == {"platform", "message_type", "tone"}
    ensures a.details["platform"] == Str(rec.platform) && a.details["message_type"] == Str(rec.messageType)
      && a.details["tone"] == Str(rec.tone)
  {
    Activity(rec.user, "dm_generation",
      map["platform" := Str(rec.platform), "message_type" := Str(rec.messageType), "tone" := Str(rec.tone)])
  }

  /** The entry `savePricingCalculation` logs for a record. */
  function PricingActivity(rec: PricingRecord): (a: Activity)
    ensures a.user == rec.user && a.activityType == "pricing_calculation"
    ensures a.details.Keys == {"platform", "niche", "recommended_price"}
    ensures a.details["platform"] == Str(rec.platform) && a.details["niche"] == Str(rec.niche)
      && a.details["recommended_price"] == Num(rec.suggestedRecommended)
  {
    Activity(rec.user, "pricing_calculation",
      map["platform" := Str(rec.platform), "niche" := Str(rec.niche),
          "recommended_price" := Num(rec.suggestedRecommended)])
  }

  /** The entry `saveMediaKit` logs for a record. */
  function KitActivity(rec: KitRecord): (a: Activity)
    ensures a.user == rec.user && a.activityType == "media_kit_creation"
    ensures a.details.Keys == {"creator_name", "niche", "kit_style"}
    ensures a.details["creator_name"] == Str(rec.creatorName) && a.details["niche"] == Str(rec.niche)
      && a.details["kit_style"] == Str(rec.kitStyle)
  {
    Activity(rec.user, "media_kit_creation",
      map["creator_name" := Str(rec.creatorName), "niche" := Str(rec.niche), "kit_style" := Str(rec.kitStyle)])
  }

  /** `logUserActivity`: one entry, unless the insert errs. */
  method LogUserActivity(db: Database, entry: Activity, fails: bool) returns (ok: bool)
    modifies db`activityLog
    ensures ok == !fails
    ensures db.activityLog == old(db.activityLog) + (if fails then [] else [entry])
  {
    if fails {
      return false;
    }
    db.activityLog := db.activityLog + [entry];
    return true;
  }

  /** `saveDMGeneration`: the record, then its activity; a failed insert stops before the log. */
  method SaveDmGeneration(db: Database, rec: DmRecord, io: SaveIo) returns (ok: bool)
    modifies db`dmGenerations, db`activityLog
    ensures ok == !io.insertFails
    ensures db.dmGenerations == old(db.dmGenerations) + (if ok then [rec] else [])
    ensures db.activityLog == old(db.activityLog) + (if ok && !io.logFails then [DmActivity(rec)] else [])
  {
    if io.insertFails {
      return false;
    }
    db.dmGenerations := db.dmGenerations + [rec];
    var _ := LogUserActivity(db, DmActivity(rec), io.logFails);
    return true;
  }

  /** `savePricingCalculation`. */
  method SavePricingCalculation(db: Database, rec: PricingRecord, io: SaveIo) returns (ok: bool)
    modifies db`pricingCalculations, db`activityLog
    ensures ok == !io.insertFails
    ensures db.pricingCalculations == old(db.pricingCalculations) + (if ok then [rec] else [])
    ensures db.activityLog == old(db.activityLog) + (if ok && !io.logFails then [PricingActivity(rec)] else [])
  {
    if io.insertFails {
      return false;
    }
    db.pricingCalculations := db.pricingCalculations + [rec];
    var _ := LogUserActivity(db, PricingActivity(rec), io.logFails);
    return true;
  }

  /** `saveMediaKit`. */
  method SaveMediaKit(db: Database, rec: KitRecord, io: SaveIo) returns (ok: bool)
    modifies db`mediaKits, db`activityLog
    ensures ok == !io.insertFails
    ensures db.mediaKits == old(db.mediaKits) + (if ok then [rec] else [])
    ensures db.activityLog == old(db.activityLog) + (if ok && !io.logFails then [KitActivity(rec)] else [])
  {
    if io.insertFails {
      return false;
    }
    db.mediaKits := db.mediaKits + [rec];
    var _ := LogUserActivity(db, KitActivity(rec), io.logFails);
    return true;
  }

  /** The rows that belong to `user`, in insertion order. */
  function Owned<T>(rows: seq<T>, owner: T -> UserId, user: UserId): (r: seq<T>)
    ensures |r| <= |rows|
    ensures forall i :: 0 <= i < |r| ==> owner(r[i]) == user && r[i] in rows
    ensures forall i :: 0 <= i < |rows| && owner(rows[i]) == user ==> rows[i] in r
  {
    if rows == [] then []
    else
      var init := Owned(rows[..|rows| - 1], owner, user);
      var last := rows[|rows| - 1];
      assert forall i :: 0 <= i < |rows| - 1 ==> rows[i] == rows[..|rows| - 1][i];
      if owner(last) == user then init + [last] else init
  }

  /** Appending a row of `user` puts it last among that user's rows; a row of someone else changes nothing. */
  lemma OwnedAppend<T>(rows: seq<T>, row: T, owner: T -> UserId, user: UserId)
    ensures Owned(rows + [row], owner, user)
      == Owned(rows, owner, user) + (if owner(row) == user then [row] else [])
  {
    assert (rows + [row])[..|rows + [row]| - 1] == rows;
  }

  function Reverse<T>(s: seq<T>): (r: seq<T>)
    ensures |r| == |s|
    ensures forall i :: 0 <= i < |s| ==> r[i] == s[|s| - 1 - i]
  {
    if s == [] then [] else [s[|s| - 1]] + Reverse(s[..|s| - 1])
  }

  /**
   * `.eq('user_id', user).order('created_at', {ascending: false}).limit(limit)`:
   * the user's rows, newest first, at most `limit` of them.
   */
  function Newest<T>(rows: seq<T>, owner: T -> UserId, user: UserId, limit: nat): (r: seq<T>)
    ensures |r| == Min(limit, |Owned(rows, owner, user)|)
    ensures forall i :: 0 <= i < |r| ==> owner(r[i]) == user && r[i] in rows
  {
    Take(Reverse(Owned(rows, owner, user)), limit)
  }

  /**
   * Right after a save, the saved record heads its owner's list, and the
   * rest of the list is what it was before, one shorter when the limit
   * was already reached.
   */
  lemma SavedRecordFirst<T>(rows: seq<T>, row: T, owner: T -> UserId, limit: nat)
    requires limit > 0
    ensures var after := Newest(rows + [row], owner, owner(row), limit);
      && after[0] == row
      && after[1..] == Newest(rows, owner, owner(row), limit - 1)
  {
    OwnedAppend(rows, row, owner, owner(row));
    var before := Owned(rows, owner, owner(row));
    var after := Newest(rows + [row], owner, owner(row), limit);
    var prior := Newest(rows, owner, owner(row), limit - 1);
    assert |after[1..]| == |prior|;
    forall i | 0 <= i < |prior|
      ensures after[1..][i] == prior[i]
    {
      assert after[1..][i] == after[i + 1];
    }
  }

  /** `getUserDMGenerations(user, limit)`: an error gives the empty list. */
  function GetUserDmGenerations(db: Database, user: UserId, limit: nat, fails: bool): (r: seq<DmRecord>)
    reads db
    ensures fails ==> r == []
    ensures !fails ==> r == Newest(db.dmGenerations, (d: DmRecord) => d.user, user, limit)
  {
    if fails then [] else Newest(db.dmGenerations, (d: DmRecord) => d.user, user, limit)
  }

  /** `getUserPricingCalculations(user, limit)`. */
  function GetUserPricingCalculations(db: Database, user: UserId, limit: nat, fails: bool): (r: seq<PricingRecord>)
    reads db
    ensures fails ==> r == []
    ensures !fails ==> r == Newest(db.pricingCalculations, (p: PricingRecord) => p.user, user, limit)
  {
    if fails then [] else Newest(db.pricingCalculations, (p: PricingRecord) => p.user, user, limit)
  }

  /** `getUserMediaKits(user, limit)`. */
  function GetUserMediaKits(db: Database, user: UserId, limit: nat, fails: bool): (r: seq<KitRecord>)
    reads db
    ensures fails ==> r == []
    ensures !fails ==> r == Newest(db.mediaKits, (k: KitRecord) => k.user, user, limit)
  {
    if fails then [] else Newest(db.mediaKits, (k: KitRecord) => k.user, user, limit)
  }

  /** The default `limit` of the three getters. */
  const DefaultLimit: nat := 10

  /**
   * The fields of `Partial<UserProfile>` a caller may set, other than the
   * key `id`; `None` leaves a field as it is. A supplied `updated_at` is
   * always overwritten by the time of the update, so it is not a field here.
   */
  datatype ProfileUpdate = ProfileUpdate(email: Option<string>, fullName: Option<string>, avatarUrl: Option<string>,
                                         createdAt: Option<int>)

  function ApplyUpdate(p: Profile, u: ProfileUpdate, now: int): (r: Profile)
    ensures r.email == u.email.GetOr(p.email)
    ensures r.fullName == u.fullName.GetOr(p.fullName)
    ensures r.avatarUrl == u.avatarUrl.GetOr(p.avatarUrl)
    ensures r.createdAt == u.createdAt.GetOr(p.createdAt)
    ensures r.updatedAt == now && r.proUntil == p.proUntil
  {
    p.(email := u.email.GetOr(p.email), fullName := u.fullName.GetOr(p.fullName),
       avatarUrl := u.avatarUrl.GetOr(p.avatarUrl), createdAt := u.createdAt.GetOr(p.createdAt), updatedAt := now)
  }

  /** `updateUserProfile`: the updates plus `updated_at`; no matching row is not an error. */
  method UpdateUserProfile(db: Database, user: UserId, updates: ProfileUpdate, now: int, fails: bool)
    returns (ok: bool)
    modifies db`profiles
    ensures ok == !fails
    ensures ok && user in old(db.profiles) ==> db.profiles == old(db.profiles)[user := ApplyUpdate(old(db.profiles)[user], updates, now)]
    ensures !ok || user !in old(db.profiles) ==> db.profiles == old(db.profiles)
  {
    if fails {
      return false;
    }
    if user in db.profiles {
      db.profiles := db.profiles[user := ApplyUpdate(db.profiles[user], updates, now)];
    }
    return true;
  }

  /** The `reduce` that adds up `suggested_recommended`. */
  function Sum(values: seq<int>): int {
    if values == [] then 0 else values[0] + Sum(values[1..])
  }

  predicate Bounded(values: seq<int>, lo: int, hi: int) {
    forall i :: 0 <= i < |values| ==> lo <= values[i] <= hi
  }

  lemma {:induction false} SumBounds(values: seq<int>, lo: int, hi: int)
    requires Bounded(values, lo, hi)
    ensures |values| * lo <= Sum(values) <= |values| * hi
  {
    if values != [] {
      assert Bounded(values[1..], lo, hi) by {
        forall i | 0 <= i < |values[1..]| ensures lo <= values[1..][i] <= hi {
          assert values[1..][i] == values[i + 1];
        }
      }
      SumBounds(values[1..], lo, hi);
    }
  }

  /** `avgDealValue`: the rounded mean, or 0 for no calculations. */
  function AverageDeal(values: seq<int>): (r: int)
    ensures values == [] ==> r == 0
    ensures values != [] ==> Sum(values) as real / |values| as real - 0.5 < r as real <= Sum(values) as real / |values| as real + 0.5
  {
    if values == [] then 0 else Round(Sum(values) as real / |values| as real)
  }

  lemma MeanBounds(total: real, n: real, lo: real, hi: real)
    requires n > 0.0 && lo * n <= total <= hi * n
    ensures lo <= total / n <= hi
  {
    var mean := total / n;
    assert mean * n == total;
  }

  /** The average of a non-empty list lies between its smallest and largest value. */
  lemma AverageWithinRange(values: seq<int>, lo: int, hi: int)
    requires values != [] && Bounded(values, lo, hi)
    ensures lo <= AverageDeal(values) <= hi
  {
    SumBounds(values, lo, hi);
    var n := |values|;
    assert (n * lo) as real == n as real * lo as real;
    assert (n * hi) as real == n as real * hi as real;
    MeanBounds(Sum(values) as real, n as real, lo as real, hi as real);
    var mean := Sum(values) as real / n as real;
    RoundMonotone(lo as real, mean);
    RoundMonotone(mean, hi as real);
    RoundInt(lo);
    RoundInt(hi);
  }

  function Recommended(rows: seq<PricingRecord>): (r: seq<int>)
    ensures |r| == |rows|
    ensures forall i :: 0 <= i < |rows| ==> r[i] == rows[i].suggestedRecommended
  {
    if rows == [] then [] else [rows[0].suggestedRecommended] + Recommended(rows[1..])
  }

  /** The mock `responseRate`, with the random draw in [0, 1) as a parameter. */
  function ResponseRate(dmCount: nat, draw: real): (r: int)
    requires 0.0 <= draw < 1.0
    ensures 0 <= r <= 100
    ensures r == 0 <==> dmCount == 0
  {
    if dmCount > 0 then Min(Round(dmCount as real * 0.68 + draw * 10.0), 100) else 0
  }

  datatype DashboardStats = DashboardStats(
    dmCount: nat,
    avgDealValue: int,
    templatesCreated: nat,
    responseRate: int,
    recentActivities: seq<Activity>)

  /**
   * Which of the four queries of `getDashboardStats` return an error (the
   * value is then null and read as 0 or []), and whether one throws.
   */
  datatype StatsIo = StatsIo(dmFails: bool, pricingFails: bool, kitsFails: bool, activitiesFails: bool, throws: bool)

  /** The number of recent activities the dashboard shows. */
  const RecentLimit: nat := 5

  /** `getDashboardStats`. */
  function GetDashboardStats(db: Database, user: UserId, io: StatsIo, draw: real): (r: DashboardStats)
    requires 0.0 <= draw < 1.0
    reads db
    ensures io.throws ==> r == DashboardStats(0, 0, 0, 0, [])
    ensures !io.throws ==>
      && r.dmCount == (if io.dmFails then 0 else |Owned(db.dmGenerations, (d: DmRecord) => d.user, user)|)
      && r.templatesCreated == (if io.kitsFails then 0 else |Owned(db.mediaKits, (k: KitRecord) => k.user, user)|)
      && r.avgDealValue == (if io.pricingFails then 0
           else AverageDeal(Recommended(Owned(db.pricingCalculations, (p: PricingRecord) => p.user, user))))
      && (r.responseRate == 0 <==> r.dmCount == 0)
      && 0 <= r.responseRate <= 100
      && (io.activitiesFails ==> r.recentActivities == [])
      && (!io.activitiesFails ==> r.recentActivities == Newest(db.activityLog, (a: Activity) => a.user, user, RecentLimit))
      && |r.recentActivities| <= RecentLimit
  {
    if io.throws then DashboardStats(0, 0, 0, 0, [])
    else
      var dmCount := if io.dmFails then 0 else |Owned(db.dmGenerations, (d: DmRecord) => d.user, user)|;
      var prices := if io.pricingFails then [] else Recommended(Owned(db.pricingCalculations, (p: PricingRecord) => p.user, user));
      var kits := if io.kitsFails then 0 else |Owned(db.mediaKits, (k: KitRecord) => k.user, user)|;
      var recent := if io.activitiesFails then [] else Newest(db.activityLog, (a: Activity) => a.user, user, RecentLimit);
      DashboardStats(dmCount, AverageDeal(prices), kits, ResponseRate(dmCount, draw), recent)
  }

  /** With no pricing calculations the average deal is 0; otherwise it lies between the user's smallest and largest recommendation. */
  lemma AverageDealWithinUserPrices(db: Database, user: UserId, io: StatsIo, draw: real, lo: int, hi: int)
    requires 0.0 <= draw < 1.0 && !io.throws && !io.pricingFails
    requires forall p :: p in db.pricingCalculations && p.user == user ==> lo <= p.suggestedRecommended <= hi
    ensures var owned := Owned(db.pricingCalculations, (p: PricingRecord) => p.user, user);
      var avg := GetDashboardStats(db, user, io, draw).avgDealValue;
      (owned == [] ==> avg == 0) && (owned != [] ==> lo <= avg <= hi)
  {
    var owned := Owned(db.pricingCalculations, (p: PricingRecord) => p.user, user);
    var prices := Recommended(owned);
    assert Bounded(prices, lo, hi) by {
      forall i | 0 <= i < |prices| ensures lo <= prices[i] <= hi {
        assert owned[i] in db.pricingCalculations;
      }
    }
    if owned != [] {
      AverageWithinRange(prices, lo, hi);
    }
  }
}
