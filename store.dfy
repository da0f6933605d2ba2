/**
 * The Supabase tables the core reads and writes, held in memory by one
 * `Database` object. Keyed tables are maps; append-only tables are
 * sequences in insertion order. Row ids and `created_at` stamps are not
 * kept: rows are inserted with `created_at = now()`, so "newest first" is
 * the reverse of insertion order.
 */
module Store {
  import opened Wrappers
  import opened Types

  type UserId = string

  /** A `YYYY-MM` month key, as `toISOString().slice(0, 7)` produces it. */
  type MonthKey = string

  /** The three monthly counters of a `user_usage` row. */
  datatype Counters = Counters(dm: nat, pricing: nat, mediaKit: nat)

  const Zero := Counters(0, 0, 0)

  /** A `user_profiles` row. `proUntil` is `None` when the column is null. */
  datatype Profile = Profile(
    email: string,
    fullName: string,
    avatarUrl: string,
    proUntil: Option<int>,
    createdAt: int,
    updatedAt: int)

  /** A value inside the JSON `activity_details` of a log entry. */
  datatype Detail = Str(s: string) | Num(n: int) | Instant(t: int)

  /** A `user_activity_log` row. */
  datatype Activity = Activity(user: UserId, activityType: string, details: map<string, Detail>)

  /** A `user_dm_generations` row. */
  datatype DmRecord = DmRecord(
    user: UserId,
    platform: string,
    messageType: string,
    tone: string,
    followerCount: string,
    engagementRate: string,
    brandType: string,
    generatedContent: string)

  /** A `user_pricing_calculations` row. */
  datatype PricingRecord = PricingRecord(
    user: UserId,
    platform: string,
    followerCount: string,
    engagementRate: string,
    niche: string,
    dealType: string,
    suggestedMin: int,
    suggestedMax: int,
    suggestedRecommended: int)

  /** A `user_media_kits` row; `generatedContent` is the response's `htmlContent`. */
  datatype KitRecord = KitRecord(
    user: UserId,
    creatorName: string,
    niche: string,
    kitStyle: string,
    emailTone: Option<string>,
    platforms: seq<Platform>,
    generatedContent: KitContent)

  class Database {
    var profiles: map<UserId, Profile>
    var usage: map<(UserId, MonthKey), Counters>
    var dmGenerations: seq<DmRecord>
    var pricingCalculations: seq<PricingRecord>
    var mediaKits: seq<KitRecord>
    var activityLog: seq<Activity>

    constructor ()
      ensures profiles == map[] && usage == map[]
      ensures dmGenerations == [] && pricingCalculations == [] && mediaKits == []
      ensures activityLog == []
    {
      profiles := map[];
      usage := map[];
      dmGenerations := [];
      pricingCalculations := [];
      mediaKits := [];
      activityLog := [];
    }
  }
}
