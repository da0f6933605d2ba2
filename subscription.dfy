/**
 * Entitlement and usage metering (`src/lib/subscriptionService.ts`).
 *
 * A user is Pro while `pro_until` lies strictly in the future. A free user
 * gets a fixed number of each action per calendar month, counted in one
 * `user_usage` row per (user, month) that the first read creates with all
 * counters at zero. The current time and the month key are parameters;
 * what the database does on each call (an error, a concurrent insert) is
 * a parameter too.
 */
module Subscription {
  import opened Wrappers
  import opened Numeric
  import opened Store

  type UsageTable = map<(UserId, MonthKey), Counters>

  datatype ActionKind = DmGeneration | PricingCalculation | MediaKitGeneration

  /** `FREE_PLAN_LIMITS`. */
  function Limit(k: ActionKind): nat {
    match k
    case DmGeneration => 3
    case PricingCalculation => 2
    case MediaKitGeneration => 1
  }

  function Count(c: Counters, k: ActionKind): nat {
    match k
    case DmGeneration => c.dm
    case PricingCalculation => c.pricing
    case MediaKitGeneration => c.mediaKit
  }

  /** The row `incrementUsage` writes: the counter for `k` one higher, the other two as they were. */
  function Bump(c: Counters, k: ActionKind): (r: Counters)
    ensures Count(r, k) == Count(c, k) + 1
    ensures forall j :: j != k ==> Count(r, j) == Count(c, j)
  {
    match k
    case DmGeneration => c.(dm := c.dm + 1)
    case PricingCalculation => c.(pricing := c.pricing + 1)
    case MediaKitGeneration => c.(mediaKit := c.mediaKit + 1)
  }

  lemma FreeLimits()
    ensures Limit(DmGeneration) == 3 && Limit(PricingCalculation) == 2 && Limit(MediaKitGeneration) == 1
  {
  }

  /** `isUserPro`: a missing profile or a null `pro_until` is never Pro. */
  predicate IsUserPro(profile: Option<Profile>, now: int) {
    profile.Some? && profile.value.proUntil.Some? && profile.value.proUntil.value > now
  }

  /** Pro status holds exactly before `pro_until`: at that instant and after, the user is free. */
  lemma ProWindow(p: Profile, now: int)
    requires p.proUntil.Some?
    ensures IsUserPro(Some(p), now) <==> now < p.proUntil.value
    ensures now == p.proUntil.value ==> !IsUserPro(Some(p), now)
  {
  }

  lemma NeverProWithoutDate(profile: Option<Profile>, now: int)
    requires profile.None? || profile.value.proUntil.None?
    ensures !IsUserPro(profile, now)
  {
  }

  /** `getUserProfile`: a read error and a missing row both give null. */
  function GetUserProfile(db: Database, user: UserId, readFails: bool): (r: Option<Profile>)
    reads db
    ensures r.Some? <==> !readFails && user in db.profiles
    ensures r.Some? ==> r.value == db.profiles[user]
  {
    if readFails || user !in db.profiles then None else Some(db.profiles[user])
  }

  datatype Plan = Free | Pro

  datatype SubscriptionStatus = Active | Cancelled | Expired

  datatype UserSubscription = UserSubscription(
    id: string,
    user: UserId,
    plan: Plan,
    status: SubscriptionStatus,
    startedAt: int,
    expiresAt: Option<int>,
    createdAt: int,
    updatedAt: int)

  /** `getUserSubscription`: a subscription record derived from the profile alone. */
  function GetUserSubscription(db: Database, user: UserId, now: int, readFails: bool): (r: Option<UserSubscription>)
    reads db
    ensures r.None? <==> GetUserProfile(db, user, readFails).None?
    ensures r.Some? ==> var p := GetUserProfile(db, user, readFails);
      && (r.value.plan == Pro <==> IsUserPro(p, now))
      && r.value.status == Active
      && r.value.user == user
      && r.value.expiresAt == p.value.proUntil
      && r.value.startedAt == p.value.createdAt == r.value.createdAt
  {
    match GetUserProfile(db, user, readFails)
    case None => None
    case Some(p) =>
      Some(UserSubscription(
        "profile-based", user,
        if IsUserPro(Some(p), now) then Pro else Free,
        Active, p.createdAt, p.proUntil, p.createdAt, p.updatedAt))
  }

  /** A lapsed `pro_until` reads as a free plan that is still `active` and still carries its expiry. */
  lemma LapsedSubscriptionStaysActive(db: Database, user: UserId, now: int)
    requires user in db.profiles && db.profiles[user].proUntil.Some?
    requires db.profiles[user].proUntil.value <= now
    ensures var r := GetUserSubscription(db, user, now, false);
      r.Some? && r.value.plan == Free && r.value.status == Active && r.value.expiresAt.Some?
  {
  }

  /**
   * What the database does during one `getUserUsage`: the first read errs
   * for another reason than "no row" (`readFails`); another caller inserts
   * the row between our read and our insert (`racer`, with the counters it
   * holds by the time we re-read); our insert errs for another reason than
   * a duplicate key (`insertFails`); the re-read errs (`refetchFails`).
   */
  datatype UsageIo = UsageIo(readFails: bool, racer: Option<Counters>, insertFails: bool, refetchFails: bool)

  /** Nothing fails and nobody races. */
  const Smooth := UsageIo(false, None, false, false)

  datatype Fetched = Fetched(row: Option<Counters>, table: UsageTable)

  /**
   * `getUserUsage` on the table: the returned row is the stored one; a
   * missing row is created with zero counters; a duplicate-key insert
   * leads to a re-read, never to a second row; no other key is touched.
   */
  function FetchUsage(table: UsageTable, key: (UserId, MonthKey), io: UsageIo): (r: Fetched)
    ensures r.row.Some? ==> key in r.table && r.table[key] == r.row.value
    ensures key in table || io.readFails ==> r.table == table
    ensures key in table && !io.readFails ==> r.row == Some(table[key])
    ensures io.readFails ==> r.row.None?
    ensures key !in table && !io.readFails && io.racer.None? && !io.insertFails
      ==> r.row == Some(Zero) && r.table == table[key := Zero]
    ensures r.table == table || r.table.Keys == table.Keys + {key}
    ensures forall other :: other != key && other in table ==> other in r.table && r.table[other] == table[other]
  {
    if io.readFails then Fetched(None, table)
    else if key in table then Fetched(Some(table[key]), table)
    else
      match io.racer
      case Some(theirs) =>
        var t := table[key := theirs];
        if io.refetchFails then Fetched(None, t) else Fetched(Some(theirs), t)
      case None =>
        if io.insertFails then Fetched(None, table) else Fetched(Some(Zero), table[key := Zero])
  }

  /** `getUserUsage`, step by step against the table. */
  method GetUserUsage(db: Database, user: UserId, month: MonthKey, io: UsageIo) returns (usage: Option<Counters>)
    modifies db`usage
    ensures var f := FetchUsage(old(db.usage), (user, month), io);
      usage == f.row && db.usage == f.table
  {
    var key := (user, month);
    if io.readFails {
      return None;
    }
    if key in db.usage {
      return Some(db.usage[key]);
    }
    // No row yet (PGRST116): insert one with zero counters.
    if io.racer.Some? {
      // Another caller's insert landed first; ours fails with 23505 and we re-read.
      db.usage := db.usage[key := io.racer.value];
      if io.refetchFails {
        return None;
      }
      return Some(db.usage[key]);
    }
    if io.insertFails {
      return None;
    }
    db.usage := db.usage[key := Zero];
    return Some(Zero);
  }

  datatype Gated = Gated(allowed: bool, table: UsageTable)

  /** `canPerformAction` once Pro status is known: Pro users skip the usage read entirely. */
  function Gate(pro: bool, table: UsageTable, key: (UserId, MonthKey), io: UsageIo, k: ActionKind): Gated {
    if pro then Gated(true, table)
    else
      var f := FetchUsage(table, key, io);
      Gated(f.row.Some? && Count(f.row.value, k) < Limit(k), f.table)
  }

  /** A Pro user is admitted whatever the counters, and the usage table is not even read. */
  lemma ProAlwaysAdmitted(table: UsageTable, key: (UserId, MonthKey), io: UsageIo, k: ActionKind)
    ensures Gate(true, table, key, io, k) == Gated(true, table)
  {
  }

  /** A free user is refused when no usage row can be obtained, and otherwise admitted exactly below the limit. */
  lemma FreeAdmittedBelowLimit(table: UsageTable, key: (UserId, MonthKey), io: UsageIo, k: ActionKind)
    ensures var f := FetchUsage(table, key, io);
      Gate(false, table, key, io, k).allowed <==> f.row.Some? && Count(f.row.value, k) < Limit(k)
    ensures FetchUsage(table, key, io).row.None? ==> !Gate(false, table, key, io, k).allowed
  {
  }

  datatype GateIo = GateIo(profileReadFails: bool, usage: UsageIo)

  /** `canPerformAction`. */
  method CanPerformAction(db: Database, user: UserId, month: MonthKey, now: int, io: GateIo, k: ActionKind)
    returns (allowed: bool)
    modifies db`usage
    ensures var g := Gate(IsUserPro(GetUserProfile(db, user, io.profileReadFails), now),
                          old(db.usage), (user, month), io.usage, k);
      allowed == g.allowed && db.usage == g.table
  {
    var profile := GetUserProfile(db, user, io.profileReadFails);
    if IsUserPro(profile, now) {
      return true;
    }
    var usage := GetUserUsage(db, user, month, io.usage);
    if usage.None? {
      return false;
    }
    match k
    case DmGeneration => allowed := usage.value.dm < Limit(DmGeneration);
    case PricingCalculation => allowed := usage.value.pricing < Limit(PricingCalculation);
    case MediaKitGeneration => allowed := usage.value.mediaKit < Limit(MediaKitGeneration);
  }

  datatype IncrementIo = IncrementIo(usage: UsageIo, updateFails: bool)

  datatype Incremented = Incremented(ok: bool, table: UsageTable)

  /**
   * `incrementUsage`: with a usage row and a successful update, the row's
   * counter for `k` goes up by one and nothing else changes; without a row,
   * or when the update errs, nothing is written beyond what the read did.
   */
  function Increment(table: UsageTable, key: (UserId, MonthKey), io: IncrementIo, k: ActionKind): (r: Incremented)
    ensures var f := FetchUsage(table, key, io.usage);
      && (r.ok <==> f.row.Some? && !io.updateFails)
      && (!r.ok ==> r.table == f.table)
      && (r.ok ==> key in r.table && r.table == f.table[key := Bump(f.table[key], k)])
  {
    var f := FetchUsage(table, key, io.usage);
    if f.row.None? || io.updateFails then Incremented(false, f.table)
    else Incremented(true, f.table[key := Bump(f.row.value, k)])
  }

  /** `incrementUsage`: read the row, build the one-field update, write it. */
  method IncrementUsage(db: Database, user: UserId, month: MonthKey, io: IncrementIo, k: ActionKind)
    returns (ok: bool)
    modifies db`usage
    ensures var r := Increment(old(db.usage), (user, month), io, k);
      ok == r.ok && db.usage == r.table
  {
    var usage := GetUserUsage(db, user, month, io.usage);
    if usage.None? {
      return false;
    }
    var updated := usage.value;
    match k {
      case DmGeneration => updated := updated.(dm := usage.value.dm + 1);
      case PricingCalculation => updated := updated.(pricing := usage.value.pricing + 1);
      case MediaKitGeneration => updated := updated.(mediaKit := usage.value.mediaKit + 1);
    }
    if io.updateFails {
      return false;
    }
    db.usage := db.usage[(user, month) := updated];
    return true;
  }

  /** `n` increments with nothing failing. */
  function Increments(table: UsageTable, key: (UserId, MonthKey), k: ActionKind, n: nat): UsageTable
    decreases n
  {
    if n == 0 then table
    else Increment(Increments(table, key, k, n - 1), key, IncrementIo(Smooth, false), k).table
  }

  /** From a month with no row yet, `n` increments of one kind leave that counter at `n` and the others at 0. */
  lemma {:induction false} IncrementsFromFresh(table: UsageTable, key: (UserId, MonthKey), k: ActionKind, n: nat)
    requires key !in table
    ensures var t := Increments(table, key, k, n);
      n > 0 ==> key in t && Count(t[key], k) == n && forall j :: j != k ==> Count(t[key], j) == 0
  {
    if n > 0 {
      IncrementsFromFresh(table, key, k, n - 1);
    }
  }

  /**
   * A free user's `n` attempts at action `k` within one month: each one is
   * the gate followed, when it admits, by the increment, with nothing
   * failing. Gives the table and how many attempts were admitted.
   */
  function Attempts(table: UsageTable, key: (UserId, MonthKey), k: ActionKind, n: nat): (UsageTable, nat)
    decreases n
  {
    if n == 0 then (table, 0)
    else
      var (t, admitted) := Attempts(table, key, k, n - 1);
      var g := Gate(false, t, key, Smooth, k);
      if g.allowed then (Increment(g.table, key, IncrementIo(Smooth, false), k).table, admitted + 1)
      else (g.table, admitted)
  }

  /** Starting a fresh month, a free user is admitted exactly `Limit(k)` times, however often they try. */
  lemma {:induction false} FreeUserAdmittedExactlyLimit(table: UsageTable, key: (UserId, MonthKey), k: ActionKind, n: nat)
    requires key !in table
    ensures var (t, admitted) := Attempts(table, key, k, n);
      && admitted == Min(n, Limit(k))
      && (n > 0 ==> key in t && Count(t[key], k) == admitted)
      && (n > 0 ==> forall j :: j != k ==> Count(t[key], j) == 0)
  {
    if n > 0 {
      FreeUserAdmittedExactlyLimit(table, key, k, n - 1);
    }
  }

  /** `UsageLimits`; -1 stands for unlimited. */
  datatype UsageLimits = UsageLimits(dm: int, pricing: int, mediaKit: int)

  function Left(l: UsageLimits, k: ActionKind): int {
    match k
    case DmGeneration => l.dm
    case PricingCalculation => l.pricing
    case MediaKitGeneration => l.mediaKit
  }

  /** `getRemainingUsage` once Pro status and the usage row are known. */
  function RemainingFor(pro: bool, usage: Option<Counters>): (r: Option<UsageLimits>)
    ensures pro ==> r == Some(UsageLimits(-1, -1, -1))
    ensures !pro ==> (r.Some? <==> usage.Some?)
    ensures !pro && usage.Some? ==> forall k :: Left(r.value, k) == Max(0, Limit(k) - Count(usage.value, k))
  {
    if pro then Some(UsageLimits(-1, -1, -1))
    else match usage
      case None => None
      case Some(u) =>
        Some(UsageLimits(
          Max(0, Limit(DmGeneration) - u.dm),
          Max(0, Limit(PricingCalculation) - u.pricing),
          Max(0, Limit(MediaKitGeneration) - u.mediaKit)))
  }

  /**
   * For a free user, what is left is never negative nor above the limit,
   * and it is positive exactly when the gate would admit the action.
   */
  lemma RemainingAgreesWithGate(table: UsageTable, key: (UserId, MonthKey), io: UsageIo, k: ActionKind)
    ensures var f := FetchUsage(table, key, io);
      var r := RemainingFor(false, f.row);
      && (r.Some? <==> f.row.Some?)
      && (r.Some? ==> 0 <= Left(r.value, k) <= Limit(k))
      && (r.Some? ==> (Left(r.value, k) > 0 <==> Gate(false, table, key, io, k).allowed))
  {
  }

  /** `getRemainingUsage`. */
  method GetRemainingUsage(db: Database, user: UserId, month: MonthKey, now: int, io: GateIo)
    returns (remaining: Option<UsageLimits>)
    modifies db`usage
    ensures var pro := IsUserPro(GetUserProfile(db, user, io.profileReadFails), now);
      var f := FetchUsage(old(db.usage), (user, month), io.usage);
      && (pro ==> remaining == Some(UsageLimits(-1, -1, -1)) && db.usage == old(db.usage))
      && (!pro ==> remaining == RemainingFor(false, f.row) && db.usage == f.table)
  {
    var profile := GetUserProfile(db, user, io.profileReadFails);
    if IsUserPro(profile, now) {
      return Some(UsageLimits(-1, -1, -1));
    }
    var usage := GetUserUsage(db, user, month, io.usage);
    if usage.None? {
      return None;
    }
    remaining := Some(UsageLimits(
      Max(0, Limit(DmGeneration) - usage.value.dm),
      Max(0, Limit(PricingCalculation) - usage.value.pricing),
      Max(0, Limit(MediaKitGeneration) - usage.value.mediaKit)));
  }

  /**
   * The profile table after `update({pro_until, updated_at}).eq('email', email)`:
   * every profile with that e-mail gets the new `pro_until` and `updated_at`;
   * every other profile, and every other column, is untouched.
   */
  function SetProByEmail(profiles: map<UserId, Profile>, email: string, proUntil: Option<int>, now: int)
    : (r: map<UserId, Profile>)
    ensures r.Keys == profiles.Keys
    ensures forall u :: u in profiles && profiles[u].email == email ==>
      r[u] == profiles[u].(proUntil := proUntil, updatedAt := now)
    ensures forall u :: u in profiles && profiles[u].email != email ==> r[u] == profiles[u]
  {
    map u | u in profiles :: if profiles[u].email == email then profiles[u].(proUntil := proUntil, updatedAt := now) else profiles[u]
  }

  /** `updateUserProStatus`. */
  method UpdateUserProStatus(db: Database, email: string, proUntil: Option<int>, now: int, fails: bool)
    returns (ok: bool)
    modifies db`profiles
    ensures ok == !fails
    ensures db.profiles == if fails then old(db.profiles) else SetProByEmail(old(db.profiles), email, proUntil, now)
  {
    if fails {
      return false;
    }
    db.profiles := SetProByEmail(db.profiles, email, proUntil, now);
    return true;
  }

  /**
   * The profile table after `updateUserSubscription(user, plan)`: for `'pro'`
   * the update writes `pro_until = null`; for `'free'` the value is
   * `undefined`, which the client leaves out of the update, so only
   * `updated_at` changes.
   */
  function SubscriptionUpdate(profiles: map<UserId, Profile>, user: UserId, plan: Plan, now: int)
    : (r: map<UserId, Profile>)
    ensures r.Keys == profiles.Keys
    ensures forall u :: u in profiles && u != user ==> r[u] == profiles[u]
    ensures user in profiles ==> r[user].updatedAt == now
    ensures user in profiles ==> r[user].proUntil == if plan == Pro then None else profiles[user].proUntil
  {
    if user !in profiles then profiles
    else
      var p := profiles[user];
      profiles[user := if plan == Pro then p.(proUntil := None, updatedAt := now) else p.(updatedAt := now)]
  }

  /** `updateUserSubscription`; the `status` argument is accepted and ignored. */
  method UpdateUserSubscription(db: Database, user: UserId, plan: Plan, status: SubscriptionStatus, now: int, fails: bool)
    returns (ok: bool)
    modifies db`profiles
    ensures ok == !fails
    ensures db.profiles == if fails then old(db.profiles) else SubscriptionUpdate(old(db.profiles), user, plan, now)
  {
    if fails {
      return false;
    }
    db.profiles := SubscriptionUpdate(db.profiles, user, plan, now);
    return true;
  }

  /**
   * Upgrading through `updateUserSubscription(user, 'pro')` clears
   * `pro_until`, which `isUserPro` reads as not Pro, at every instant;
   * "downgrading" with `'free'` leaves the Pro status as it was.
   */
  lemma SubscriptionUpdateEffect(profiles: map<UserId, Profile>, user: UserId, now: int, t: int)
    requires user in profiles
    ensures !IsUserPro(Some(SubscriptionUpdate(profiles, user, Pro, now)[user]), t)
    ensures IsUserPro(Some(SubscriptionUpdate(profiles, user, Free, now)[user]), t) <==> IsUserPro(Some(profiles[user]), t)
  {
  }
}
