/**
 * The payment webhook (`supabase/functions/gumroad-webhook/index.ts`): an
 * early-return decision over the request method, the JSON body, an
 * optional signature, the test/production switch and the buyer's profile,
 * ending in an HTTP response, a `pro_until` update and an activity entry.
 *
 * JSON parsing, HMAC-SHA256, the calendar (`setMonth(getMonth() + 1)`)
 * and date printing are parameters; the e-mail lookup, the update and the
 * log insert act on the `Database`.
 */
module Webhook {
  import opened Wrappers
  import opened Hex
  import opened Store
  import Subscription

  datatype Payload = Payload(saleId: string, email: string, price: int, test: bool)

  /** The HTTP method, the raw body and the `x-gumroad-signature` header ("" when absent). */
  datatype Request = Request(verb: string, body: string, signature: string)

  /** `GUMROAD_WEBHOOK_SECRET` ("" when unset) and `ENVIRONMENT`. */
  datatype Env = Env(secret: string, environment: string)

  datatype Body = Plain(text: string) | Json(success: bool, text: string)

  datatype Response = Response(status: nat, body: Body)

  /** HMAC-SHA256 of the body under the secret, or `None` when `crypto.subtle` throws. */
  type Hmac = (string, string) -> Option<seq<byte>>

  /** `verifyGumroadSignature`. */
  function VerifySignature(body: string, signature: string, secret: string, hmac: Hmac): (ok: bool)
    ensures secret == "" ==> ok
    ensures secret != "" && hmac(secret, body).None? ==> !ok
    ensures secret != "" ==> (ok <==> hmac(secret, body).Some? && signature == Encode(hmac(secret, body).value))
  {
    if secret == "" then true
    else
      match hmac(secret, body)
      case None => false
      case Some(mac) => signature == SignatureText(mac)
  }

  /**
   * With a secret set, a signature is accepted only if it is the lowercase
   * text of the MAC: twice as long as the MAC (64 characters for SHA-256),
   * with no upper-case digit, and no other MAC has the same text.
   */
  lemma AcceptedSignatureShape(body: string, signature: string, secret: string, hmac: Hmac)
    requires secret != "" && VerifySignature(body, signature, secret, hmac)
    ensures var mac := hmac(secret, body).value;
      && |signature| == 2 * |mac|
      && IsLowerHex(signature)
      && Decode(signature) == Some(mac)
  {
    DecodeEncode(hmac(secret, body).value);
  }

  /** A signature holding a character that is not a lowercase hex digit is refused whenever a secret is set. */
  lemma UppercaseSignatureRefused(body: string, signature: string, secret: string, hmac: Hmac, i: nat)
    requires secret != "" && i < |signature| && !IsLowerHexDigit(signature[i])
    ensures !VerifySignature(body, signature, secret, hmac)
  {
  }

  datatype ThrowPoint = Nowhere | AtLookup | AtUpdate | AtLog

  /**
   * What the database does inside `processPayment`: the e-mail lookup
   * returns an error (`lookupFails`), the update returns an error
   * (`updateFails`), the log insert returns an error (`logFails`), or a
   * call throws instead of returning (`throwsAt`).
   */
  datatype PaymentIo = PaymentIo(lookupFails: bool, updateFails: bool, logFails: bool, throwsAt: ThrowPoint)

  /** The result of `processPayment` and what it leaves in the two tables. */
  datatype Payment = Payment(success: bool, message: string, profiles: map<UserId, Profile>, logged: seq<Activity>)

  function EmailMatches(profiles: map<UserId, Profile>, email: string): set<UserId> {
    set u | u in profiles && profiles[u].email == email
  }

  function NotFoundMessage(email: string): string {
    "Payment received but no user account found for " + email + ". User can contact support to link their account."
  }

  const UpgradeFailed := "Failed to upgrade user to Pro plan"

  const ProcessingFailed := "Payment processing failed"

  /** The `subscription_upgrade` entry for the buyer `user`, whose `pro_until` was `prior`. */
  function UpgradeEntry(user: UserId, prior: Option<int>, payload: Payload, proUntil: int): (a: Activity)
    ensures a.details.Keys == {"from_plan", "to_plan", "gumroad_sale_id", "amount", "pro_until"}
    ensures a.user == user && a.activityType == "subscription_upgrade"
    ensures a.details["from_plan"] == Str(if prior.Some? then "pro" else "free")
    ensures a.details["to_plan"] == Str("pro")
    ensures a.details["gumroad_sale_id"] == Str(payload.saleId)
    ensures a.details["amount"] == Num(payload.price)
    ensures a.details["pro_until"] == Instant(proUntil)
  {
    Activity(user, "subscription_upgrade", map[
      "from_plan" := Str(if prior.Some? then "pro" else "free"),
      "to_plan" := Str("pro"),
      "gumroad_sale_id" := Str(payload.saleId),
      "amount" := Num(payload.price),
      "pro_until" := Instant(proUntil)])
  }

  /**
   * `processPayment`. The profile is found with `.single()`, so an error or
   * anything but exactly one profile with that e-mail counts as "no user".
   */
  ghost function PaymentSpec(profiles: map<UserId, Profile>, payload: Payload, io: PaymentIo,
                             now: int, addOneMonth: int -> int, showDate: int -> string): (r: Payment)
    ensures !r.success ==> r.logged == []
    ensures r.profiles == profiles
      || r.profiles == Subscription.SetProByEmail(profiles, payload.email, Some(addOneMonth(now)), now)
    ensures |r.logged| <= 1
  {
    var matches := EmailMatches(profiles, payload.email);
    if io.throwsAt == AtLookup then Payment(false, ProcessingFailed, profiles, [])
    else if io.lookupFails || |matches| != 1 then Payment(true, NotFoundMessage(payload.email), profiles, [])
    else if io.throwsAt == AtUpdate then Payment(false, ProcessingFailed, profiles, [])
    else if io.updateFails then Payment(false, UpgradeFailed, profiles, [])
    else
      var proUntil := addOneMonth(now);
      var updated := Subscription.SetProByEmail(profiles, payload.email, Some(proUntil), now);
      if io.throwsAt == AtLog then Payment(false, ProcessingFailed, updated, [])
      else
        var id :| id in matches;
        var entry := UpgradeEntry(id, profiles[id].proUntil, payload, proUntil);
        Payment(true, "User " + payload.email + " successfully upgraded to Pro plan until " + showDate(proUntil),
                updated, if io.logFails then [] else [entry])
  }

  /**
   * A known buyer: `pro_until` becomes one month from now whatever it was
   * before, one upgrade entry is logged unless the insert errs (and the
   * result is a success either way), and `from_plan` is `'pro'` exactly
   * when some `pro_until` was set, even an expired one.
   */
  lemma KnownBuyerUpgraded(profiles: map<UserId, Profile>, id: UserId, payload: Payload, io: PaymentIo,
                           now: int, addOneMonth: int -> int, showDate: int -> string)
    requires EmailMatches(profiles, payload.email) == {id}
    requires io.throwsAt == Nowhere && !io.lookupFails && !io.updateFails
    ensures var r := PaymentSpec(profiles, payload, io, now, addOneMonth, showDate);
      && r.success
      && id in r.profiles && r.profiles[id].proUntil == Some(addOneMonth(now))
      && (forall u :: u in profiles && u != id ==> r.profiles[u] == profiles[u])
      && (io.logFails <==> r.logged == [])
      && (r.logged != [] ==>
            && r.logged[0].user == id
            && r.logged[0].activityType == "subscription_upgrade"
            && (r.logged[0].details["from_plan"] == Str("pro") <==> profiles[id].proUntil.Some?))
  {
    var r := PaymentSpec(profiles, payload, io, now, addOneMonth, showDate);
    assert id in EmailMatches(profiles, payload.email);
    forall u | u in profiles && u != id
      ensures r.profiles[u] == profiles[u]
    {
      assert u !in EmailMatches(profiles, payload.email);
    }
  }

  /** An unknown e-mail is a success that changes nothing and logs nothing. */
  lemma UnknownBuyerIgnored(profiles: map<UserId, Profile>, payload: Payload, io: PaymentIo,
                            now: int, addOneMonth: int -> int, showDate: int -> string)
    requires EmailMatches(profiles, payload.email) == {} && io.throwsAt != AtLookup
    ensures PaymentSpec(profiles, payload, io, now, addOneMonth, showDate)
      == Payment(true, NotFoundMessage(payload.email), profiles, [])
  {
  }

  /**
   * A known buyer whose profile update returns an error: the payment is a
   * failure with the upgrade message, no profile changes and nothing is
   * logged (the handler then answers 400).
   */
  lemma UpdateErrorRefused(profiles: map<UserId, Profile>, payload: Payload, io: PaymentIo,
                           now: int, addOneMonth: int -> int, showDate: int -> string)
    requires |EmailMatches(profiles, payload.email)| == 1
    requires io.throwsAt == Nowhere && !io.lookupFails && io.updateFails
    ensures PaymentSpec(profiles, payload, io, now, addOneMonth, showDate)
      == Payment(false, UpgradeFailed, profiles, [])
  {
  }

  lemma SingletonIs<T>(s: set<T>, x: T)
    requires |s| == 1 && x in s
    ensures s == {x}
  {
    assert |s - {x}| == 0;
  }

  /** `processPayment`, step by step against the database. */
  method ProcessPayment(db: Database, payload: Payload, io: PaymentIo,
                        now: int, addOneMonth: int -> int, showDate: int -> string)
    returns (success: bool, message: string)
    modifies db`profiles, db`activityLog
    ensures var p := PaymentSpec(old(db.profiles), payload, io, now, addOneMonth, showDate);
      && success == p.success && message == p.message
      && db.profiles == p.profiles && db.activityLog == old(db.activityLog) + p.logged
  {
    if io.throwsAt == AtLookup {
      return false, ProcessingFailed;
    }
    var matches := EmailMatches(db.profiles, payload.email);
    if io.lookupFails || |matches| != 1 {
      return true, NotFoundMessage(payload.email);
    }
    var id :| id in matches;
    var profile := db.profiles[id];
    var proUntil := addOneMonth(now);
    if io.throwsAt == AtUpdate {
      return false, ProcessingFailed;
    }
    if io.updateFails {
      return false, UpgradeFailed;
    }
    db.profiles := Subscription.SetProByEmail(db.profiles, payload.email, Some(proUntil), now);
    if io.throwsAt == AtLog {
      return false, ProcessingFailed;
    }
    SingletonIs(matches, id);
    if !io.logFails {
      db.activityLog := db.activityLog + [UpgradeEntry(id, profile.proUntil, payload, proUntil)];
    }
    return true, "User " + payload.email + " successfully upgraded to Pro plan until " + showDate(proUntil);
  }

  /** The request passes every early return and reaches `processPayment`. */
  predicate Reaches(req: Request, env: Env, parse: string -> Option<Payload>, hmac: Hmac) {
    && req.verb == "POST"
    && parse(req.body).Some?
    && (req.signature == "" || VerifySignature(req.body, req.signature, env.secret, hmac))
    && !(parse(req.body).value.test && env.environment == "production")
  }

  /** The webhook handler. */
  method Serve(db: Database, req: Request, env: Env, io: PaymentIo, now: int,
               addOneMonth: int -> int, showDate: int -> string,
               parse: string -> Option<Payload>, hmac: Hmac)
    returns (resp: Response)
    modifies db`profiles, db`activityLog
    ensures req.verb == "OPTIONS" ==> resp == Response(200, Plain("ok"))
    ensures req.verb != "OPTIONS" && req.verb != "POST" ==> resp == Response(405, Plain("Method not allowed"))
    ensures req.verb == "POST" && parse(req.body).None? ==> resp == Response(500, Json(false, "Internal server error"))
    ensures req.verb == "POST" && parse(req.body).Some? && req.signature != ""
      && !VerifySignature(req.body, req.signature, env.secret, hmac)
      ==> resp == Response(401, Plain("Invalid signature"))
    ensures req.verb == "POST" && parse(req.body).Some?
      && (req.signature == "" || VerifySignature(req.body, req.signature, env.secret, hmac))
      && parse(req.body).value.test && env.environment == "production"
      ==> resp == Response(200, Plain("Test transaction skipped"))
    ensures !Reaches(req, env, parse, hmac) ==> db.profiles == old(db.profiles) && db.activityLog == old(db.activityLog)
    ensures Reaches(req, env, parse, hmac) ==>
      var p := PaymentSpec(old(db.profiles), parse(req.body).value, io, now, addOneMonth, showDate);
      && resp == (if p.success then Response(200, Json(true, p.message)) else Response(400, Json(false, p.message)))
      && db.profiles == p.profiles && db.activityLog == old(db.activityLog) + p.logged
  {
    if req.verb == "OPTIONS" {
      return Response(200, Plain("ok"));
    }
    if req.verb != "POST" {
      return Response(405, Plain("Method not allowed"));
    }
    var parsed := parse(req.body);
    if parsed.None? {
      // JSON.parse throws; the outer catch answers.
      return Response(500, Json(false, "Internal server error"));
    }
    var payload := parsed.value;
    if req.signature != "" {
      var valid := VerifySignature(req.body, req.signature, env.secret, hmac);
      if !valid {
        return Response(401, Plain("Invalid signature"));
      }
    }
    if payload.test && env.environment == "production" {
      return Response(200, Plain("Test transaction skipped"));
    }
    var success, message := ProcessPayment(db, payload, io, now, addOneMonth, showDate);
    if success {
      resp := Response(200, Json(true, message));
    } else {
      resp := Response(400, Json(false, message));
    }
  }
}
