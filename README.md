# CreatorOS core, modelled in Dafny

CreatorOS is a web application for social-media creators. It has three
generators, each behind a monthly usage gate:

- brand DMs;
- a sponsorship price calculator;
- a media kit.

Free users get 3 DMs, 2 pricing calculations and 1 media kit per month. Pro
users, who paid through a Gumroad webhook, get unlimited use.

The generators ask an LLM through an edge function (the "proxy"). When that
fails, the browser falls back to deterministic templates and price tables.

This project models that deterministic core and proves properties of it:

- **Entitlement and metering.** Pro status, the per-user, per-month usage
  table with insert-if-absent, the gate, the increment and the remaining
  allowance. The database is one `Store.Database` object whose fields are the
  tables. The service functions are methods with field-level `modifies`
  frames, each proved against a pure function of the old tables.
- **Saved records and the activity log.** Saves append a record and, only
  when the insert succeeded, one activity entry. Also modelled: the
  per-user, newest-first list getters and the dashboard statistics.
- **The client AI library.**
  - Error classification of proxy replies and the tip notices.
  - The brand-enhancer table and the six DM templates with their selection.
  - The fallback price calculator.
  - The fallback media kit, as a structured document whose sections appear
    conditionally. `KitTemplate` is shared with the proxy's template.
- **The proxy.**
  - The request handler and its mapping from errors to status codes.
  - The brand-match line parser.
  - The DM prompt choice and tone rotation.
  - A second, different price calculator.
  - The media-kit bio shortening.
- **The payment webhook.**
  - The early-return decision sequence.
  - The lowercase hexadecimal encoding that the HMAC signature is compared
    against (section 8 of RFC 4648, with lowercase digits), proved to be a
    bijection onto lowercase hex text of even length: Hex.EvenHexDecodes shows every such text decodes.
  - The profile upgrade and its log entry.
- **The screens' flows.** These are the pricing assistant, the DM generator,
  the media-kit screen and the application shell's own pricing calculator.
  Each is a class over the screen's state whose method runs
  validate → gate → generate → save → increment. It is proved against the
  service functions, with every error path spelled out.
- **The three price calculators side by side.** They are the client
  fallback, the proxy and the screens' catch block. Lemmas show where they
  disagree: Twitter, the niche and the range width. Worked examples show two
  creators priced by all three.

Outside effects become parameters:

- **The LLM** is a function from a structured prompt to a reply.
- **A proxy call, seen from the browser,** is a `ProxyReply` value.
- **`parseFloat`** is a function to `Option<real>`, where `None` stands for
  NaN.
- **The clock, adding a month and date formatting** are an integer `now` and
  opaque functions.
- **HMAC-SHA256** is an opaque function to bytes.
- **Each database read or write that can fail** has a flag saying whether it
  fails.

`Math.round` on these non-negative values is `floor(x + 1/2)` over exact
rationals (`Numeric.Round`).

Points where the code behaves differently from what one might expect:

- Only the client's fallback price calculator (`src/lib/openrouter.ts`)
  multiplies the price by 1.6 for a premium niche. The proxy's calculator
  only lists "Premium niche" among the premium factors and leaves the price
  alone (`PricingComparison.NicheMovesOnlyClientPrice`).
- `updateUserSubscription(user, 'pro')` writes `pro_until = null`, whatever
  its comment says, so the user then reads as not Pro
  (`Subscription.SubscriptionUpdateEffect`).
- The pricing calculator rendered by `App.tsx` is the shell's own copy. Unlike
  `PricingAssistant.tsx`, it does not clear the previous answer before asking
  the gate (`App.LocalPricingView.CalculatePricing`).

## Model

| member | source | states |
|---|---|---|
| Subscription.FreeLimits | src/lib/subscriptionService.ts:42-46 | The free monthly limits are 3 DMs, 2 pricing calculations and 1 media kit |
| Subscription.ProWindow | src/lib/subscriptionService.ts:49-52 | With a `pro_until` date, the user is Pro exactly while now is strictly before it, so not at the instant itself |
| Subscription.NeverProWithoutDate | src/lib/subscriptionService.ts:49-52 | A missing profile or a missing `pro_until` is never Pro |
| Subscription.GetUserProfile | src/lib/subscriptionService.ts:55-68 | The profile is returned exactly when the read succeeds and the user has one, and it is the stored row |
| Subscription.GetUserSubscription | src/lib/subscriptionService.ts:71-89 | No subscription without a profile; otherwise the plan is Pro iff the user is Pro, the status is always active, and the expiry and start dates are the profile's |
| Subscription.LapsedSubscriptionStaysActive | src/lib/subscriptionService.ts:71-89 | A `pro_until` in the past gives the free plan, still with status active and the stale expiry date |
| Subscription.FetchUsage | src/lib/subscriptionService.ts:92-148 | An existing row is returned unchanged; a missing row is created with zero counters when the insert works; a read error returns nothing; only the requested key can be added and every other row is kept |
| Subscription.GetUserUsage | src/lib/subscriptionService.ts:92-148 | The returned row and the new usage table are those of the insert-if-absent specification |
| Subscription.Bump | src/lib/subscriptionService.ts:193-204 | The counter of the action kind goes up by exactly one and the other two keep their values |
| Subscription.ProAlwaysAdmitted | src/lib/subscriptionService.ts:155-162 | A Pro user is admitted whatever the counters, and the usage table is not touched |
| Subscription.FreeAdmittedBelowLimit | src/lib/subscriptionService.ts:164-179 | A free user is admitted iff a usage row is obtained and its counter is strictly below the limit; with no row, the user is refused |
| Subscription.CanPerformAction | src/lib/subscriptionService.ts:151-180 | The verdict and the usage table left behind are the gate's, computed from Pro status and the old table |
| Subscription.Increment | src/lib/subscriptionService.ts:183-219 | Succeeds iff a row is obtained and the update works; on success only the action's counter is bumped, and on failure nothing beyond the fetch is written |
| Subscription.IncrementUsage | src/lib/subscriptionService.ts:183-219 | The result and the new usage table are those of `Increment` |
| Subscription.IncrementsFromFresh | src/lib/subscriptionService.ts:183-219 | n increments of one kind from a missing row give n for that kind and 0 for the other two |
| Subscription.FreeUserAdmittedExactlyLimit | src/lib/subscriptionService.ts:151-219 | Of n gate-then-increment attempts by a free user from a fresh month, exactly min(n, limit) are admitted, and the counter ends at that number |
| Subscription.RemainingFor | src/lib/subscriptionService.ts:268-289 | Pro gives -1 for every kind; a free user with no usage row gets nothing; otherwise each kind gets max(0, limit - used) |
| Subscription.RemainingAgreesWithGate | src/lib/subscriptionService.ts:268-289 | For a free user the allowance lies between 0 and the limit, and it is positive exactly when the gate admits |
| Subscription.GetRemainingUsage | src/lib/subscriptionService.ts:268-289 | Pro users get -1s without a usage read; free users get `RemainingFor` of the fetched row, and the table is that fetch's |
| Subscription.SetProByEmail | src/lib/subscriptionService.ts:222-240 | Every profile with the email gets the new `pro_until` and `updated_at`; every other profile is unchanged; no profile is added or removed |
| Subscription.UpdateUserProStatus | src/lib/subscriptionService.ts:222-240 | Returns whether the update worked; on failure the profiles are unchanged, otherwise they are `SetProByEmail` of the old ones |
| Subscription.SubscriptionUpdate | src/lib/subscriptionService.ts:243-265 | Only the user's own profile changes: its `updated_at` is now, and its `pro_until` is null for the Pro plan and kept for the free plan |
| Subscription.UpdateUserSubscription | src/lib/subscriptionService.ts:243-265 | Returns whether the update worked; the profiles become `SubscriptionUpdate` of the old ones, or stay unchanged on failure |
| Subscription.SubscriptionUpdateEffect | src/lib/subscriptionService.ts:249-257 | After an update to the Pro plan the user is not Pro at any time; after an update to the free plan, Pro status is what it was |
| FeatureFlow.AdmittedUseStaysWithinLimit | src/lib/subscriptionService.ts:151-219 | A free user admitted by the gate, followed by a working increment, has that counter raised by one and still within the limit, and the other counters untouched |
| UserData.DmActivity | src/lib/userDataService.ts:109-113 | The DM activity is the user's `dm_generation` entry with exactly platform, message_type and tone, taken from the record |
| UserData.PricingActivity | src/lib/userDataService.ts:146-150 | The pricing activity is a `pricing_calculation` entry with exactly platform, niche and recommended_price |
| UserData.KitActivity | src/lib/userDataService.ts:183-187 | The media-kit activity is a `media_kit_creation` entry with exactly creator_name, niche and kit_style |
| UserData.LogUserActivity | src/lib/userDataService.ts:209-224 | The log gets the entry appended iff the insert works, and the result says whether it did |
| UserData.SaveDmGeneration | src/lib/userDataService.ts:98-116 | A failed insert returns false and appends nothing; otherwise the record is appended and returns true, and one `dm_generation` entry is logged unless logging fails |
| UserData.SavePricingCalculation | src/lib/userDataService.ts:135-153 | As for DMs: the record is appended iff the insert works, and its activity only then and only if logging works |
| UserData.SaveMediaKit | src/lib/userDataService.ts:172-190 | As for DMs, for the media-kit table and its `media_kit_creation` entry |
| UserData.Owned | src/lib/userDataService.ts:118-132 | The rows owned by the user: every one of them, and nothing else |
| UserData.OwnedAppend | src/lib/userDataService.ts:98-116 | Appending a row adds it to its owner's rows and to no one else's |
| UserData.Newest | src/lib/userDataService.ts:118-132 | At most `limit` of the user's rows, all of them the user's |
| UserData.SavedRecordFirst | src/lib/userDataService.ts:118-132 | Right after a save, the new record heads its owner's list, followed by the older ones |
| UserData.GetUserDmGenerations | src/lib/userDataService.ts:118-132 | The user's DM records, newest first and at most `limit`, or empty on error |
| UserData.GetUserPricingCalculations | src/lib/userDataService.ts:155-169 | The user's calculations, newest first and at most `limit`, or empty on error |
| UserData.GetUserMediaKits | src/lib/userDataService.ts:192-206 | The user's media kits, newest first and at most `limit`, or empty on error |
| UserData.ApplyUpdate | src/lib/userDataService.ts:83-95 | Each supplied e-mail, name, avatar or `created_at` replaces the old one and each missing one is kept; `updated_at` is always now, whatever was supplied; `pro_until`, which this service's profile type lacks, is untouched |
| UserData.UpdateUserProfile | src/lib/userDataService.ts:83-95 | Returns whether the update worked; only the user's own profile changes, and only on success |
| UserData.SumBounds | src/lib/userDataService.ts:241-243 | A sum of values between lo and hi lies between n·lo and n·hi |
| UserData.AverageDeal | src/lib/userDataService.ts:241-243 | 0 for no records; otherwise the mean of the recommended prices, rounded to the nearest integer |
| UserData.AverageWithinRange | src/lib/userDataService.ts:241-243 | The rounded average of values between lo and hi stays between lo and hi |
| UserData.ResponseRate | src/lib/userDataService.ts:260 | The response rate is between 0 and 100 and is 0 exactly when there are no DMs |
| UserData.GetDashboardStats | src/lib/userDataService.ts:227-279 | An exception gives all-zero stats; otherwise the counts are the user's DMs and kits (0 if that read fails), the average deal is the rounded mean of the user's recommended prices (0 with none or a failed read), the response rate is 0 iff there are no DMs, and the activities are the newest 5 of the user's |
| UserData.AverageDealWithinUserPrices | src/lib/userDataService.ts:232-243 | The dashboard's average deal is 0 with no calculations, and otherwise lies within the range of the user's recommended prices |
| Hex.ToBase16 | supabase/functions/gumroad-webhook/index.ts:151 | `toString(16)` of a number is non-empty lowercase hex, one digit exactly below 16 |
| Hex.PadStart | supabase/functions/gumroad-webhook/index.ts:151 | `padStart` keeps the text as a suffix, fills the front with the fill character and reaches the width |
| Hex.ByteToHex | supabase/functions/gumroad-webhook/index.ts:151 | Each byte becomes exactly two lowercase hex digits |
| Hex.Encode | supabase/functions/gumroad-webhook/index.ts:150-152 | The encoding is lowercase hex, two characters per byte |
| Hex.PaddedHex | supabase/functions/gumroad-webhook/index.ts:151 | `toString(16).padStart(2, '0')` is the two-digit encoding of the byte |
| Hex.SignatureText | supabase/functions/gumroad-webhook/index.ts:150-152 | The joined digits are the hex encoding of the HMAC bytes |
| Hex.DigitInjective | supabase/functions/gumroad-webhook/index.ts:151 | Different digit values give different hex digits |
| Hex.ByteOfHex | supabase/functions/gumroad-webhook/index.ts:151 | Reading back the two digits of a byte gives the byte |
| Hex.HexOfByte | supabase/functions/gumroad-webhook/index.ts:151 | Two lowercase digits are the encoding of the byte they denote |
| Hex.DecodeEncode | supabase/functions/gumroad-webhook/index.ts:150-152 | Decoding the encoding of any bytes gives the bytes back |
| Hex.EncodeDecode | supabase/functions/gumroad-webhook/index.ts:150-152 | Any decodable text is the encoding of what it decodes to |
| Hex.EvenHexDecodes | supabase/functions/gumroad-webhook/index.ts:150-152 | Every even-length lowercase hex text decodes, so the encoding is onto such text |
| Hex.EncodeInjective | supabase/functions/gumroad-webhook/index.ts:150-154 | Two byte strings with the same encoding are equal, so the string comparison compares MACs |
| Webhook.VerifySignature | supabase/functions/gumroad-webhook/index.ts:130-159 | No secret accepts any signature; with a secret, a signature is accepted exactly when the HMAC is computed and the signature equals its lowercase hex encoding |
| Webhook.AcceptedSignatureShape | supabase/functions/gumroad-webhook/index.ts:150-154 | An accepted signature is lowercase hex, twice the MAC's length, and decodes to the MAC |
| Webhook.UppercaseSignatureRefused | supabase/functions/gumroad-webhook/index.ts:150-154 | With a secret set, a signature with any character outside lowercase hex, an uppercase digit for one, is refused |
| Webhook.UpgradeEntry | supabase/functions/gumroad-webhook/index.ts:200-212 | The upgrade entry belongs to the buyer, has type subscription_upgrade and exactly the keys from_plan ("pro" iff a `pro_until` existed before), to_plan "pro", the sale id, the amount and the new `pro_until` |
| Webhook.PaymentSpec | supabase/functions/gumroad-webhook/index.ts:161-228 | A payment either leaves the profiles alone or sets the buyer's `pro_until` to a month from now; it logs at most one entry, and none when it fails |
| Webhook.KnownBuyerUpgraded | supabase/functions/gumroad-webhook/index.ts:164-219 | A known buyer with working reads and update succeeds: `pro_until` is a month from now (not from the old date), no other profile changes, and one upgrade entry is logged unless logging fails |
| Webhook.UpdateErrorRefused | supabase/functions/gumroad-webhook/index.ts:180-194 | A known buyer whose profile update returns an error gets a failure with the upgrade message, no profile change and no log entry |
| Webhook.UnknownBuyerIgnored | supabase/functions/gumroad-webhook/index.ts:164-176 | An unknown email is a success with the not-found message, no profile change and no log entry |
| Webhook.ProcessPayment | supabase/functions/gumroad-webhook/index.ts:161-228 | The result, the profiles and the appended log are the payment specification's |
| Webhook.Serve | supabase/functions/gumroad-webhook/index.ts:42-128 | OPTIONS answers 200 ok; other non-POSTs 405; a malformed body 500; a bad signature 401; a production test sale 200 skipped; all of these change nothing; otherwise 200 or 400 from the payment, with its state change |
| ClientAi.RejectionMessage | src/lib/openrouter.ts:19-34 | The missing-key error is reported first; otherwise status 402 or "402" in the error gives the quota message; otherwise the server's error text; with no error text, "API request failed: " and the status |
| ClientAi.CallProxy | src/lib/openrouter.ts:7-38 | A delivered reply is returned as is; anything else throws, an unreachable proxy with its own message |
| ClientAi.RejectionClassified | src/lib/openrouter.ts:19-34 | A non-OK reply always throws, and the thrown message classifies as key missing, quota or other exactly as the status and error say |
| ClientAi.QuotaMessageHas402 | src/lib/openrouter.ts:29-31 | The quota message itself contains "402" |
| ClientAi.WithNotice | src/lib/openrouter.ts:137-156 | A missing key puts the key notice in front of the tip, an exceeded quota the quota notice, and any other failure leaves the tip bare |
| ClientAi.OutreachTip | src/lib/openrouter.ts:159-167 | TikTok, YouTube and Twitter have tips of their own; every other platform gets the Instagram tip |
| ClientAi.DailyOutreachTip | src/lib/openrouter.ts:40-58 | A delivered tip is shown as is |
| ClientAi.DailyPricingTip | src/lib/openrouter.ts:60-78 | A delivered tip is shown as is |
| ClientAi.TipNotices | src/lib/openrouter.ts:40-78 | A rejected call gives the fallback tip with the notice matching the classified failure |
| ClientAi.UnreachableTipIsBare | src/lib/openrouter.ts:40-58 | A proxy that cannot be reached gives the bare fallback tip |
| ClientAi.BrandEnhancers | src/lib/openrouter.ts:180-214 | Always three suggestions, with the Fashion, Beauty, Fitness, Food and Tech lists for those niches and the default list for any other |
| ClientAi.GenerateBrandMatchEnhancer | src/lib/openrouter.ts:80-90 | A delivered answer is returned; otherwise the niche is echoed with its three fallback suggestions |
| ClientAi.EnhanceBioWithAI | src/lib/openrouter.ts:92-100 | A delivered bio is returned; otherwise the bio is kept and the fixed sentence is appended |
| ClientAi.ToneOf | src/lib/openrouter.ts:219-240 | "professional" and "friendly" select their branches; every other tone falls to the confident one |
| ClientAi.TemplateFor | src/lib/openrouter.ts:216-241 | A reply template iff the type is reply with a non-empty brand message; an outreach template iff the type is outreach; the tone is `ToneOf` the request's |
| ClientAi.DmTemplateMarks | src/lib/openrouter.ts:219-238 | Each of the six templates is longer than the apology and carries marks that identify its branch |
| ClientAi.DmTemplatesDistinct | src/lib/openrouter.ts:219-238 | Different template choices give different messages for the same request, and none is the apology |
| ClientAi.FallbackDm | src/lib/openrouter.ts:216-241 | The apology exactly when no template is selected; otherwise the selected template |
| ClientAi.FallbackDmBranches | src/lib/openrouter.ts:216-241 | A reply without a brand message, or an unknown type, gives the apology; an unknown tone gives the confident template |
| ClientAi.GenerateDMWithAI | src/lib/openrouter.ts:102-116 | A delivered answer is returned; otherwise the primary and both alternatives are the same fallback message, and the matched data is the first three records at most |
| ClientAi.ClientTable | src/lib/openrouter.ts:251-275 | A five-bracket table exists exactly for instagram, tiktok, youtube and twitter, in any letter case |
| ClientAi.ClientBaseMonotone | src/lib/openrouter.ts:251-275 | More followers never lower the base price on any platform |
| ClientAi.ClientEngagementMultiplier | src/lib/openrouter.ts:278-281 | The engagement multiplier lies between 0.7 and 1.6, and is 1 for a rate that does not parse |
| ClientAi.ClientEngagementMonotone | src/lib/openrouter.ts:278-281 | A higher engagement rate never lowers the multiplier |
| ClientAi.ClientMultiplier | src/lib/openrouter.ts:278-287 | In one of the premium niches the engagement multiplier is taken 1.6 times, outside them it is kept; it lies between 0.7 and 2.56 |
| ClientAi.ClientPremiumFactors | src/lib/openrouter.ts:302-307 | Each of the four factors is listed iff its condition holds, no other factor is listed, and they come in the fixed order engagement, niche, campaign, region |
| ClientAi.FactorListMembers | src/lib/openrouter.ts:302-307 | Each optional factor is in the list iff its flag is set |
| ClientAi.FactorListAscending | src/lib/openrouter.ts:302-307 | The optional factors appear in rank order: engagement, niche, campaign, region |
| ClientAi.ScaledPrice | src/lib/openrouter.ts:289 | The recommended price is base times multiplier rounded to the nearest integer |
| ClientAi.FallbackPricing | src/lib/openrouter.ts:243-310 | min ≤ recommended ≤ max, with the range 0.8 and 1.5 times the recommendation; an unknown platform gives 0, 0, 0; the reasoning names the request's fields; the factors and the first three example deals come from the inputs |
| ClientAi.GeneratePricingWithAI | src/lib/openrouter.ts:118-125 | A delivered answer is returned; otherwise the fallback calculation |
| ClientAi.FallbackMediaKit | src/lib/openrouter.ts:312-335 | The kit is the rendered template with 7 section names, 6 design tips and no matched data |
| ClientAi.GenerateMediaKitWithAI | src/lib/openrouter.ts:127-134 | A delivered kit is returned; otherwise the fallback kit |
| KitTemplate.Header | src/lib/openrouter.ts:584-590 | The header items come in the fixed order: logo, image, name, niche, location |
| KitTemplate.HeaderShape | src/lib/openrouter.ts:584-590 | Logo, image and location appear iff their fields are non-empty; name and niche always appear; each item carries the request's value |
| KitTemplate.Cards | src/lib/openrouter.ts:601-608 | One platform card per platform, in order, with its name, followers and handle |
| KitTemplate.AudienceItems | src/lib/openrouter.ts:611-635 | Gender, age and countries each appear iff non-empty, in that order, with their values; the grid is empty iff all three are |
| KitTemplate.SectionFor | src/lib/openrouter.ts:592-656 | Each section rank gives the section of that rank |
| KitTemplate.ShownRanks | src/lib/openrouter.ts:592-656 | About Me and Platform Statistics always come first; audience, services and past collaborations appear iff their fields are set; ranks strictly increase |
| KitTemplate.SectionsAt | src/lib/openrouter.ts:592-656 | One section per shown rank, in order |
| KitTemplate.Sections | src/lib/openrouter.ts:592-656 | The page starts with the bio and the platform cards, and the sections keep their fixed order |
| KitTemplate.RankTitleInjective | src/lib/openrouter.ts:592-656 | Different sections have different headings |
| KitTemplate.TitleByRank | src/lib/openrouter.ts:592-656 | A section's heading is the heading of its rank |
| KitTemplate.ShowsRank | src/lib/openrouter.ts:611-650 | An optional section heading is on the page iff its rank is shown |
| KitTemplate.RankShown | src/lib/openrouter.ts:592-656 | A shown rank has its heading on the page |
| KitTemplate.ShownRank | src/lib/openrouter.ts:592-656 | A heading on the page belongs to a shown rank |
| KitTemplate.SectionsShape | src/lib/openrouter.ts:611-650 | The Audience Demographics, Services and Past Collaborations sections each appear iff their fields are set, and each section carries the request's content |
| KitTemplate.Render | src/lib/openrouter.ts:338-659 | The kit's title is "name - Media Kit"; the colours are the brand colour or the defaults; the header and sections are as above; the contact email appears iff given |
| KitTemplate.DefaultColours | src/lib/openrouter.ts:376 | Without a brand colour the accent is #6366f1 and the gradient ends at #8b5cf6; with one, both are the brand colour |
| KitTemplate.LayoutsAgree | supabase/functions/openrouter-proxy/index.ts:626-698 | The proxy's template shows the same header, sections, colours and contact as the client's |
| KitTemplate.MinimalKit | src/lib/openrouter.ts:592-656 | With no audience, services, past collaborations or email, the page has only the bio and the platform cards and no contact email |
| Proxy.CallOpenRouter | supabase/functions/openrouter-proxy/index.ts:73-104 | The model's content is returned when it answers; any failure throws with its reason |
| Proxy.UpstreamMessageHasStatus | supabase/functions/openrouter-proxy/index.ts:97-100 | An upstream error message contains its HTTP status |
| Proxy.Caught | supabase/functions/openrouter-proxy/index.ts:55-70 | An error mentioning 429 or 402 becomes 402 with the body error `OPENROUTER_API_402_ERROR`; every other error becomes 500 with its own message |
| Proxy.Respond | supabase/functions/openrouter-proxy/index.ts:54-70 | A result is sent as 200; a thrown error goes through the error mapping |
| Proxy.NonBlank | supabase/functions/openrouter-proxy/index.ts:124 | Blank lines are dropped and no blank line is kept |
| Proxy.NonBlankSingle | supabase/functions/openrouter-proxy/index.ts:124 | A single line is kept iff it is not blank |
| Proxy.NonBlankAppend | supabase/functions/openrouter-proxy/index.ts:124 | The filter works line by line: it distributes over concatenation, so order is kept |
| Proxy.LeadingDigits | supabase/functions/openrouter-proxy/index.ts:125 | The length of the run of digits the line starts with |
| Proxy.LeadingDigitsExact | supabase/functions/openrouter-proxy/index.ts:125 | A run of digits ended by a non-digit is the whole leading digit run, so "N." is matched at one place only |
| Proxy.StripNumber | supabase/functions/openrouter-proxy/index.ts:125 | When the line starts with digits followed by a dot, exactly the text after that dot remains; when it does not, the line is kept |
| Proxy.Clean | supabase/functions/openrouter-proxy/index.ts:125 | A cleaned suggestion neither starts nor ends with white space (with Proxy.CleanNumbered and Proxy.CleanUnnumbered: the number prefix is dropped, then the rest is trimmed) |
| Proxy.CleanNumbered | supabase/functions/openrouter-proxy/index.ts:125 | A line "N. text" is cleaned to the text after the dot with its outer white space removed |
| Proxy.CleanUnnumbered | supabase/functions/openrouter-proxy/index.ts:125 | A line that does not start with a digit is only trimmed |
| Proxy.CleanExample | supabase/functions/openrouter-proxy/index.ts:125 | "1. Foo " is cleaned to "Foo" |
| Proxy.CleanAll | supabase/functions/openrouter-proxy/index.ts:125 | Every line is cleaned, one for one |
| Proxy.BrandMatch | supabase/functions/openrouter-proxy/index.ts:124-134 | The niche is echoed; with three or more non-blank lines the suggestions are the first three cleaned; otherwise the fixed three |
| Proxy.LinesWithBlanks | supabase/functions/openrouter-proxy/index.ts:124 | Blank lines between and after three suggestions are skipped |
| Proxy.NumberedLinesParsed | supabase/functions/openrouter-proxy/index.ts:124 | A model answer of three lines with blank lines around them splits into exactly those three lines |
| Proxy.SplitJoin | supabase/functions/openrouter-proxy/index.ts:124 | Splitting lines joined by a separator they do not contain gives the lines back |
| Proxy.GenerateBrandMatchEnhancer | supabase/functions/openrouter-proxy/index.ts:118-135 | Succeeds iff the model answers, and then parses its answer |
| Proxy.DmPrompt | supabase/functions/openrouter-proxy/index.ts:156-190 | The reply prompt iff the type is reply with a non-empty brand message; the outreach prompt otherwise |
| Proxy.AltHintRotates | supabase/functions/openrouter-proxy/index.ts:195-201 | The first alternative asks for the next tone in the cycle professional → friendly → confident → professional; unknown tones count as confident |
| Proxy.GenerateDm | supabase/functions/openrouter-proxy/index.ts:153-208 | Succeeds iff all three model calls answer; the primary and the two alternatives are their answers, and the matched data is the first three records at most |
| Proxy.ProxyTable | supabase/functions/openrouter-proxy/index.ts:237-256 | A five-bracket table exists only for instagram, tiktok and youtube |
| Proxy.ProxyMultiplier | supabase/functions/openrouter-proxy/index.ts:259-260 | The proxy's engagement multiplier lies between 1 and 1.3 |
| Proxy.ProxyMultiplierMonotone | supabase/functions/openrouter-proxy/index.ts:259-260 | A higher engagement rate never lowers the proxy's multiplier |
| Proxy.ProxyRange | supabase/functions/openrouter-proxy/index.ts:259-273 | min ≤ recommended ≤ max, with the recommendation the rounded base times the multiplier, min the rounded 0.7 times it and max the rounded 1.4 times it |
| Proxy.ProxyPremiumFactors | supabase/functions/openrouter-proxy/index.ts:262-266 | "High engagement rate" iff above 4 and "Premium niche" iff a premium niche, in that order, and no other factor |
| Proxy.NicheNeverChangesProxyPrice | supabase/functions/openrouter-proxy/index.ts:259-273 | Changing the niche never changes the proxy's range |
| Proxy.UnknownPlatformPricesZero | supabase/functions/openrouter-proxy/index.ts:237-273 | A platform without a table is priced 0, 0, 0 |
| Proxy.GeneratePricingWithAI | supabase/functions/openrouter-proxy/index.ts:210-284 | The outcome is the model's reasoning with the proxy's range, factors and example deals, or the model's failure |
| Proxy.OptimizedBio | supabase/functions/openrouter-proxy/index.ts:333-341 | A bio of at most 300 characters is kept; a longer one is the model's shortening, or its first 200 characters and "..." when that call fails |
| Proxy.KitOutcome | supabase/functions/openrouter-proxy/index.ts:286-362 | Outside the email style the kit is always produced, as the template rendered with the optimised bio and the six print sections; in the email style it is produced iff the model answers, as the model's text with the six email sections and tips, and a failed call's error is passed on |
| Proxy.ShortBioKeptInKit | supabase/functions/openrouter-proxy/index.ts:333-360 | Outside the email style with a short bio, the kit is the template rendered from the request as given |
| Proxy.LongBioShortenedInKit | supabase/functions/openrouter-proxy/index.ts:333-340 | A bio over 300 characters is replaced by the model's shortened version |
| Proxy.LongBioCutInKit | supabase/functions/openrouter-proxy/index.ts:333-343 | When shortening fails, a bio over 300 characters becomes its first 200 characters and "..." |
| Proxy.GenerateMediaKitWithAI | supabase/functions/openrouter-proxy/index.ts:286-362 | The outcome is that of the kit specification |
| Proxy.Dispatch | supabase/functions/openrouter-proxy/index.ts:28-52 | An action outside the seven throws "Unknown action" |
| Proxy.Serve | supabase/functions/openrouter-proxy/index.ts:8-71 | OPTIONS answers ok; a missing key gives 500 API_KEY_NOT_CONFIGURED before the body is read; a malformed body goes through the error mapping; otherwise the dispatched action's response |
| Proxy.UnknownActionRefused | supabase/functions/openrouter-proxy/index.ts:50-69 | An unknown action is answered 500 "Unknown action" |
| Proxy.ClientClassifiesCaught | supabase/functions/openrouter-proxy/index.ts:55-70 | The browser classifies the proxy's error responses as quota iff the error mentioned 429 or 402 |
| Proxy.ClientClassifiesMissingKey | supabase/functions/openrouter-proxy/index.ts:17-22 | The browser reads the missing-key response as key missing |
| Proxy.UpstreamLimitShownAsQuota | supabase/functions/openrouter-proxy/index.ts:97-100 | An upstream 402 or 429 reaches the browser as 402 and is shown as a quota failure |
| Pricing.FollowerNumber | src/lib/openrouter.ts:244 | NaN (none) exactly when the text has no digit; an all-digit text reads as its decimal value; other text is read through `Text.DigitsOnly` |
| Pricing.FollowerNumberGrouped | src/lib/openrouter.ts:244 | "25,000" reads as 25000 |
| Pricing.FollowerNumberSuffixed | src/lib/openrouter.ts:244 | "25K" reads as 25: the suffix letter is dropped, not applied |
| Pricing.Tier | src/lib/openrouter.ts:251-275 | The bracket of a follower count: below 10k, 50k, 100k, 500k, else; NaN lands in the last |
| Pricing.TierMonotone | src/lib/openrouter.ts:251-275 | More followers never give a lower bracket |
| Pricing.SpreadOrdered | src/lib/openrouter.ts:289-291 | With factors around 1, the rounded range contains a non-negative recommendation |
| Pricing.SpreadOfZero | src/lib/openrouter.ts:289-291 | A recommendation of 0 gives the range 0, 0, 0 |
| Pricing.ExampleDeals | src/lib/openrouter.ts:296-301 | One example deal per record among the first three, with its platform, followers, rate and a context from niche and engagement |
| PricingAssistant.CatchBase | src/components/PricingAssistant.tsx:79-87 | The catch block's base is one of 75, 200, 500, 1500, 5000 |
| PricingAssistant.CatchBrackets | src/components/PricingAssistant.tsx:79-87 | The brackets below 10k, 50k, 100k, 500k, else give 75, 200, 500, 1500, 5000; text without digits gives 5000 |
| PricingAssistant.CatchMultiplier | src/components/PricingAssistant.tsx:89 | 1.3 exactly when the rate is above 4, 1 otherwise |
| PricingAssistant.CatchRecommended | src/components/PricingAssistant.tsx:89-90 | The recommendation is at least the base, and is the base when engagement is not above 4 |
| PricingAssistant.CatchRecommendedRaised | src/components/PricingAssistant.tsx:89-90 | High engagement makes the five bases 98, 260, 650, 1950 and 6500 |
| PricingAssistant.CatchPathPricing | src/components/PricingAssistant.tsx:79-102 | min ≤ recommended ≤ max at 0.7 and 1.4 times; exactly the one factor "High engagement rate" iff engagement above 4, and no other; the catch block's reasoning; no example deals and no matched data |
| PricingAssistant.CatchPathIgnoresPlatformAndNiche | src/components/PricingAssistant.tsx:79-102 | Changing the platform or niche changes neither the range nor the factors |
| PricingAssistant.Answer | src/components/PricingAssistant.tsx:40-104 | The client's answer when the reference query works, the catch block's when it errs |
| PricingAssistant.PricingView.constructor | src/components/PricingAssistant.tsx:16-24 | The form starts on Instagram and "sponsored post" with every other field empty |
| PricingAssistant.PricingView.CalculatePricing | src/components/PricingAssistant.tsx:26-124 | An incomplete form changes nothing; a refusal clears the answer, shows the modal and saves and counts nothing; an admitted run shows the answer, saves one record (and its activity) and increments pricing usage once, on both paths |
| DmGenerator.BestToneByPlatform | src/components/DMGenerator.tsx:117-125 | The four platforms have their own advice; every other gets "Professional approach recommended" |
| DmGenerator.ToneAdviceDistinct | src/components/DMGenerator.tsx:117-125 | The four platforms get four different pieces of advice |
| DmGenerator.RequestOf | src/components/DMGenerator.tsx:72-80 | The brand message is sent iff the type is reply |
| DmGenerator.ReadyReplyGetsTemplate | src/components/DMGenerator.tsx:50-51 | A form the guard lets through in reply mode always gets a reply template, never the apology |
| DmGenerator.DmView.constructor | src/components/DMGenerator.tsx:16-26 | The form starts in outreach mode on Instagram with the professional tone and empty fields |
| DmGenerator.DmView.GenerateDm | src/components/DMGenerator.tsx:49-111 | An incomplete form changes nothing; a refusal clears the answer and shows the modal; a reference-query error shows the fixed error text and saves and counts nothing; otherwise the answer is shown, its primary message saved and DM usage incremented once |
| MediaKitView.Listed | src/components/MediaKit.tsx:154 | Exactly the platforms with both a handle and followers, in order |
| MediaKitView.ListedAppend | src/components/MediaKit.tsx:154 | The filter works row by row, so the order is kept |
| MediaKitView.WithField | src/components/MediaKit.tsx:123 | The chosen field takes the value and the other two are kept |
| MediaKitView.UpdatedPlatforms | src/components/MediaKit.tsx:121-125 | Only the chosen row changes, and in it only the chosen field |
| MediaKitView.UpdateRestores | src/components/MediaKit.tsx:121-125 | Writing the old value back restores the list |
| MediaKitView.PdfFilename | src/components/MediaKit.tsx:205 | The name ends with "_MediaKit.pdf", has no white space before it and is no longer than name plus suffix; the part before is `Text.ReplaceSpaceRuns` of the name |
| MediaKitView.PdfFilenameKeepsPlainName | src/components/MediaKit.tsx:205 | A name without white space is kept as it is |
| MediaKitView.PdfFilenameExample | src/components/MediaKit.tsx:205 | "Jane  Doe" gives "Jane_Doe" followed by "_MediaKit.pdf" |
| MediaKitView.GetThemeColors | src/components/MediaKit.tsx:218-226 | The primary colour is the custom colour and the secondary is it with "80" appended |
| MediaKitView.UnknownThemeIsCreative | src/components/MediaKit.tsx:218-226 | An unknown theme gets the creative theme's colours |
| MediaKitView.MediaKitView.constructor | src/components/MediaKit.tsx:47-75 | The notion style, three empty platform rows, an empty audience and the default colour and theme |
| MediaKitView.MediaKitView.Request | src/components/MediaKit.tsx:150-168 | Tone and brand name are sent only in email style; the platforms sent are the listed ones |
| MediaKitView.MediaKitView.EnhanceBio | src/components/MediaKit.tsx:104-118 | Without a bio or niche nothing changes; otherwise the bio becomes the enhanced or fallback bio |
| MediaKitView.MediaKitView.UpdatePlatform | src/components/MediaKit.tsx:121-125 | The platform rows become the updated list |
| MediaKitView.MediaKitView.GenerateMediaKit | src/components/MediaKit.tsx:127-195 | An incomplete form changes nothing; a refusal clears the answer and shows the modal; a reference-query error saves and counts nothing; otherwise the kit is shown, saved with the listed platforms and counted once |
| MediaKitView.MediaKitView.Produce | src/components/MediaKit.tsx:141-194 | The admitted part of the flow: a reference-query error writes nothing; otherwise one save and one increment |
| App.TimeAgo | src/App.tsx:318-328 | Less than an hour, future dates included, is "Just now"; then whole hours, then "1 day ago", then whole days |
| App.DaysOfHours | src/App.tsx:322-325 | Whole days counted from whole hours equal whole days counted directly |
| App.OneHourIsPlural | src/App.tsx:324 | Exactly one hour reads "1 hours ago" |
| App.TimeAgoEndsWithAgo | src/App.tsx:323-327 | Every answer other than "Just now" ends with "ago" |
| App.DetailText | src/App.tsx:308-312 | The detail's text exactly when it is present, a string and non-empty; otherwise the default |
| App.ActivityDescription | src/App.tsx:305-316 | An unknown activity type is "Unknown activity" |
| App.SavedDmDescribed | src/App.tsx:308 | A logged DM is described by its own message type and platform, with defaults for empty ones |
| App.SavedPricingDescribed | src/App.tsx:310 | A logged calculation is described by its own platform and niche |
| App.SavedKitDescribed | src/App.tsx:312 | A logged media kit is described by its own style and creator |
| App.Route | src/App.tsx:986-1028 | The spinner exactly while loading; signed out, landing for the landing view and sign-in otherwise; signed in, the view's page, with the dashboard for any unknown view |
| App.NamedViewsDistinct | src/App.tsx:1013-1028 | The five named views show five different pages |
| App.AppShell.constructor | src/App.tsx:946-948 | The shell starts on the landing view with no user and no profile |
| App.AppShell.OnUserChanged | src/App.tsx:950-963 | A user moves to the dashboard with the loaded profile; no user moves to the landing page |
| App.AppShell.HandleAuthSuccess | src/App.tsx:965-967 | Sign-in leads to the dashboard |
| App.AppShell.HandleSignOut | src/App.tsx:969-972 | Sign-out leads to the landing page |
| App.AppShell.HandleShowPricing | src/App.tsx:974-976 | The pricing plans page is shown |
| App.AppShell.HandleGetStarted | src/App.tsx:978-984 | A signed-in user goes to the dashboard, anyone else to sign-in |
| App.LocalPricingView.constructor | src/App.tsx:525-533 | The shell's calculator starts like the pricing screen |
| App.LocalPricingView.CalculatePricing | src/App.tsx:537-632 | As the pricing screen's flow, except that the old answer is not cleared, so a refusal leaves it on screen; an admitted run saves once and increments once |
| PricingComparison.TwitterPricedOnlyByClient | src/lib/openrouter.ts:270-275 | The proxy prices Twitter at 0 while the client gives at least 56 |
| PricingComparison.NicheMovesOnlyClientPrice | src/lib/openrouter.ts:284-289 | For the same platform and followers, a premium niche raises the client's price but leaves the proxy's range alone |
| PricingComparison.PremiumScaledHigher | src/lib/openrouter.ts:286-289 | On a base of at least 80, the 1.6 niche factor always raises the rounded price |
| PricingComparison.SmallInstagramCreator | src/components/PricingAssistant.tsx:79-102 | 5,000 Instagram followers at 2%: the catch block and the proxy say 53-105 around 75, the client says 80-150 around 100 |
| PricingComparison.PremiumInstagramCreator | src/components/PricingAssistant.tsx:79-102 | 120,000 Instagram followers at 6% in a premium niche: the catch block and the proxy say 1,365-2,730 around 1,950, the client 3,226-6,048 around 4,032 |
| PricingComparison.PremiumInstagramClientPrice | src/lib/openrouter.ts:251-289 | The client's price in that example is 1,800 × 1.4 × 1.6 = 4,032 |
| Text.DigitsOnly | src/lib/openrouter.ts:244 | The result holds only digits, is empty iff the text has none, and an all-digit text is kept whole |
| Text.DigitsOnlyChar | src/lib/openrouter.ts:244 | A single character is kept exactly when it is a digit |
| Text.DigitsOnlyAppend | src/lib/openrouter.ts:244 | Keeping the digits distributes over concatenation, so with `DigitsOnlyChar` the result is every digit of the text in order |
| Text.ParseDigitsGrouped | src/lib/openrouter.ts:244 | `parseInt` of the digits of "25,000" is 25000 |
| Text.ParseDigitsSuffixed | src/lib/openrouter.ts:244 | `parseInt` of the digits of "25K" is 25 |
| Text.Lower | src/lib/openrouter.ts:251 | Lowercases the ASCII letters, character by character |
| Text.Trim | src/components/DMGenerator.tsx:51 | Empty exactly for all-white-space text; otherwise no white space at either end; never longer than the text |
| Text.TrimSlice | src/components/DMGenerator.tsx:51 | The trimmed text is a slice of the text with only white space before and after it |
| Text.TrimExample | src/components/DMGenerator.tsx:51 | " Foo " is trimmed to "Foo" |
| Text.JoinSplit | supabase/functions/openrouter-proxy/index.ts:124 | Joining the split pieces with the separator gives the text back |
| Text.ReplaceSpaceRuns | src/components/MediaKit.tsx:205 | The result has no white space and is no longer than the text |
| Text.ReplaceSpaceRunsKeeps | src/components/MediaKit.tsx:205 | Text without white space is kept |
| Text.ReplaceSpaceRunsSplit | src/components/MediaKit.tsx:205 | A word, then one run of white space, then text starting with a non-space: the word is kept and the run becomes exactly one replacement character |
| Text.ReplaceSpaceRunsExample | src/components/MediaKit.tsx:205 | "Jane  Doe" becomes "Jane_Doe" |
| Text.TrimStartRun | src/components/MediaKit.tsx:205 | A whole run of white space in front of a non-space is dropped |
| Numeric.Round | src/lib/openrouter.ts:289 | `Math.round` of a real is the integer within one half of it, halves rounding up |
| Numeric.RoundMonotone | src/lib/openrouter.ts:289-291 | Rounding never reverses order |

## Left out

- Rendering, styling and icons are left out, because they are display code. This covers the JSX, the loading spinners' timing (`isGenerating` is modelled only as a flag), the usage-limit modal's contents, the landing, sign-in and plans pages, and `getUsagePercentage`.
- Network and database I/O are not modelled as calls. Every Supabase query, proxy call and LLM call is a parameter: a reply value, or a flag saying whether that read or write fails.
- HMAC-SHA256 is an opaque function to bytes. Only the hex encoding and the string comparison are modelled.
- Concurrency is not modelled:
  - The duplicate-key race in `getUserUsage` is a sequential "another writer inserted the row first" flag.
  - The check-then-increment window between the gate and `incrementUsage` is not modelled.
  - The two DM alternatives are requested together with `Promise.all`, which rejects with whichever call fails first in time. When both fail, Proxy.GenerateDm reports the first alternative's error.
  - The dashboard's parallel loads are not modelled.
- Floating point is not modelled. Rates are exact rationals, `parseFloat` is a parameter that returns a rational or NaN, and `Math.round` is `floor(x + 1/2)`. IEEE ties and representation error are not modelled.
- `Date` and time zones are not modelled. The current time is an integer; the `YYYY-MM` month key, "plus one month" and date formatting are parameters. Parsing stored dates is not modelled, and neither is a month boundary falling between the gate and the increment.
- `Math.random` (the pricing tip pick and the dashboard response rate) is a parameter.
- The media kit is a structured document of header items and sections, not HTML text. Escaping, markup and CSS are not modelled, and neither is the email style's model-written HTML beyond its being returned.
- Strings are sequences of characters. UTF-16 length, and case mapping outside ASCII in `toLowerCase`, are not modelled.
- Prompt wording is left out: prompts are structured values carrying the fields they use.
- JavaScript's dynamic failures are not modelled: a missing field raising a TypeError, `choices[0]` being absent in a model reply, a non-string `error` in a JSON body, and a lookup hitting an `Object.prototype` key.
- The save and increment calls in the screens' flows are not modelled as throwing. Their failures are modelled as false results, which the screens ignore.
- UserData.ApplyUpdate: an `id` inside the update is not modelled. Such an update would move the row to another key, and the profiles table is a map keyed by user id.
- App.DetailText: reads a non-string detail value (such as the recommended price) as absent, because the description templates only show text fields.
- The `enhanceBio` screen's catch block is left out: the client library never throws there, so it cannot be reached.
- MediaKitView.GetThemeColors: the colours only style the notion-style theme preview, which is display code (see the rendering line above), so no modelled flow depends on them.
- These operations are left out, because they only load data for display or reach the browser: `loadTopPerformingDMs`, the recent-pricing load and the `pricing` field it feeds into the media-kit request, `handleImageUpload`, the PDF download itself (only its filename is modelled), and copying to the clipboard.
- `loadUserProfile`'s asynchronous timing is left out. The profile read is passed to the user-change handler as its result.
- MediaKitView.MediaKitView.UpdatePlatform: requires an index inside the list, because the screen calls it only for rows it shows.
