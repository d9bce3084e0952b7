# Legal-letter service: checkout, settlement, letter generation and access control

This project is a Dafny model of the server-side decision logic of a
subscription legal-letter web application. Each route becomes a pure
function from a request and an immutable record store to a reply and the
new store. The store holds profiles, subscriptions, letters, employee
coupons, coupon-usage rows, commissions and the letter audit trail. The
modelled routes are:

- **Checkout.** There are two handler variants. `CheckoutWithBypass` accepts a case-insensitive `TALK3` code that is free without consulting the coupon table. `CheckoutWithoutBypass` has no such code and books no commission for super-user coupons. Both share the plan table (`Pricing`) and the zero-cost write (`Records.ApplyPurchase`).
- **Payment settlement** (`Settlement`). A paid checkout session becomes a subscription exactly once. The pricing facts are read back from the session metadata.
- **Letter generation** (`Generation`, `Allowance`, `Prompt`). This covers:
  - the free-trial rule and the credit pre-check;
  - the letter row moving from `generating` to `pending_review` or `failed`;
  - the credit deduction after a successful draft, and the audit rows;
  - the prompt text built from the intake data.
- **Admin role management.** `SuperUserAdmin` grants and revokes the super-user flag, with a last-super-user guard and a self-modification guard. `PromoteUser` sets the role within the closed role set and clears the super-user flag on promotion to admin.
- **Profile creation** (`ProfileCreation`): an idempotent insert with defaults.
- **Route guards.** `Middleware` is the path-routing decision of the session middleware. `AdminGateway` is the admin portal's landing redirect.

The text model, the payment provider, the admin-session library and the
environment are parameters. A `.single()` query is modelled exactly
(`Query.Single`): it yields a row only when exactly one row matches.
Zero or several matches both read as "no row". Amounts are exact
rationals.

The comments in `app/api/create-checkout/route.ts` promise more than its
code does, and the model follows the code:

- **Bypass-code commission.** The comment at line 29 says the employee still earns a five percent commission for the bypass code. The comment at lines 124-125 says the same. But the bypass branch (lines 27-33) leaves the employee unset, so the commission test at line 126 never fires and the bypass code never produces a commission. An ordinary 100% employee coupon, by contrast, books five percent of the base price (`CheckoutVariants.FullCouponCommissionsDiffer`).
- **Variant without the bypass.** In `main-main/app/api/create-checkout/route.ts` a 100% coupon is always a super-user coupon. The zero-cost branch there excludes super-user coupons from commissions, so it never books a commission.

## Model

| member | source | states |
|---|---|---|
| Records.ParseRole | ttml_app/main-main/main-main/app/api/admin/promote-user/route.ts:22-28 | a role text is accepted exactly when it is one of subscriber, employee, admin |
| Records.RoleTextRoundTrip | ttml_app/main-main/lib/database.types.ts:1 | role names and roles correspond one to one in both directions |
| Records.SetSuperUserFlag | ttml_app/main-main/app/api/admin/super-user/route.ts:47-51 | only the named profile's flag changes, to the requested value; a missing id changes nothing |
| Records.BumpUsageCount | ttml_app/main-main/app/api/create-checkout/route.ts:144-157 | the coupon with that code gains exactly one use; every other coupon and a missing code are untouched |
| Records.SuperUsersAfterFlag | ttml_app/main-main/app/api/admin/super-user/route.ts:47-51 | setting a flag adds or removes exactly that profile from the super users |
| Records.ApplyPurchase | ttml_app/main-main/app/api/verify-payment/route.ts:55-132 | a purchase makes the purchaser a super user exactly when it grants the flag and the purchaser has a profile, and changes no one else's status; it books exactly one commission when one is due and none otherwise; letters and audit untouched |
| Allowance.PurchaseGrantsCredits | ttml_app/main-main/app/api/verify-payment/route.ts:55-74 | a purchase raises its owner's credits by the new active subscription's credits and leaves every other user's credits unchanged |
| Query.Indices | ttml_app/main-main/app/api/verify-payment/route.ts:30-34 | exactly the matching rows, in increasing order |
| Query.Single | ttml_app/main-main/app/api/verify-payment/route.ts:30-36 | a row comes back iff exactly one row matches, and then it is the only matching row |
| Query.CountZero | ttml_app/main-main/main-main/app/api/generate-letter/route.ts:30-32 | a count is zero iff no row matches |
| Query.CountAppend | ttml_app/main-main/main-main/app/api/generate-letter/route.ts:30 | inserting a row raises a count by one iff the row matches |
| Pricing.PlanFor | ttml_app/main-main/app/api/create-checkout/route.ts:54-63 | exactly the three plan keys are valid, at 299/1, 299/4 and 599/8 with their names |
| Pricing.PriceSplit | ttml_app/main-main/app/api/create-checkout/route.ts:65-67 | discount and final price sum to the base price; the final price lies within [0, base] for percentages in [0, 100] and strictly falls as the percentage rises |
| Pricing.ZeroCostIffFullDiscount | ttml_app/main-main/app/api/create-checkout/route.ts:65-70 | for a positive base price the final price is zero iff the discount is 100% |
| Pricing.Cents | ttml_app/main-main/app/api/create-checkout/route.ts:186 | the charged amount is within half a cent of the final price |
| Pricing.PercentOf | ttml_app/main-main/app/api/verify-payment/route.ts:97 | a percentage exists iff the base price is non-zero, and it times the base equals the discount times 100 |
| Pricing.PercentRoundTrip | ttml_app/main-main/app/api/verify-payment/route.ts:89-101 | the percentage read back from a recorded discount amount is the coupon's own percentage |
| Checkout.LookupCoupon | ttml_app/main-main/main-main/app/api/create-checkout/route.ts:26-45 | only an active coupon with exactly the supplied code applies, contributing its percentage, employee and id; it is a super-user coupon iff its percentage is 100 |
| CheckoutWithBypass.Resolve | ttml_app/main-main/app/api/create-checkout/route.ts:21-52 | the discount is 100% iff the code is the bypass code or an active 100% coupon; super-user status comes only from a 100% table coupon, never the bypass code; an employee is attributed iff an active table coupon applies |
| CheckoutWithBypass.Post | ttml_app/main-main/app/api/create-checkout/route.ts:13-211 | 401 and 400 leave the store unchanged; zero cost iff bypass code or 100% coupon; one subscription at price 0 with discount = base price and the plan's letters as credits; usage row; super-user grant only for a table coupon; commission of 5% of the base price plus usage bump when the table coupon names an employee, and no commission or usage bump when it does not; paid path writes nothing and carries base, discount, final price and cents |
| CheckoutWithoutBypass.Post | ttml_app/main-main/main-main/app/api/create-checkout/route.ts:20-202 | zero cost iff an active 100% coupon; then one free subscription, usage row and super-user grant, and never a commission or usage bump; paid path writes nothing and carries the pricing facts |
| CheckoutVariants.BypassCodeCharwise | ttml_app/main-main/app/api/create-checkout/route.ts:27 | the bypass code is exactly a five-letter spelling of TALK3 in any letter case |
| CheckoutVariants.BypassIgnoresCouponTable | ttml_app/main-main/app/api/create-checkout/route.ts:26-33 | with the bypass code the reply and all writes are independent of the coupon table |
| CheckoutVariants.PaidPathsAgree | ttml_app/main-main/main-main/app/api/create-checkout/route.ts:163-197 | both variants send the same session for every purchase that is not free in the bypass variant |
| CheckoutVariants.FullCouponCommissionsDiffer | ttml_app/main-main/app/api/create-checkout/route.ts:126-138 | for a 100% employee coupon the bypass variant books 5% of the base price and the other variant books nothing |
| CheckoutVariants.CheckoutKeepsSessionsUnique | ttml_app/main-main/app/api/create-checkout/route.ts:70-88 | no checkout attaches a payment session to more than one subscription |
| Settlement.Post | ttml_app/main-main/app/api/verify-payment/route.ts:14-139 | missing session id is 400 with no writes; unpaid session is 400 with no writes; a paid session with an id always succeeds; it is reported as already settled, with the existing row and no writes, iff exactly one subscription carries the session id; otherwise one subscription with price, discount and letters from the metadata, super-user grant only for the exact flag "true", commission iff an employee is named and the flag is not "true" |
| Settlement.SettlePreservesUniqueSessions | ttml_app/main-main/app/api/verify-payment/route.ts:29-74 | settlement keeps every payment session attached to at most one subscription |
| Settlement.SettleIdempotent | ttml_app/main-main/app/api/verify-payment/route.ts:29-42 | settling the same paid session again writes nothing and reports the subscription of the first settlement |
| Settlement.PaidSessionSettles | ttml_app/main-main/app/api/verify-payment/route.ts:44-132 | a session priced from a plan and a coupon settles into the same writes as the zero-cost branch, with the session id attached and the commission on the final price |
| Settlement.PaidCheckoutSettlesAsPriced | ttml_app/main-main/app/api/verify-payment/route.ts:44-132 | the session a checkout creates settles into exactly the priced purchase: the metadata reproduces plan, price and coupon percentage |
| Settlement.SettlementGrantsCredits | ttml_app/main-main/app/api/verify-payment/route.ts:66-67 | a settlement raises the purchaser's letter credits by exactly the metadata's letter count |
| Prompt.Humanize | ttml_app/main-main/main-main/app/api/generate-letter/route.ts:193 | the label keeps the key's length and holds no underscore; a key without underscores is its own label |
| Prompt.DropEmpty | ttml_app/main-main/main-main/app/api/generate-letter/route.ts:217 | the filtered lines are non-empty lines of the input |
| Prompt.DropEmptyAppend | ttml_app/main-main/main-main/app/api/generate-letter/route.ts:217 | filtering distributes over concatenation |
| Prompt.PromptShape | ttml_app/main-main/main-main/app/api/generate-letter/route.ts:192-219 | the prompt lines are the header, the six field lines, the amount line iff an amount is demanded, the requirements and the closing line; none is empty |
| Prompt.SplitJoin | ttml_app/main-main/main-main/app/api/generate-letter/route.ts:218 | splitting a newline join recovers the lines when no line holds a newline |
| Prompt.PromptLinesRoundTrip | ttml_app/main-main/main-main/app/api/generate-letter/route.ts:192-219 | when the letter type and intake values hold no newline, the prompt reads back line by line as exactly the filtered lines |
| Allowance.Deduct | ttml_app/main-main/main-main/app/api/generate-letter/route.ts:119-124 | the deduction succeeds iff the call does not fail and the user's single active subscription has a credit; it then lowers the user's credits by exactly one, leaves other users' credits and other rows alone, and keeps credit counts non-negative |
| Allowance.CreditsUpdate | ttml_app/main-main/main-main/app/api/generate-letter/route.ts:119-124 | rewriting one subscription changes the credit total by that row's change |
| Generation.FreeTrialIffNoLetters | ttml_app/main-main/main-main/app/api/generate-letter/route.ts:30-32 | a request is a free trial iff the user owns no letter |
| Generation.FailureOf | ttml_app/main-main/main-main/app/api/generate-letter/route.ts:98-101 | the model outcome is usable iff it is a non-empty text |
| Generation.Attempt | ttml_app/main-main/main-main/app/api/generate-letter/route.ts:67-185 | one letter appended; it ends pending review with the draft iff created, failed otherwise; created adds the "created" audit row and spends one credit unless free; failed generation adds the "generation_failed" row and spends nothing; refused deduction adds no audit row and keeps the subscriptions |
| Generation.Post | ttml_app/main-main/main-main/app/api/generate-letter/route.ts:8-185 | 401 and 403 write nothing; the NoCredits 403 is given iff a subscriber past the free trial lacks a credit; once that check passes, a missing letter type or intake is the 400 and a missing API key the 500, both without writes; a letter is inserted iff all guards pass; the draft is the model's answer to the built prompt; a refused deduction happens only when the call itself fails |
| Generation.GenerationEndsFreeTrial | ttml_app/main-main/main-main/app/api/generate-letter/route.ts:30-32 | every attempt that inserts a letter, failed or not, raises the user's letter count by one and ends the free trial |
| Generation.TwoActiveSubscriptionsBlock | ttml_app/main-main/main-main/app/api/generate-letter/route.ts:36-51 | with two active subscriptions a non-free user is always refused for lack of credit |
| Generation.GenerationKeepsCreditsNonNegative | ttml_app/main-main/main-main/app/api/generate-letter/route.ts:43 | generation never drives a credit count below zero |
| Generation.RepeatedGenerationSpendsCredits | ttml_app/main-main/main-main/app/api/generate-letter/route.ts:28-52 | after a successful generation the next one is never free, spends one more credit when it succeeds, and is otherwise refused or fails at the model |
| SuperUserAdmin.Post | ttml_app/main-main/app/api/admin/super-user/route.ts:5-65 | guard rejection, missing or non-boolean fields, self-modification and last-super-user revoke write nothing; missing fields iff the id or the boolean flag is absent; revoke refused iff at most one super user exists; a grant, or a revoke with two or more super users, by another caller always succeeds, and then only the target's flag changes and a revoke leaves at least one super user |
| SuperUserAdmin.PostKeepsASuperUser | ttml_app/main-main/app/api/admin/super-user/route.ts:32-51 | no request leaves the system without a super user once one exists |
| SuperUserAdmin.RevokeRefusedWithOneSuperUser | ttml_app/main-main/app/api/admin/super-user/route.ts:33-45 | with one super user every revoke by another caller is refused, whoever the target |
| SuperUserAdmin.Get | ttml_app/main-main/app/api/admin/super-user/route.ts:76-98 | the listing holds exactly the profiles flagged as super users |
| SuperUserAdmin.ListingReflectsPost | ttml_app/main-main/app/api/admin/super-user/route.ts:47-51 | after a successful update of an existing profile the listing shows it iff it was granted |
| PromoteUser.Post | ttml_app/main-main/main-main/app/api/admin/promote-user/route.ts:5-96 | missing fields and invalid roles are 400, unknown target is 404, an existing target equal to the caller is 403 (iff), all without writes; a valid role for another existing user always succeeds, and then only the target's role changes, and its super-user flag is cleared iff the new role is admin |
| PromoteUser.MissingSelfIsNotFound | ttml_app/main-main/main-main/app/api/admin/promote-user/route.ts:33-53 | the existence check precedes the self check |
| PromoteUser.PromoteSuperUsers | ttml_app/main-main/main-main/app/api/admin/promote-user/route.ts:55-69 | the super users change only by losing the target when it is made admin |
| PromoteUser.PromoteKeepsCallerSuperUser | ttml_app/main-main/main-main/app/api/admin/promote-user/route.ts:47-53 | a caller who is a super user remains one |
| PromoteUser.PromotionCanClearLastSuperUser | ttml_app/main-main/main-main/app/api/admin/promote-user/route.ts:57-64 | promotion has no last-super-user guard: making the only super user admin can leave none |
| ProfileCreation.Post | ttml_app/main-main/app/api/create-profile/route.ts:21-74 | 400 iff the id or email is missing and 500 iff they are present but the credentials are not, without writes; an existing profile is reported unchanged; a new id with configured credentials is always created, adding exactly one profile with role defaulting to subscriber, any given role stored unchecked, no super-user flag, and a null name when none is given |
| ProfileCreation.PostIdempotent | ttml_app/main-main/app/api/create-profile/route.ts:35-48 | repeating a successful request reports the same profile and writes nothing |
| ProfileCreation.PostAddsNoSuperUser | ttml_app/main-main/app/api/create-profile/route.ts:58 | profile creation never changes the set of super users |
| Middleware.Fallback | ttml_app/main-main/main-main/lib/supabase/middleware.ts:14-24 | without a usable database a path passes iff it is public, otherwise it goes home |
| Middleware.PortalDecision | ttml_app/main-main/main-main/lib/supabase/middleware.ts:67-113 | the portal login page passes; no admin session goes to the portal login; the review redirect happens iff a super-admin section is requested by a session that is not an admin super user; the path passes iff it is the login page or an admin session asks for a page outside the super-admin sections or is an admin super user |
| Middleware.AppDecision | ttml_app/main-main/main-main/lib/supabase/middleware.ts:115-149 | redirect to the dashboard iff in the old admin area; public paths pass; redirect to login iff a signed-out request for another dashboard page; a path passes iff none of the redirects applies; an employee is sent to commissions iff on the letters or subscription pages, and a subscriber to letters iff on the commissions or coupons pages |
| Middleware.Route | ttml_app/main-main/main-main/lib/supabase/middleware.ts:5-163 | missing settings or an internal error use the public-path fallback; otherwise portal paths and application paths are decided separately |
| Middleware.RedirectTargets | ttml_app/main-main/main-main/lib/supabase/middleware.ts:21-145 | every redirect goes to one of seven fixed places |
| Middleware.DefaultPortalClear | ttml_app/main-main/main-main/lib/supabase/middleware.ts:68 | the default portal segment captures none of the application's redirect targets |
| Middleware.ReviewIsOpenToAdmins | ttml_app/main-main/main-main/lib/supabase/middleware.ts:84-94 | the review centre is neither the login page nor a super-admin section |
| Middleware.OnlyDashboardRedirectsAgain | ttml_app/main-main/main-main/lib/supabase/middleware.ts:67-149 | following any redirect other than to the dashboard, with the same session, lands on a page that passes |
| Middleware.RedirectsSettle | ttml_app/main-main/main-main/lib/supabase/middleware.ts:67-149 | there is no redirect loop: at most two redirects lead to a page that passes |
| Middleware.RoleRedirectsDoNotLoop | ttml_app/main-main/main-main/lib/supabase/middleware.ts:134-147 | the employee and subscriber redirect targets pass for the same user |
| AdminGateway.Land | ttml_app/main-main/app/secure-admin-gateway/page.tsx:4-19 | login iff no session or not admin; dashboard iff an admin super user; review iff an admin without the flag; always exactly one |
| AdminGateway.LandingTargetsPass | ttml_app/main-main/app/secure-admin-gateway/page.tsx:8-19 | with the default portal, every landing target passes the middleware for the session that was sent there |

## Left out

- Network clients and HTTP plumbing are not modelled: the database client, the payment provider, the text model, cookies and response bodies. Only the reply kind is modelled, and each reply's status is given by its `Status()`.
- CheckoutWithBypass.Post: a plan name that the plan table inherits as an object property (such as `constructor` or `toString`) is treated as an invalid plan (400). In the source such a name passes the plan check, prices at NaN and ends in the catch-all 500 at the payment step; object-prototype lookup is not modelled.
- CheckoutWithoutBypass.Post: the same inherited-name case is treated as an invalid plan too, for the same reason.
- Database read errors are not modelled: every count and lookup returns its exact answer. In particular generation's free-trial test reads a failed letter count as zero, so a failed count query would grant a free letter; the model always has the exact count (`Generation.IsFreeTrial`).
- Database write errors are not modelled: every insert and update is taken to succeed. So the 500 replies for failed inserts or updates, the logged-and-ignored profile, usage and commission errors, and the catch-all 500 of each route are absent.
- Timestamps are not modelled: `updated_at`, `created_at`, the 30-day period end, the reset time and the dated letter title.
- Floating point is not modelled. Amounts are exact rationals, and `Math.round` is half-up rounding of an exact value. The session metadata is a typed record, so the `toString`/`parseFloat`/`parseInt` round trip through text is not modelled.
- Concurrency is not modelled: the free-trial count, the settlement check-then-insert and the usage-count read-then-write are sequential.
- The stored procedures are not modelled. The deduction's behaviour (`Allowance.Deduct`) is an assumption about a procedure whose body is not part of this model. The audit procedure is modelled as appending one audit row.
- The admin-session library is a parameter (`AdminSession.AdminGuard`, the middleware's `adminSession`, the landing page's session facts). Its own checks are not part of this model.
- The checkout session's mode, URLs, currency and line-item description are not modelled. The session keeps the product name, the amount in cents, the client reference and the metadata.
- Generation's model name, system prompt, temperature and token limit are not modelled. Intake values are strings, with an absent value reading as the empty string. Non-string JSON values are not modelled.
- In generation, a failure of the draft update inside the guarded block is not modelled, because database writes are taken to succeed.
- In settlement, the provider lookup failing is modelled as the absence of a session (`ProviderError`, status 500).
- The super-user listing returns whole profiles rather than the four selected columns.
- Out of scope: pages and components, the approve, reject and submit transitions, the plan table of `lib/constants.ts`, the thin wrappers (the edge-function text generator, the admin login route, the second create-profile route, the configuration reader).
