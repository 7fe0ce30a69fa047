# ideaFlow: accounts, quotas, limits and content checks in Dafny

This project models the logic at the core of ideaFlow, a web application in which a user uploads a PDF
or a web link and has social-media posts generated from it. It is written over plain data. Documents,
collections and JSON answers are immutable values. Every external service is a parameter: the
document store's success flags, the payment provider's sessions, the token verifier, the
authentication service and the text-generation service. The model covers four groups.

1. **The account plan and quota state machine.** The code keeps three document shapes side by side, and
   the model keeps them as separate records (module `Accounts`):
   - flat `pdfUploadsUsed`/`pdfUploadsLimit` fields, written by the REST worker of `api/server.js`;
   - a nested `limits` map, written by most client and server code;
   - a nested `usage` map, written by the sign-up trigger.

   The writers are:
   - the client's account creation and provisioning (`AuthContext`, `SubscriptionContext`,
     `SubscriptionPage`);
   - the sign-up trigger (`AuthTrigger`);
   - the two checkout servers (`CheckoutServers`);
   - the admin endpoint (`SubscriptionAdmin`);
   - the worker's webhook, verify-session and `/user/` routes (`BillingWorker`).

   Store writes (`set`, `set` with merge, `update`, dotted-path update, `increment`) live in `Docs`.
2. **Quota check-and-consume.** There are three ways to count an upload:
   - the transactional `updateUsage`, modelled as one atomic step (`UsageTransaction`);
   - the non-atomic check-then-increment pair (`SubscriptionContext`);
   - the read-then-write counter of the upload page (`PdfUpload`).
3. **The sliding-window rate limiter** (`RateLimiter`) and its use in the sign-in form (`AuthForm`).
   The clock is a parameter.
4. **Pure text and validation functions.** Each lives in its own module:
   - sentence-boundary truncation and upload and link validation (`PdfUpload`);
   - the two generated-content parsers (`Sections`, over the regular-expression split of `TagSplit`);
   - the password-strength classifier (`PasswordStrength`);
   - the check order of the sign-in, password-reset and settings forms (`AuthForm`, `ResetPassword`,
     `SettingsForm`);
   - the input and response checks of the generation request (`AiService`);
   - the read projections with defaults (`BillingWorker.ProjectUser`, `UseSubscription`).

The JavaScript that matters is spelled out in the model:
- truthiness, `||` against `??`, and comparisons with `undefined`/NaN (module `Docs`);
- `String.prototype.split` with a character and with a regular expression, `trim`, and ASCII
  `toLowerCase` (modules `Text` and `TagSplit`);
- regular-expression `.` not matching a line terminator;
- property lookup through the prototype chain.

## Model

| member | source | states |
|---|---|---|
| RateLimiter.Recent | src/utils/rateLimiter.js:13-15 | pruning keeps the stored attempts strictly less than one window old, in their stored order, and nothing else |
| RateLimiter.RecentCounts | src/utils/rateLimiter.js:13-15 | each recent timestamp survives as many times as it was stored, and every other one is dropped |
| RateLimiter.IsRateLimited | src/utils/rateLimiter.js:8-24 | limited iff at least `maxAttempts` recent attempts; a limited check changes nothing; otherwise the key's list becomes its recent attempts plus `now`; every other key is untouched |
| RateLimiter.RemainingTime | src/utils/rateLimiter.js:26-33 | never negative; 0 for a key with nothing stored; at most one window when the oldest attempt is not in the future; a positive wait is the time until the oldest attempt expires |
| RateLimiter.ClearAttempts | src/utils/rateLimiter.js:35-37 | the key is forgotten and every other key keeps its list |
| RateLimiter.IsRateLimitedKeepsBounded | src/utils/rateLimiter.js:17-23 | no stored list ever grows past `maxAttempts` |
| RateLimiter.IsRateLimitedKeepsChronological | src/utils/rateLimiter.js:13-23 | with a clock that does not run backwards, stored lists stay in time order and none lies in the future |
| RateLimiter.RecentSorted | src/utils/rateLimiter.js:13-15 | pruning keeps the survivors in order |
| RateLimiter.RecentKeepsAll | src/utils/rateLimiter.js:13-15 | when every attempt is recent, nothing is pruned |
| RateLimiter.ClearAttemptsKeepsInvariants | src/utils/rateLimiter.js:35-37 | clearing preserves both invariants |
| RateLimiter.RemainingTimeWithinWindow | src/utils/rateLimiter.js:26-33 | in a chronological limiter the wait lies in [0, window] |
| RateLimiter.ClearThenCheck | src/utils/rateLimiter.js:35-37 | after clearing a key there is no wait, and its next check passes whenever `maxAttempts >= 1` |
| RateLimiter.BurstWithinWindow | src/utils/rateLimiter.js:8-24 | checks within one window of the first: exactly the first `maxAttempts` pass, every later one is limited, and the list holds the passing timestamps |
| RateLimiter.AuthLimiterSixthAttempt | src/utils/rateLimiter.js:40 | with the login limiter (5 per 300 000 ms), five checks within five minutes pass and the sixth is refused with a positive wait |
| RateLimiter.ResetLimiterFourthAttempt | src/utils/rateLimiter.js:41 | with the reset limiter (3 per 600 000 ms), three checks pass and the fourth is refused |
| UsageTransaction.DefaultQuota | src/firebase/firebase.js:31 | the assumed quota for a missing entry is 0/2 for `pdfUploads` and 0/1 for any other type |
| UsageTransaction.UpdateUsage | src/firebase/firebase.js:20-41 | with the store calls working (see Left out): a missing account fails with "User document does not exist!" and a full quota with "Usage limit reached", both with no write; otherwise `limits.<type>.used` goes up by one |
| UsageTransaction.UpdateUsageAsWritten | src/firebase/firebase.js:17-41 | on the modular instance that `db` is, `db.collection` throws before anything is read; on a namespaced instance without `FieldValue` every passing check throws at `increment`; only a namespaced instance with `FieldValue` ever succeeds, and then as the transaction does |
| UsageTransaction.AsWrittenNeverWrites | src/firebase/firebase.js:17-21 | as bound, every call fails with no write, whatever the store holds |
| UsageTransaction.UpdateUsageFrame | src/firebase/firebase.js:37-39 | only `limits.<type>.used` changes: every field path disjoint from it reads as before |
| UsageTransaction.UpdateUsageKeepsQuota | src/firebase/firebase.js:33-39 | from an entry with an integer limit and `used <= limit`, a call keeps `used <= limit`, raising `used` by exactly one when it passes |
| UsageTransaction.RepeatUpdatesKeepsQuota | src/firebase/firebase.js:23-40 | any number of calls from an in-quota entry keeps it in quota |
| UsageTransaction.MissingEntryNeverRefused | src/firebase/firebase.js:30-39 | with the store calls working, a type with no entry is never refused, however many calls are made (see Findings) |
| UsageTransaction.ThreeUploadsPastDefault | src/firebase/firebase.js:30-39 | with the store calls working, an empty `limits` map lets three PDF uploads through a default limit of two |
| UsageTransaction.UpdateUsageCorrected | src/firebase/firebase.js:30-39 | the corrected transaction writes the whole defaulted entry, so the limit it checked is stored |
| UsageTransaction.CorrectedMissingEntry | src/firebase/firebase.js:30-39 | corrected, the first call on a missing entry records the full default quota, within its limit |
| UsageTransaction.CorrectedKeepsQuota | src/firebase/firebase.js:30-39 | corrected, every call from a missing or in-quota entry leaves the entry in quota |
| UsageTransaction.RepeatCorrectedKeepsQuota | src/firebase/firebase.js:23-40 | corrected, the bound holds across any number of calls, even from a missing entry |
| UsageTransaction.CorrectedStopsAtDefault | src/firebase/firebase.js:30-39 | corrected, the three-upload run from an empty `limits` map is refused at the third call |
| SubscriptionContext.InitialState | src/contexts/SubscriptionContext.js:16-22 | before any snapshot the provider shows the free plan, 0/2 and 0/1, one generation per upload |
| SubscriptionContext.InitializeUser | src/contexts/SubscriptionContext.js:35-51 | writes only when the account is missing or its `limits` is falsy; other accounts are untouched |
| SubscriptionContext.InitializeWrites | src/contexts/SubscriptionContext.js:39-50 | the provisioning merge sets the free limits, plan and allowance and keeps every field it does not list |
| SubscriptionContext.InitializeUserIdempotent | src/contexts/SubscriptionContext.js:39-50 | provisioning twice is the same as provisioning once |
| SubscriptionContext.CheckUploadLimit | src/contexts/SubscriptionContext.js:68-80 | false with nobody signed in, on a failed read, or when the account, its `limits` or the `<type>Uploads` entry is missing; otherwise `used < limit` with NaN rules |
| SubscriptionContext.CheckUploadLimitOnLimits | src/contexts/SubscriptionContext.js:73-75 | on a well-formed `limits` map the check is exactly `used < limit` of the kind's quota |
| SubscriptionContext.CheckOnQuota | src/contexts/SubscriptionContext.js:74-75 | on a quota that reads as integers, the check is exactly `used < limit` |
| SubscriptionContext.IncrementUploadCount | src/contexts/SubscriptionContext.js:82-92 | adds one to `limits.<type>Uploads.used` without a limit test; nobody signed in, a missing account or a failed write leave the store unchanged |
| SubscriptionContext.IncrementUploadCountFrame | src/contexts/SubscriptionContext.js:86-88 | the counter changes nothing but the kind's `used` field |
| SubscriptionContext.IncrementAddsOne | src/contexts/SubscriptionContext.js:86-88 | on an integer quota, the counter adds one to `used` and keeps the limit |
| SubscriptionContext.IncrementPassesLimit | src/contexts/SubscriptionContext.js:82-88 | with no guard, a counter already at its limit goes past it |
| SubscriptionContext.RacingUploadsOverrun | src/contexts/SubscriptionContext.js:68-92 | two uploads racing for the last slot both pass the check and end one past the limit; the transaction of `updateUsage`, with its store calls working, refuses the second |
| SubscriptionContext.TransactionRefusesSecond | src/firebase/firebase.js:33-39 | with the store calls working, on the last slot the first transaction passes and the second is refused |
| SubscriptionContext.CheckGenerationLimit | src/contexts/SubscriptionContext.js:94-97 | the generation check allows every document |
| SubscriptionContext.IncrementUsage | src/contexts/SubscriptionContext.js:99-101 | the usage increment leaves the store unchanged |
| Accounts.ReadLimitsValue | server/functions/index.js:29-38 | decoding an encoded `limits` map gives it back, whatever else the document holds |
| Accounts.ReadLimitsMerged | src/contexts/AuthContext.js:59-76 | a deep merge that lists a whole `limits` map leaves exactly those counters readable |
| Accounts.ReadUsageValue | server/triggers/auth.js:13-24 | decoding an encoded `usage` map gives it back |
| Accounts.ReadFlatDoc | api/server.js:66-78 | decoding the flat REST fields gives the written record back |
| Docs.MergeDocIdempotent | src/contexts/AuthContext.js:59-76 | a merge write repeated with the same data changes nothing more |
| Docs.UpdateField | src/contexts/SubscriptionContext.js:86-88 | a dotted-path update fails on a missing document, else writes at the path |
| Docs.SetAtThenLookup | src/firebase/firebase.js:37-39 | after writing at a path, reading that path gives the written value |
| Docs.SetAtFrame | src/firebase/firebase.js:37-39 | writing at a path leaves every disjoint path as it was |
| Docs.Increment | src/contexts/SubscriptionContext.js:87 | `increment(n)` adds to an integer field and otherwise writes `n` |
| Docs.NaNComparesFalse | src/firebase/firebase.js:33 | with a NaN side neither `<` nor `>=` holds |
| BillingWorker.Target | api/server.js:66-78 | the written fields depend only on the update: counters 0, limits 80/50 for `'pro'` and 2/1 otherwise, 3 or 1 generations, absent references as null |
| BillingWorker.ProTargetExceedsOthers | api/server.js:74-77 | a `'pro'` update writes larger allowances than any other plan (80 > 2, 50 > 1, 3 > 1), with both starting at 0 used |
| BillingWorker.UpdateFirestore | api/server.js:57-88 | a successful write replaces the account with exactly the target; a failed one throws "Failed to update Firestore" and writes nothing |
| BillingWorker.UpdateFirestoreIdempotent | api/server.js:66-78 | writing the same data twice gives the store of writing it once |
| BillingWorker.UpdateFirestoreForgetsPrior | api/server.js:57-88 | the write leaves no trace of the account's prior content |
| BillingWorker.PaidUpdate | api/server.js:253-260 | a paid session writes pro/active with the session's subscription, customer and price |
| BillingWorker.CancelUpdate | api/server.js:281-288 | a deletion writes free/cancelled with every billing reference null |
| BillingWorker.HandleWebhook | api/server.js:225-302 | a bad signature is 400 with no write; a completed checkout upgrades the referenced account; a deletion downgrades the first listed account or writes nothing; other events are acknowledged with no write |
| BillingWorker.LastSegmentOfName | api/server.js:280 | the id is recovered from a REST document name |
| BillingWorker.DeletedDowngradesListed | api/server.js:268-289 | a listed account ends free and cancelled with every reference null, answered `{received: true}` |
| BillingWorker.VerifySession | api/server.js:169-218 | only a paid session writes, and it writes the same target as the webhook; an unpaid one is 400 "Payment not completed" with no write |
| BillingWorker.VerifyAgreesWithWebhook | api/server.js:178-205 | for a session confirmed for its own account, verify-session and the webhook produce the same store |
| BillingWorker.ConfirmationOrderIrrelevant | api/server.js:178-205 | either confirmation may come first: the second one changes nothing |
| BillingWorker.ProjectUser | api/server.js:120-128 | the projection's defaults are inactive/free/0/2/0/1, and a stored 0 is kept |
| BillingWorker.ProjectEmptyAccount | api/server.js:120-128 | an account with no fields reads as an inactive free account with the free limits |
| BillingWorker.ProjectWrittenAccount | api/server.js:66-78 | reading back what `updateFirestore` wrote reproduces its status, plan, price and counters |
| BillingWorker.UserRoute | api/server.js:91-140 | 401 without a `Bearer` header; 200 iff the header is present and the document can be fetched; the body is the projection; never writes |
| BillingWorker.CheckoutRoute | api/server.js:147-167 | a missing or empty `priceId` is 400 before any session; the session is requested for the body's user and price; 200 iff it is created |
| BillingWorker.CheckoutThenWebhookUpgradesRequester | api/server.js:147-260 | a checkout requested for a user, once paid and reported to the webhook, upgrades that same user to pro/active with the session's references and the paid limits |
| BillingWorker.RouteOf | api/server.js:18-220 | each route is taken iff the request is not a preflight, the key is configured, its fragment is in the URL and no earlier fragment is; 404 iff none is |
| BillingWorker.RouteOfIsFirstMatch | api/server.js:91-220 | past the preflight and key checks, dispatch is the first match in the ordered fragment table |
| BillingWorker.CancelSubscriptionNotFound | api/server.js:91-220 | a POST to `/cancel-subscription` matches no fragment and is answered 404 "Not found" |
| BillingWorker.FixedAnswer | api/server.js:18-220 | the preflight is 200, the missing key 500, an unknown path 404 |
| Http.BearerTokenOf | api/server.js:96-102 | a header made of the `Bearer ` prefix and a token yields that token |
| CheckoutServers.CallerUid | server/index.js:36-43 | 401 without a `Bearer` header, 500 for an unverified token, else the token's uid |
| CheckoutServers.ExpressCheckout | server/index.js:24-87 | a preflight is 200 with no work; a malformed JSON body is 400 before any route runs; no verified token means no session and no write; a 200 leaves the caller on the paid tier |
| CheckoutServers.ExpressUpgradesBeforePayment | server/index.js:63-80 | a 200 leaves the account pro/active with fresh paid limits, though no payment has been observed |
| CheckoutServers.SessionOwnerFromToken | server/index.js:41-59 | the account a session is for is chosen by the token alone, whatever the body says |
| CheckoutServers.VercelCheckout | server/api/create-checkout-session.js:17-74 | a preflight is 200 and any other non-POST method is 405, both before any work; a 200 writes only the pending state, the price and the time |
| CheckoutServers.VercelKeepsLimits | server/api/create-checkout-session.js:61-67 | the pending write leaves the quotas and every other unlisted field as they were |
| CheckoutServers.WriteAfterSession | server/index.js:62-86 | the update after the session fails with 500 and no write on a missing account or an absent price |
| SubscriptionAdmin.UpgradeFields | server/functions/index.js:22-43 | upgrade writes pro/active, the three references, limits 0/80 and 0/50, and three generations with none used |
| SubscriptionAdmin.CancelFields | server/functions/index.js:45-65 | cancel writes free/cancelled, null subscription and price, limits 0/2 and 0/1, and one generation; `customerId` is not written |
| SubscriptionAdmin.ActionFields | server/functions/index.js:21-66 | only `upgrade` and `cancel` write anything; `upgrade` needs all three references, whose absence throws |
| SubscriptionAdmin.UpdateSubscription | server/functions/index.js:5-73 | a preflight is 204 with no write; an absent, empty or multi-segment id is 500 with no write, whatever the action; an unknown action writes nothing and still answers success; a failed write is 500 with no change |
| SubscriptionAdmin.InvalidIdRefusedFirst | server/functions/index.js:17-19 | `doc(userId)` rejects an absent or empty id before the action is looked at; a plain id with an unknown action is acknowledged with no write |
| SubscriptionAdmin.UpdateSubscriptionIdempotent | server/functions/index.js:21-65 | applying either action twice equals applying it once |
| SubscriptionAdmin.CancelKeepsCustomer | server/functions/index.js:45-65 | after a cancel the account keeps its customer reference |
| SubscriptionAdmin.ActionDropsUsageQuotas | server/functions/index.js:39-42 | the written `usage` map has no quotas, so a trigger-shaped account loses its readable `usage` |
| AuthTrigger.FreeUsage | server/triggers/auth.js:13-24 | the trigger's `usage` holds the free quotas, one generation and none used |
| AuthTrigger.NewAccount | server/triggers/auth.js:9-27 | a new account is free with null Stripe ids, its quotas under `usage` and no `limits` |
| AuthTrigger.OnUserCreated | server/triggers/auth.js:4-34 | a full `set` of the new document leaves other accounts alone; a failed write is rethrown |
| AuthTrigger.OnUserCreatedForgetsPrior | server/triggers/auth.js:9 | the write replaces any existing document: the prior content leaves no trace |
| AuthTrigger.TriggerAccountRefusedUploads | server/triggers/auth.js:9-27 | the client's upload check reads `limits`, which a trigger-created account lacks, so every upload is refused |
| AuthContext.InitialUserData | src/contexts/AuthContext.js:18-35 | the initial data is free, limits 0/2 and 0/1, one generation, null Stripe ids |
| AuthContext.EnsureUserDocument | src/contexts/AuthContext.js:42-51 | no user is a no-op; only a missing document is created |
| AuthContext.EnsureUserDocumentIdempotent | src/contexts/AuthContext.js:42-51 | a second run writes nothing, even at a later time |
| AuthContext.EnsureUserDocumentKeepsExisting | src/contexts/AuthContext.js:48 | an existing document is never changed |
| AuthContext.GoogleSignIn | src/contexts/AuthContext.js:53-83 | each sign-in merges the defaults: plan free and limits back to the free ones, other accounts untouched |
| AuthContext.GoogleSignInKeepsUnlisted | src/contexts/AuthContext.js:59-76 | fields the defaults do not list, such as `plan` and `subscriptionStatus`, survive the merge |
| AuthContext.Signup | src/contexts/AuthContext.js:106-118 | sign-up writes the full initial document for the new uid |
| AuthContext.SignupThenEnsure | src/contexts/AuthContext.js:94-113 | after sign-up the auth-state handler writes nothing; with no prior document it would have written the same one |
| SubscriptionPage.ProActiveNeedsIsActive | src/components/Subscription.js:259-261 | the paid tier is shown only with a truthy `isActive`, whatever the other fields say |
| SubscriptionPage.ShownPdf | src/components/Subscription.js:480-486 | the PDF limit falls back to 80 when `isProActive` and to 2 otherwise; a stored value is shown as is |
| SubscriptionPage.ShownWebsite | src/components/Subscription.js:495-501 | the site limit falls back to 1 whatever the plan |
| SubscriptionPage.ShownKeepsStoredQuota | src/components/Subscription.js:480-501 | `??` keeps a stored 0: stored counters are shown exactly |
| SubscriptionPage.PaidWithoutFlagShownFree | src/components/Subscription.js:259-261 | a paid account without `isActive` and without stored limits is shown the free allowances |
| SubscriptionPage.PlanStringShownFree | src/components/Subscription.js:225-501 | given the context's plan string, the page never shows the paid tier and always shows 0 of 2 documents and 0 of 1 site |
| SubscriptionPage.FetchUsage | src/components/Subscription.js:317-364 | an account without `limits` gets the free limits merged (3 generations on `'pro'`); a missing one is created free; an account with `limits` is not written |
| SubscriptionPage.FetchUsageIdempotent | src/components/Subscription.js:335-340 | loading the page twice provisions at most once |
| SubscriptionPage.ProWithoutLimitsGetsFreeQuotas | src/components/Subscription.js:335-340 | a paid account that lost `limits` is provisioned with the free quotas, though with the paid allowance of generations |
| SubscriptionPage.VerifyRequest | src/components/Subscription.js:278-296 | a confirmation is requested only when both `success` and `session_id` are present and non-empty |
| SubscriptionPage.PageConfirmationMatchesWebhook | src/components/Subscription.js:283-296 | the page's confirmation upgrades the signed-in account, as the webhook does for a session opened for it |
| UseSubscription.OrElse | src/hooks/useSubscription.js:38-39 | `a || b` is `a` when truthy and `b` otherwise |
| UseSubscription.Project | src/hooks/useSubscription.js:37-52 | an absent status is `'inactive'`, an absent plan `'free'`, counters default to 0 and limits to 2 and 1 |
| UseSubscription.Fetch | src/hooks/useSubscription.js:15-62 | nothing happens without a user; a failed or non-OK answer only clears `loading`; otherwise both records are replaced |
| UseSubscription.HookRecordNeverProActive | src/hooks/useSubscription.js:37-41 | the hook's record has no `isActive`, so the subscription page's paid test is false of it |
| UseSubscription.StoredZeroLimitBecomesDefault | src/hooks/useSubscription.js:46-50 | through the `/user/` route and this hook, a stored limit of 0 is shown as 2 |
| UseSubscription.PositiveCountersSurvive | src/hooks/useSubscription.js:43-52 | through the route and the hook, positive stored counters arrive unchanged |
| PdfUpload.Sentences | src/components/PDFUpload.js:376 | splitting on runs of `.!?` gives at least one piece, and no piece holds a stop character |
| PdfUpload.SentencesKeepText | src/components/PDFUpload.js:376 | the pieces hold every other character of the text, in order |
| PdfUpload.StopFreeIsOneSentence | src/components/PDFUpload.js:376 | a text without stop characters is one sentence |
| PdfUpload.TruncateContent | src/components/PDFUpload.js:374-394 | keeps the longest run of whole leading sentences that fit, each with `". "`; otherwise the first `maxLength` characters; trimmed, so at most `maxLength + 1` long |
| PdfUpload.HandleFile | src/components/PDFUpload.js:396-408 | a missing or non-PDF file is refused first, then one over 1 000 000 bytes; only an accepted file replaces the chosen one |
| PdfUpload.HandleFileKeepsValidChoice | src/components/PDFUpload.js:396-408 | the chosen file is always a PDF within the size bound; a refused choice keeps the previous file; choosing the same file twice is choosing it once |
| PdfUpload.UploadDefaults | src/components/PDFUpload.js:435-441 | the created account has the free limits and plan |
| PdfUpload.NumberOrZero | src/components/PDFUpload.js:485 | `Number(x) || 0`: an integer is kept and anything the model reads as NaN (strings included, see Left out) gives 0 |
| PdfUpload.HandleUpload | src/components/PDFUpload.js:420-505 | no upload past a refused check; after saving, the counter is set to the re-read count plus one, with no limit test |
| PdfUpload.FirstUploadCreatesAccount | src/components/PDFUpload.js:433-491 | a user with no account gets it created and one of the two free uploads used |
| PdfUpload.InterleavedUploadsCountOnce | src/components/PDFUpload.js:480-491 | two uploads whose reads both come before either write save two documents but count one; the transaction counts two |
| PdfUpload.UrlBlankTestRedundant | src/components/PDFUpload.js:626 | the blank test adds nothing to the pattern test |
| PdfUpload.HandleUrlUpload | src/components/PDFUpload.js:613-658 | the site quota is checked before the link; an accepted link is saved and the counter raised without a limit test |
| PdfUpload.QuotaMessageBeforeLinkMessage | src/components/PDFUpload.js:619-628 | an invalid link from a user out of site uploads gets the quota message |
| TagSplit.SplitCapture | src/components/PDFView.js:159 | a capturing split alternates text pieces and captures, and no piece contains a tag |
| TagSplit.SplitTagFree | src/components/PDFView.js:159 | a text without a tag splits into itself alone |
| Text.TrimEmptyIffBlank | src/components/PDFView.js:160 | `trim()` is empty exactly for blank text, which is what the section filter drops |
| Text.JoinSplit | src/components/PDFView.js:163-165 | joining the lines of a split gives the text back |
| Text.SplitHeadRest | src/components/PDFView.js:170-172 | `[key, ...value] = line.split(':')` gives the text before the first `:` and, re-joined, all the text after it |
| Sections.Filter | src/components/PDFView.js:160 | the kept elements are exactly those that pass, each as often as in the input, and a one-element input is kept or dropped whole |
| Sections.FilterAppend | src/components/PDFView.js:160 | filtering a concatenation is the concatenation of the filtered parts, so kept elements keep their input order |
| Sections.LineEntrySpec | src/components/PDFView.js:170-173 | a line gives an entry iff it has a `:` after at least one character; key and value are the trimmed halves, the key lower-cased |
| Sections.LastEntryWins | src/components/PDFView.js:169-174 | the value of a key is the one from the last entry that assigns it |
| Sections.FieldsOfKeys | src/components/PDFView.js:169-174 | a key is present exactly when some line assigns it |
| Sections.LastLineWins | src/components/PDFView.js:171-172 | with a duplicate key, the last line wins |
| Sections.ItemOf | src/components/PDFView.js:162-176 | a twitter section becomes its trimmed text, any other a key-value map of its lines |
| Sections.ContentText | src/components/PDFView.js:157 | a falsy `content.content` reads as empty text; a truthy non-string has no text |
| Sections.Items | src/components/PDFView.js:162 | one item per kept section, in order |
| Sections.ViewFormat | src/components/PDFView.js:154-177 | missing content gives no items; otherwise one item per kept section, in input order, each a twitter post or the key-value map of the trimmed section's lines |
| Sections.CapturedWordIsBare | src/components/PDFView.js:159-160 | every captured tag word is a bare word, so the filter removes it |
| Sections.ViewSectionsAreTagFree | src/components/PDFView.js:159-160 | every kept section is text between tags, never a captured word |
| Sections.UploadSections | src/components/PDFUpload.js:572-589 | only the three types have sections; each is non-blank, has no tag in it, and a video idea has `Title:` and no introduction phrase |
| Sections.UploadFormat | src/components/PDFUpload.js:565-607 | missing content gives no items; an unknown type fails; otherwise one item per kept section, each the post or the key-value map of the trimmed section's lines |
| AiService.FirstGeneration | src/services/aiService.js:108 | `data.generations[0]` is index 0 of an array-like map, and nothing when `generations` is falsy |
| AiService.Classify | src/services/aiService.js:99-115 | a 401 is the key error, another failure status the generic error; a missing first generation fails; otherwise its `text` |
| AiService.ClassifyServiceAnswer | src/services/aiService.js:99-115 | a 2xx answer yields exactly the first generated text, an empty list fails with "No content generated", and any other status fails with another error |
| AiService.Send | src/services/aiService.js:86-115 | the request is sent, and what `fetch` throws is passed on |
| AiService.GenerateContent | src/services/aiService.js:72-120 | empty, then too long, then unknown type, all before any request; as written an inherited method name also passes, and `__proto__`, `__defineGetter__` and `__defineSetter__` throw with no request (see Findings) |
| AiService.GenerateContentCorrected | src/services/aiService.js:72-120 | corrected, a request is sent iff the content is non-empty, at most 100 000 characters, and the type is one of the three |
| AiService.CorrectedAgreesOnPromptTypes | src/services/aiService.js:74-84 | for the three types and every rejected input both versions agree |
| AiService.InheritedNameSendsRequest | src/services/aiService.js:82-86 | as written the type `"toString"` reaches the service; corrected it is rejected |
| AiService.RejectedInputIgnoresAnswer | src/services/aiService.js:74-89 | a rejected input never depends on the service's answer |
| AiService.LengthBoundary | src/services/aiService.js:78-80 | exactly 100 000 characters pass; one more is refused before the type is looked at |
| PasswordStrength.FirstLine | src/components/Auth.js:183-184 | only the text before the first line terminator is examined |
| PasswordStrength.StrongPassesMedium | src/components/Auth.js:186-188 | every strong password passes the medium test, so non-weak is exactly the medium test |
| PasswordStrength.WeakIff | src/components/Auth.js:184-188 | weak iff the first line is shorter than 6, or lacks a letter, or lacks a digit |
| PasswordStrength.TypingNeverWeakens | src/components/Auth.js:182-189 | appending to a password without line breaks never lowers its strength |
| PasswordStrength.StrongExample | src/components/Auth.js:183 | `Passw0rd!` is strong |
| PasswordStrength.MediumExample | src/components/Auth.js:184 | `abc123` is medium |
| PasswordStrength.WeakExample | src/components/Auth.js:184 | eight letters without a digit are weak |
| PasswordStrength.LineBreakExample | src/components/ResetPassword.js:129-134 | a line break hides the rest of the password |
| AuthForm.TypePassword | src/components/Auth.js:392 | typing sets the password and its strength together, and nothing else |
| AuthForm.ConsistentForms | src/components/Auth.js:199 | the initial form is consistent (the empty password is weak), and typing keeps it so |
| AuthForm.ValidateForm | src/components/Auth.js:206-223 | the e-mail is always checked, the password except on reset, the match only on sign-up; each error is the validator's message |
| AuthForm.ValidateFormErrorsIff | src/components/Auth.js:206-223 | the form has errors iff some validator that applies in its mode fails; reset errors are among login errors, which are among sign-up errors |
| AuthForm.Seconds | src/components/Auth.js:233 | the shown wait is the wait in milliseconds rounded up to whole seconds |
| AuthForm.HandleSubmit | src/components/Auth.js:225-283 | the reset limiter on reset, the login one otherwise; a limited submit reports the wait and does nothing else; otherwise the attempt is recorded before validation; sign-up refuses a mismatch, then a weak password |
| AuthForm.SignUpNeedsMediumPassword | src/components/Auth.js:255-257 | a sign-up reaches the service only with a password that passes the medium test |
| AuthForm.SubmitManyFollowsLimiter | src/components/Auth.js:230-235 | repeated sign-in submits drive the login limiter exactly as its own checks would, valid or not |
| AuthForm.SixthSignInRefused | src/components/Auth.js:230-235 | five sign-in submits within five minutes use up the allowance: the sixth is refused |
| ResetPassword.OnLoad | src/components/ResetPassword.js:114-126 | no code means the invalid-link message and no call; otherwise the e-mail, or the expired-link message |
| ResetPassword.OnLoadAgreesWithSubmit | src/components/ResetPassword.js:114-178 | the load reports an invalid link exactly when no well-filled submit requests the reset; an expired code still lets the submit try |
| ResetPassword.TypePassword | src/components/ResetPassword.js:137-141 | the password and its strength are set together |
| ResetPassword.HandleSubmit | src/components/ResetPassword.js:143-178 | the reset is requested iff the passwords match, the strength is not weak and a code exists; the first failing check, in that order, gives the message |
| ResetPassword.MediumAccepted | src/components/ResetPassword.js:153 | a medium password is accepted and a weak one is not |
| ResetPassword.MismatchReportedFirst | src/components/ResetPassword.js:148-151 | with every check failing, only the mismatch is reported |
| SettingsForm.EmailErrorMessage | src/components/Settings.js:321-338 | the four known codes get their messages; any other error shows its own message |
| SettingsForm.SubmitEmail | src/components/Settings.js:288-341 | a new address, then the current password, then re-authentication; success sends the verification and clears both fields |
| SettingsForm.EmailResubmit | src/components/Settings.js:288-341 | after a success the next submit stops at the missing address; after a failure both fields are kept, so an accepted retry sends the verification to the same address |
| SettingsForm.ValidatePassword | src/components/Settings.js:343-350 | the four flags: at least 6 characters, a digit, a lower-case and an upper-case letter |
| SettingsForm.TypeNewPassword | src/components/Settings.js:343-350 | typing sets the new password and its flags together |
| SettingsForm.PasswordErrorMessage | src/components/Settings.js:386-401 | the three known codes get their messages; any other error shows its own message |
| SettingsForm.SubmitPassword | src/components/Settings.js:352-405 | the current password, then the new one, then all four flags, then re-authentication; success clears the fields and resets the flags |
| SettingsForm.PasswordFormStaysConsistent | src/components/Settings.js:343-385 | the flags always describe the typed password |
| SettingsForm.AcceptedPasswordIsMedium | src/components/Settings.js:368-372 | a password meeting the four flags, without line breaks, is at least medium |
| SettingsForm.MediumPasswordRefusedHere | src/components/Settings.js:368-372 | `abc123` is medium by the strength classifier yet refused by this form |
| SettingsForm.DeleteAccountData | src/components/Settings.js:531-558 | owned content first, then the user document, then the auth account; a failure stops everything after it |
| SettingsForm.DeletionOrder | src/components/Settings.js:486-504 | the user document is deleted only after all content is, and the account only after both |
| SettingsForm.CancelAndTerminate | src/components/Settings.js:458-517 | a failed re-authentication or a failed cancel request deletes nothing |
| SettingsForm.TerminateAccount | src/components/Settings.js:519-565 | a pro user without confirmation is refused before any deletion; otherwise the data is deleted in order |
| SettingsForm.SubmitTerminationWith | src/components/Settings.js:696-722 | an empty password or a disabled button submits nothing; otherwise the form dispatches on the plan |
| SettingsForm.SubmitTermination | src/components/Settings.js:696-702 | with the context's plan string, a pro account takes the cancel path and is deleted only after a successful cancel; any other plan takes the plain path with no cancel request |
| SettingsForm.ProCancelsBeforeDeleting | src/components/Settings.js:458-504 | a pro account's data is touched only after confirmation, re-authentication and a successful cancel |
| SettingsForm.PaidAccountNeverTerminated | src/components/Settings.js:458-702 | the cancel request goes to a path the payment worker answers with 404, so a pro account is never deleted through this form and the cancel-failed message is shown |

## Left out

- PDF text extraction with pdf.js (src/components/PDFUpload.js:351-372): a foreign library. The extracted text is a parameter.
- src/utils/validation.js: not part of this model. The messages of its three validators are parameters of `AuthForm.ValidateForm`.
- The prompt text and request options of the generation service. A request is modelled as its type and content.
- Response parsing that can throw, such as `response.json()` on a malformed body. An answer is a value or `None`.
- Webhook signature cryptography, the payment provider's SDK, and ID-token verification. Each is an oracle: valid or not, a session map, a token-to-uid map.
- CORS headers: they carry no logic. Only the preflight branches are modelled.
- The framework's default 404 body for non-POST requests to server/index.js. The status is modelled.
- The import `{ useSubscription } from '../contexts/SubscriptionContext'` (src/components/PDFUpload.js:6, src/components/Subscription.js:3, src/components/Settings.js:21): that module exports no `useSubscription`, so the call would throw at render. All three pages are modelled as receiving the context's value, as `useSubscriptionContext()` would give them.
- UsageTransaction.UpdateUsage: models the transaction on a namespaced instance with a working `FieldValue.increment`. As written every call fails before any read (UsageTransaction.UpdateUsageAsWritten).
- Docs.ToNumber: every string counts as NaN, though `Number('3')` is 3 and two strings compare by character. Every writer in the repository stores counters as integers.
- Snapshot listeners, React effects and state scheduling, navigation and `setTimeout`.
- Concurrency beyond the two interleavings proved. A store transaction is one atomic step.
- `Promise.all` deletions in Settings.js are modelled as a set of failing documents: the whole batch fails if any member fails.
- `calculateUsagePercentage` (src/components/Subscription.js:466-468): floating-point division.
- `handleSubscribe` and `handleCancelSubscription` (src/components/Subscription.js:389-464). Both only send requests. The second calls a `/cancel-subscription` route that no server in the repository defines.
- `handleGenerate` and the other generation handlers of PDFUpload.js. Only the two stubs they call are modelled.
- The profile-picture upload and load in Settings.js: storage I/O.
- The browser's `type=email` check of the e-mail fields.
- UseSubscription.ParseInt: `parseInt` of a numeric string is not modelled. A string counter is NaN, and the route's counters arrive as integers.
- Text.ToLower: only ASCII letters are mapped. Other letters are left unchanged.
- UTF-16 code units: a string is a sequence of characters, and `length` counts characters.
- BillingWorker.UserRoute: the `/user/` id is taken as one path segment. A URL with further `/user/` fragments is not modelled.
- src/firebase/firebase.js `updateUsage` is exported but no file in the repository calls it. It is modelled as the contrast case for the two non-atomic counters.

## Findings

| source | as written | input that shows it | evidently intended | confidence | as-written member | corrected member |
|---|---|---|---|---|---|---|
| src/firebase/firebase.js:30-39 | with the store calls fixed (a namespaced `db` and a working `FieldValue.increment`), a missing quota entry is checked against a default, but only `used` is written, so later checks compare against an undefined limit and never refuse | an account whose `limits` is `{}`, and three `pdfUploads` calls | the defaulted entry, limit included, is stored, so the third call is refused | not executed | UsageTransaction.MissingEntryNeverRefused | UsageTransaction.CorrectedStopsAtDefault |
| src/services/aiService.js:82-84 | `!generatePrompts[type]` also finds names inherited from `Object.prototype`, so such a type reaches the service (lemma `AiService.InheritedNameSendsRequest`); `__proto__`, `__defineGetter__` and `__defineSetter__` throw instead | type `"toString"` with non-empty content | only the three content types pass | not executed | AiService.GenerateContent | AiService.GenerateContentCorrected |

## Notes on the code

- `/verify-session` (api/server.js:169-218) checks no token. It upgrades the account named in the request body.
- The `/user/` route (api/server.js:91-140) requires the `Bearer` prefix but does not verify the token.
- server/index.js writes the paid tier as soon as a checkout session exists, before any payment.
- An account created by the sign-up trigger keeps its quotas under `usage`. The client's check reads `limits`, so every upload is refused until another writer adds `limits`.
- Through `/user/` and the hook, a stored limit of 0 is shown as the free allowance.
- No server in the repository routes `/cancel-subscription`. The payment worker answers it with 404, so the settings form never terminates a pro account: it stops at the cancel-failed message (lemma `SettingsForm.PaidAccountNeverTerminated`).
- Given the context's plan string, the subscription page never shows the paid tier (lemma `SubscriptionPage.PlanStringShownFree`).
