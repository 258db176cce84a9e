# Verified model of canary-go's pricing, identity, inventory, polling, billing, evidence and anchoring logic

This project models the stateful core of the Canary retail platform in Dafny 4.11 and proves what its
code keeps over all inputs and all runs. `dafny verify dfyconfig.toml` checks everything.

- **Pricing** (`Int64`, `Text`, `Money`, `Promotions`, `Resolver`, `CartAccounting`, `PricingPromises`,
  `Overflow`): decimal text to int64 cents, micros and ppm and back; promotion selection; the resolve loop;
  tax. int64 arithmetic wraps explicitly, products saturate as the code does, and text is parsed character by
  character.
- **Identity** (`Valkey`, `Lockout`, `LimiterKeys`, `RateLimiter`, `Throttling`, `LoginLimiter`,
  `ApiKeys`, `LastUsed`): the limiters run against a key-value server with expiries and one clock. One
  lockout bucket is analysed as a history of attempts; the middleware over string keys is then shown to
  refine it for every (prefix, address) pair.
- **Inventory** (`Inventory`, `SaleConsumer`): the movement ledger, its cached positions, and the
  consumer that can be interrupted between appending a movement and linking it, beside other writers.
- **Poller**: the cursor protocol against a server with a fixed document set in ascending date order.
- **SQL builders** (`SqlBuilders`): clauses as data, with an interpreter.
- **Billing and Evidence**: row-locked budget consumption in every interleaving, and the per-case hash chain.
- **Merkle**: the tree over an anchored batch, its inclusion proofs, and what a root commits to.

Operations that change state are methods proved equal to a specification function of the old state;
the theorems are about runs of those functions. Clocks, random values, store contents, faults and the
outcome of cryptography are parameters.

Where the code and its comments differ the model follows the code:

- `RecordFailure` is described as a fixed window, but it re-arms EXPIRE on every hit
  (internal/identity/ratelimit.go:146-155); `Lockout.LockoutIffChain` states the sliding rule and
  `Lockout.SpacedFailuresLock` shows the difference.
- The discount sum of a line is an int64 that can wrap, so a unit price above the base price is
  possible (`Overflow.ResolvedPriceAboveBase`); `CartAccounting.UnitPriceRange` says exactly when.
- `formatCents` calls itself on its negated argument, which never ends for -2^63; a cart or line that
  reaches that amount fails in the model as `StackOverflow`. `Overflow.AnyLineOverflowIff` and
  `Overflow.CartOverflowIff` say exactly when, and two carts of `Overflow` get there.
- Soft budgets are described as always permitting the increment; it fails when the column overflows (`Billing.GrantIff`).
- A sale of a negative quantity becomes text with two minus signs and is never accepted, and neither is a
  line that would take the stock out of its column (`SaleConsumer.RequestDelta`). A tick does nothing exactly
  when its whole batch is like that (`SaleConsumer.TickStallsIff`), and a full such batch blocks the consumer
  for good (`SaleConsumer.BlockedForGood`); `SaleConsumer.BlockedIsReachable` is a run that gets there.
- More than 500 documents within one second stop the poll cursor for good: `Poller.NeverPublishedIff` says
  exactly which documents are never published, and `Poller.DocumentsOfOneSecondStarve` is a server with one.
- The client library sends EXPIRE in whole seconds, so the failure window is its configured length rounded
  down to a second, and at least one (`Lockout.Window`).
- fox's chain is said to follow collected_at order. `Evidence.ChainSurvivesIff` says exactly when it does after
  an append: back-dated or simultaneous evidence breaks it unless the payloads around it have one hash, so among
  distinct payloads always (`Evidence.DistinctChainSurvivesIff`), but not among equal ones, such as two empty
  payloads (`Evidence.EqualPayloadsHideBackDating`).
- `VerifyProof` is described as verifying membership of a leaf, but it is told no leaf count: a proof of n steps
  passes for the nodes n levels below the root (`Merkle.ProvenIffNode`), inner ones too (`Merkle.InnerNodePasses`).

## Model

| member | source | states |
|---|---|---|
| `Money.ParseIsHalfUp` | internal/pricing/money.go:34-109 | a parser returns v exactly when v is the HALF-UP rounding of the number the text means and fits an int64; no parsed amount is negative |
| `Money.DecimalIsRead` | internal/pricing/money.go:48-51 | a decimal text of optional plus, digits with a point and exponent is read as its digits scaled by the exponent less the decimal places |
| `Money.OnlyDecimalsAreRead` | internal/pricing/money.go:48-51 | no other text is read |
| `Money.ScaledRatMeans` | internal/pricing/money.go:48-51 | the scaled fraction is exactly the digits times the power of ten |
| `Money.ParseAnswers` | internal/pricing/money.go:38-62 | which texts, between any spaces, are empty, negative, malformed or out of range |
| `Money.PrintedPlaces` | internal/pricing/money.go:111-150 | cents are printed with two decimal places and rates with six, without a superfluous leading zero |
| `Money.PrintedMicros` | internal/pricing/money.go:122-139 | quantities are printed whole or with at most six places that do not end in zero |
| `Money.CentsRoundTrip` | internal/pricing/money.go:111-120 | parsing a printed cents amount gives it back exactly when it is non-negative; a negative one is rejected |
| `Money.MicrosRoundTrip` | internal/pricing/money.go:122-139 | the same for quantities, whose trailing zeros and point are trimmed |
| `Money.RateRoundTrip` | internal/pricing/money.go:141-150 | the same for six-decimal rates |
| `Money.MultiplyIsNearest` | internal/pricing/money.go:152-183 | a product of any sign is within half a unit of exact, ties upward, exactly when it is below saturation and no negative sum was truncated upward |
| `Promotions.Benefit` | internal/pricing/promotions.go:104-155 | a benefit is never negative, and all but percent_off never exceed the base price; what each makes of the price is `PricingPromises.BenefitReprices` |
| `Promotions.PickBestPromotions` | internal/pricing/promotions.go:174-195 | the loop returns all stackables in order, then the first largest non-stackable |
| `Promotions.BestIsFirst` | internal/pricing/promotions.go:183-190 | the non-stackable pick is the first of the largest |
| `Promotions.StackablesConcat` | internal/pricing/promotions.go:179-187 | the stackable picks of a list are those of its parts, in order |
| `Promotions.PickedIsAdmissible` | internal/pricing/promotions.go:158-195 | the picked promotions are among the candidates, with at most one non-stackable |
| `Promotions.PickedIsOptimal` | internal/pricing/promotions.go:158-195 | no admissible selection has a larger total discount |
| `Promotions.MoreCandidatesMoreDiscount` | internal/pricing/promotions.go:174-195 | more candidates never lower the total discount |
| `Promotions.OrderDoesNotMatter` | internal/pricing/promotions.go:174-195 | the total discount depends on the candidates, not on their order |
| `Resolver.ComputeTax` | internal/pricing/tax.go:38-87 | at most one tax line, the saturating product of subtotal and parsed rate |
| `Resolver.GatherCandidates` | internal/pricing/resolver.go:178-198 | the loop collects exactly the applicable promotions in order, or the first evaluation error |
| `Resolver.CandidatesFail` | internal/pricing/resolver.go:180-189 | an evaluation error is final whatever promotions follow |
| `Resolver.RenderApplied` | internal/pricing/resolver.go:202-214 | the loop prints each picked discount and sums them as an int64 |
| `Resolver.RenderTaxes` | internal/pricing/resolver.go:226-237 | the loop prints each tax and sums them as an int64 |
| `Resolver.AssembleLine` | internal/pricing/resolver.go:166-251 | selection, clamped unit price, subtotal, tax and printed line of one cart line |
| `Resolver.ResolveLine` | internal/pricing/resolver.go:113-162 | the error order of a line's inputs and the price fallback, then its assembly |
| `Resolver.Resolve` | internal/pricing/resolver.go:38-109 | the cart loop: every line in order, the first error, and the total of the re-parsed line totals |
| `PricingPromises.PricesComeFromTheStore` | internal/pricing/resolver.go:92-160 | in every resolved cart each line is for the requested item and positive quantity, at the price row when there is one and at the catalog default only when there is none |
| `PricingPromises.TaxesComeFromTheStore` | internal/pricing/tax.go:38-87 | in every resolved cart a line is untaxed exactly for a missing or unknown class or a missing or other than percentage rate; any other has one tax line with its class, jurisdiction and rate |
| `PricingPromises.LineErrorsIff` | internal/pricing/resolver.go:122-153 | exactly when a line is rejected for its item, a zero quantity or a missing price |
| `PricingPromises.FirstErrorIsReported` | internal/pricing/resolver.go:92-96 | the first line that does not resolve decides the cart's error |
| `PricingPromises.PricingFromStore` | internal/pricing/resolver.go:58-84 | promotions and their rules are the store's, the channel the request's or brick |
| `PricingPromises.AppliesIff` | internal/pricing/promotions.go:40-108 | a promotion applies exactly by channel, segment, scope, every minimum quantity, and a benefit in its first rule |
| `PricingPromises.BenefitReprices` | internal/pricing/promotions.go:104-155 | fixed price f makes the unit price min(base, f), an amount takes off min(base, a), a percentage the nearest cent of its share |
| `PricingPromises.OnePromotionReprices` | internal/pricing/resolver.go:178-250 | in every resolved cart of a store with one promotion exactly the lines it applies to show it and are repriced by its first rule |
| `PricingPromises.CandidatesAreApplicable` | internal/pricing/resolver.go:178-198 | with several promotions the candidates are exactly those that apply, in order, each with its benefit |
| `PricingPromises.ShownIsBest` | internal/pricing/resolver.go:200-219 | the promotions a line shows are an admissible selection and none takes more off |
| `CartAccounting.UnitPriceRange` | internal/pricing/resolver.go:202-218 | the unit price lies in [0, base], and is base less the clamped discount, exactly under the stated wrap conditions |
| `CartAccounting.UnitPriceFromCandidates` | internal/pricing/resolver.go:200-218 | the unit price is independent of candidate order; another candidate keeps it in [0, base] and does not raise it exactly when the wrapped discount sums allow, which they do while the larger sum is an int64 |
| `CartAccounting.DiscountsCanRaiseThePrice` | internal/pricing/resolver.go:213-218 | two stackable candidates of the largest percentage, whose int64 sum wraps, raise the unit price above the base |
| `CartAccounting.LineFacts` | internal/pricing/resolver.go:200-250 | a line's printed discounts, prices, subtotal, tax and total can be read back and add up |
| `CartAccounting.CartConservation` | internal/pricing/resolver.go:92-108 | each printed line adds up, and the printed cart total is the sum of the printed line totals exactly when that sum is an int64 |
| `CartAccounting.LineRounding` | internal/pricing/resolver.go:218-239 | a line total is within 1 + rate/2 cents of unit price times quantity times (1 + rate) |
| `CartAccounting.CartWithinRounding` | internal/pricing/resolver.go:92-107 | the cart total is within the sum of those bounds of the exact cart |
| `CartAccounting.CandidatesGrow` | internal/pricing/promotions.go:85-102 | a larger quantity keeps every candidate with the same discount |
| `CartAccounting.BuyingMoreNeverRaisesThePrice` | internal/pricing/resolver.go:166-219 | for the same item the larger quantity's printed unit price is no higher, and lies in [0, base], exactly when the printed discounts of both lines meet a stated condition, which holds while the larger line's sum is an int64 |
| `Overflow.UnitOverflowIff` | internal/pricing/resolver.go:216-219 | the unit price is -2^63 exactly when the discounts wrapped to base - 2^63 |
| `Overflow.LineOverflowIff` | internal/pricing/resolver.go:218-250 | a line whose unit price is not negative is printed exactly when its subtotal and tax do not add up to 2^63 |
| `Overflow.AnyLineOverflowIff` | internal/pricing/resolver.go:213-250 | any line is printed exactly when its discounts did not wrap to base - 2^63, neither product reaches -2^63, and subtotal and tax do not add up to 2^63 modulo 2^64 |
| `Overflow.CartOverflowIff` | internal/pricing/resolver.go:92-108 | a cart whose lines resolve is printed exactly when its line totals do not add up to 2^63 modulo 2^64 |
| `Overflow.TaxedCartOverflows` | internal/pricing/money.go:162-183 | two units at the largest price, taxed at 100%, saturate twice and reach 2^63 |
| `Overflow.UntaxedCartOverflows` | internal/pricing/money.go:162-167 | two such lines without tax reach it together |
| `Overflow.ResolvedPriceAboveBase` | internal/pricing/resolver.go:202-250 | a request that resolves with two promotions prints a unit price two cents above the base price |
| `LimiterKeys.PairKeysInjective` | internal/identity/ratelimit.go:478-484 | no two (prefix, address) pairs share a limiter key, although both parts may contain the separator |
| `LimiterKeys.ThrottleKeysInjective` | internal/identity/ratelimit.go:478-488 | per-key minute counters collide neither with each other nor with lockout keys |
| `LimiterKeys.LoginKeysInjective` | internal/identity/ratelimit.go:450-476 | the four login key families are disjoint and injective |
| `Lockout.RecordFailure` | internal/identity/ratelimit.go:144-170 | INCR, EXPIRE and SETNX leave the specified server state; true exactly when a new lockout starts |
| `Lockout.FailureRecordedView` | internal/identity/ratelimit.go:144-170 | a recorded failure changes its own bucket only |
| `Lockout.LockoutIffChain` | internal/identity/ratelimit.go:146-166 | a lockout starts exactly when the chain of counted failures, each within a window of the previous, reaches the threshold |
| `Lockout.WindowIsConfigured` | internal/identity/ratelimit.go:155 | the window is the configured one for whole seconds, and less than a second shorter otherwise |
| `Lockout.FailureIsForgottenIff` | internal/identity/ratelimit.go:155 | a failure is forgotten exactly when more than the configured window has passed |
| `Lockout.SparseFailuresNeverLock` | internal/identity/ratelimit.go:146-166 | failures further apart than the configured window never start a lockout for a threshold of two or more |
| `Lockout.FailuresInsideWindowLock` | internal/identity/ratelimit.go:140-171 | threshold counted failures inside one window without a success lock the bucket for the whole lockout |
| `Lockout.SpacedFailuresLock` | internal/identity/ratelimit.go:146-155 | failures spaced up to a window apart lock at the threshold, however long they take together |
| `Lockout.SpacedByWindowLock` | internal/identity/ratelimit.go:146-166 | failures spaced up to the configured window lock exactly at the threshold |
| `Lockout.StartedLock` | internal/identity/ratelimit.go:160-170 | a lockout's deadline is its start plus the lockout time |
| `Lockout.LockoutKeepsItsDeadline` | internal/identity/ratelimit.go:164-166 | until its deadline a lockout is neither extended nor lifted and counts nothing |
| `Lockout.CounterGoneAfterLockout` | internal/identity/ratelimit.go:61-65 | the counter is gone when the lockout ends exactly when the window is no longer than the lockout |
| `Lockout.LockoutsAreFarApart` | internal/identity/ratelimit.go:140-171 | two lockout starts are always more than a lockout apart in time, and a threshold of counted failures apart when the window is no longer than the lockout |
| `Lockout.ShortLockoutsRestartAtOnce` | internal/identity/ratelimit.go:140-171 | with a window longer than the lockout a single further failure starts the next one |
| `RateLimiter.WithDefaults` | internal/identity/ratelimit.go:85-104 | each zero field takes its default and every other field is kept |
| `RateLimiter.RateLimiter.IsLockedOut` | internal/identity/ratelimit.go:116-133 | locked while PTTL is not negative; untracked inputs are never locked |
| `RateLimiter.RateLimiter.RecordFailure` | internal/identity/ratelimit.go:140-171 | the new server state of a tracked pair and whether a lockout started |
| `RateLimiter.RateLimiter.ClearFailures` | internal/identity/ratelimit.go:177-185 | removes the pair's two keys and nothing else |
| `RateLimiter.RateLimiter.AllowSuccess` | internal/identity/ratelimit.go:202-234 | the counter of the key's minute and the resulting throttle status |
| `RateLimiter.Handle` | internal/identity/apikey.go:123-196 | the order of lockout check, authentication, recording, clearing and throttling, with the verdict of each branch, without a limiter and whichever of its calls fail |
| `RateLimiter.LimiterOnlyRefuses` | internal/identity/apikey.go:141-187 | whichever calls fail, the limiter changes a verdict only to locked out or over rate and only by the call that finds it; with all of them failing it changes nothing |
| `RateLimiter.UntrackedIsIgnored` | internal/identity/ratelimit.go:116-146 | without a prefix or an address nothing is recorded and no request is locked out |
| `RateLimiter.StatusIsLocked` | internal/identity/ratelimit.go:125-132 | the PTTL test means the lock is alive, and RetryAfter runs to its deadline |
| `RateLimiter.PairRefinesHistory` | internal/identity/apikey.go:135-179 | in every run the server holds for each pair the bucket of that pair's own history |
| `RateLimiter.LockedOutIff` | internal/identity/apikey.go:141-150 | a request is refused unverified exactly while its pair's history is locked |
| `RateLimiter.LockoutIsEnforced` | internal/identity/apikey.go:135-179 | from a lockout's start to its deadline every request of the pair gets exactly the time left |
| `Throttling.CounterCountsCalls` | internal/identity/ratelimit.go:195-213 | in every run a bucket's counter is the number of its calls: the 70 s expiry never resets it inside its minute |
| `Throttling.OverRateIff` | internal/identity/ratelimit.go:217-233 | a request is over rate exactly when its bucket already has rpm calls; RetryAfter ends at the next bucket |
| `Throttling.ThrottleReports` | internal/identity/ratelimit.go:195-234 | the limit, remaining calls and retry time that AllowSuccess reports |
| `Throttling.UncappedIsServed` | internal/identity/ratelimit.go:195-205 | a key without a positive cap is never over rate |
| `Throttling.FirstCallsAllowed` | internal/identity/ratelimit.go:195-225 | in every run with a constant cap, the served requests of a (key, minute) bucket number its calls or the cap, whichever is less |
| `Throttling.SixtySecondsAdmitTwiceTheCap` | internal/identity/ratelimit.go:199-225 | in every run with a constant cap, any sixty seconds serve at most twice the cap |
| `LoginLimiter.LoginRateLimiter.Check` | internal/identity/ratelimit.go:329-366 | locked exactly when either lock has time left; RetryAfter is the longer of the two |
| `LoginLimiter.LoginRateLimiter.RecordFailure` | internal/identity/ratelimit.go:376-414 | the new state of both buckets and which of them locked |
| `LoginLimiter.LoginRateLimiter.Clear` | internal/identity/ratelimit.go:416-431 | removes the account's keys only |
| `LoginLimiter.BucketsAreIndependent` | internal/identity/ratelimit.go:236-252 | in every run each account and address bucket is made by its own operations alone |
| `LoginLimiter.NamesIff` | internal/identity/ratelimit.go:446-448 | an email names an account exactly when, without the spaces around it, it lower-cases to it |
| `LoginLimiter.FailureLocksIff` | internal/identity/ratelimit.go:376-414 | a login failure locks its bucket exactly when the failures within a configured window of each other reach the threshold and no lock is alive |
| `LoginLimiter.AddressesIgnoreClears` | internal/identity/ratelimit.go:416-421 | deleting every Clear from a run changes no address bucket |
| `LoginLimiter.OnlyOwnOperationsMatter` | internal/identity/ratelimit.go:236-252 | runs that agree on an account's normalized operations, or on an address's failures, agree on its state |
| `ApiKeys.ApiKeyStore.Scan` | internal/identity/apikey.go:286-327 | the scan returns the first usable row of its stage that verifies |
| `ApiKeys.ApiKeyStore.Authenticate` | internal/identity/apikey.go:263-328 | prefix stage first, NULL-prefix stage second |
| `ApiKeys.ApiKeyStore.Create` | internal/identity/apikey.go:435-466 | the inserted row, its stored prefix and default rate |
| `ApiKeys.ApiKeyStore.Revoke` | internal/identity/apikey.go:518-543 | tenant check, then exactly the active row with the id is revoked |
| `ApiKeys.AuthenticationIsFullScan` | internal/identity/apikey.go:249-262 | the two stages accept exactly what a scan of all active unexpired rows would |
| `ApiKeys.PrefixRowsAnswerFirst` | internal/identity/apikey.go:268-284 | the first row with the key's prefix that verifies answers, before any row without one |
| `ApiKeys.WrongPrefixHidesTheKey` | internal/identity/apikey.go:268-284 | a row is found exactly when its prefix is NULL or its own |
| `ApiKeys.RunKeepsIndex` | internal/identity/apikey.go:435-466 | creation and revocation keep the prefix index right in every run |
| `ApiKeys.CreatedKeyAuthenticates` | internal/identity/apikey.go:431-466 | after any later creations, and revocations of other ids or under other tenants, a created key authenticates until it expires; when its plaintext is fresh, exactly until then and with its own claims |
| `ApiKeys.RevokedKeyNeverAuthenticates` | internal/identity/apikey.go:518-543 | after a revocation no later run authenticates the key's id |
| `ApiKeys.OtherTenantRevokesNothing` | internal/identity/apikey.go:518-534 | a revocation under a tenant that no row with the id has finds nothing and changes nothing |
| `ApiKeys.RevokedFields` | internal/identity/apikey.go:535-543 | an effective revocation changes exactly the status of the active row with the id |
| `LastUsed.LastUsedRecorder.TouchKey` | internal/identity/lastused.go:148-155 | the touch replaces the pending time; the nil id is ignored |
| `LastUsed.LastUsedRecorder.StartFlusher` | internal/identity/lastused.go:95-116 | starts at most once and never after Close |
| `LastUsed.LastUsedRecorder.TakeSnapshot` | internal/identity/lastused.go:124-139 | swaps the pending map for a snapshot, or exits or waits when it is empty |
| `LastUsed.LastUsedRecorder.WriteSnapshot` | internal/identity/lastused.go:191-212 | writes existing rows from the snapshot, or drops it on failure |
| `LastUsed.LatestTouchIsSomewhere` | internal/identity/lastused.go:167-212 | without failed writes a key's latest touch is pending, else in the snapshot, else stored, in every interleaving |
| `LastUsed.StoredNeverGoesBack` | internal/identity/lastused.go:202-211 | a stored last_used_at never decreases, whatever writes fail |
| `LastUsed.StoppedWritesNothing` | internal/identity/lastused.go:124-139 | once the flusher has exited nothing is written again, although touches and Close are accepted |
| `LastUsed.WakeUpsAreStored` | internal/identity/lastused.go:119-212 | the first write after a wake-up, if it succeeds, stores exactly what was pending then; the flusher waits on after a timer and exits otherwise |
| `LastUsed.OnlyWritesStore` | internal/identity/lastused.go:202-212 | only a successful write changes stored times, and only for its snapshot |
| `LastUsed.FailedWriteDrops` | internal/identity/lastused.go:157-165 | a failed write drops its snapshot and the flusher goes on as after a successful one |
| `LastUsed.FlusherLifecycle` | internal/identity/lastused.go:95-141 | when the flusher starts, and when waking without touches ends it |
| `LastUsed.CloseDrains` | internal/identity/lastused.go:214-238 | in every run, an exited flusher stored every touch of an existing row made before its last wake-up, unless that snapshot's write failed |
| `Inventory.NumericRoundTrip` | internal/inventory/consumer.go:116-118 | a numeric(14,4) column value survives its text form |
| `Inventory.MinusNegates` | internal/inventory/consumer.go:150-155 | prefixing a minus sign negates a non-negative quantity and is an error before a negative one |
| `Inventory.IsZeroOrNegative` | internal/inventory/consumer.go:217-236 | the textual scan's result |
| `Inventory.ZeroOrNegativeText` | internal/inventory/consumer.go:217-236 | on every column value the textual test is the numeric one |
| `Inventory.Store.AppendMovement` | internal/inventory/store.go:139-213 | movement and position change together or not at all; what is returned |
| `Inventory.Store.Flag` | internal/asset/store.go:203-230 | a movement is added and no position changes |
| `Inventory.AppendBalances` | internal/inventory/store.go:179-203 | on-hand and log of every place move by the same delta, and a given cost replaces the old |
| `Inventory.LedgerBalances` | internal/inventory/store.go:131-213 | in every run on-hand plus flag deltas is the movement sum, and cost basis is the latest one appended |
| `SaleConsumer.Consumer.FetchUnlinked` | internal/inventory/consumer.go:112-146 | fetches a line exactly when it is not void, has an item and no movement, and fewer than 100 such lines precede it |
| `SaleConsumer.Consumer.LinkMovement` | internal/inventory/consumer.go:181-193 | one line's movement is set |
| `SaleConsumer.Consumer.ProcessLine` | internal/inventory/consumer.go:148-179 | append, link and replenishment signal of one line, for each place it can stop |
| `SaleConsumer.Consumer.Tick` | internal/inventory/consumer.go:84-99 | every fetched line is processed in order whatever happens to the others |
| `SaleConsumer.FetchedIff` | internal/inventory/consumer.go:114-126 | the same condition for the batch of any tick |
| `SaleConsumer.IneligibleLinesKeepTheirMovement` | internal/inventory/consumer.go:119-123 | in every run a line that is void, has no item or is linked keeps its movement through every step |
| `SaleConsumer.TickHandlesItsBatch` | internal/inventory/consumer.go:85-179 | each line of the batch in turn: what is appended with which type, quantity and cost, when it is linked, and exactly when a replenishment signal follows |
| `SaleConsumer.RequestDelta` | internal/inventory/consumer.go:148-164 | exactly the returns and non-negative sales that keep the stock within its column are appended, each with its type, signed quantity and cost at its place |
| `SaleConsumer.NextKeepsLinks` | internal/inventory/consumer.go:84-193 | every step, of the consumer or of another writer, keeps links right and unique |
| `SaleConsumer.NextAccounts` | internal/inventory/consumer.go:148-193 | a step leaves movements and stock unexplained by links and orphans exactly as far as another writer moved them |
| `SaleConsumer.ConsumerAccounts` | internal/inventory/consumer.go:84-193 | from any ledger and beside any other writers: the consumer's movements less newly linked lines are the interrupted links; with none, the stock change less what others moved is newly linked returns less sales |
| `SaleConsumer.TickStallsIff` | internal/inventory/consumer.go:85-99 | a tick changes nothing exactly when every line of its batch is rejected or fails to commit |
| `SaleConsumer.BlockedStaysBlocked` | internal/inventory/consumer.go:114-126 | a full batch of rejected lines stays so over new lines, ticks, flags and appends that cannot make room for it |
| `SaleConsumer.BlockedForGood` | internal/inventory/consumer.go:114-126 | over any run of such steps the consumer appends and links nothing |
| `SaleConsumer.BlockedIsReachable` | internal/inventory/consumer.go:148-155 | a hundred sales of a negative quantity reach that state from nothing |
| `Poller.LimitDocs` | internal/poller/poller.go:311-316 | the first 500 documents, or all of them when there are no more |
| `Poller.Poller.PollMerchant` | internal/poller/poller.go:136-183 | what is published and stored for each point of failure, and which failures the poll reports |
| `Poller.WrappableInOrder` | internal/poller/poller.go:155-170 | published are exactly the parseable documents of the batch, in the server's order |
| `Poller.PollPublishes` | internal/poller/poller.go:136-183 | how many of them for each failure, and the cursor a poll leaves |
| `Poller.BatchCovers` | internal/poller/poller.go:215-260 | despite the cap a batch holds every server document from since up to its latest date |
| `Poller.NothingSkippedBeforeCursor` | internal/poller/poller.go:136-183 | in every run each parseable document dated before the cursor has been published |
| `Poller.CursorNeverMovesBack` | internal/poller/poller.go:264-285 | without an expiry the truncated cursor never decreases |
| `Poller.OnlyServerDocuments` | internal/poller/poller.go:156-167 | only parseable server documents are published |
| `Poller.ProgressIff` | internal/poller/poller.go:155-174 | a faultless poll keeps the cursor exactly when its batch has nothing past the cursor's second |
| `Poller.FullBatchCanStarve` | internal/poller/poller.go:280-316 | from a stalled state no number of polls publishes anything outside the batch |
| `Poller.NeverPublishedIff` | internal/poller/poller.go:136-183 | in every run a parseable server document stays unpublished for good exactly when some batch has nothing past its cursor's second and the document is dated at or after that second but not in the batch; any other appears after enough faultless polls |
| `Poller.NothingHiddenWithoutFullStalls` | internal/poller/poller.go:155-174 | no document is hidden when no cursor with more than 500 documents after it stalls |
| `Poller.SomethingHiddenIff` | internal/poller/poller.go:155-174 | of distinct documents some are hidden exactly when a cursor with more than 500 documents after it stalls |
| `Poller.DocumentsOfOneSecondStarve` | internal/poller/poller.go:280-316 | of 501 documents within one second the last is published in no run |
| `SqlBuilders.UpdateBuilder.AddPresent` | internal/item/store.go:342-397 | a present field adds one clause bound to its own argument |
| `SqlBuilders.BuildUpdate` | internal/item/store.go:336-407 | the whole statement of a patch, or none |
| `SqlBuilders.PatchColumns` | internal/item/store.go:353-397 | no column is assigned twice |
| `SqlBuilders.UpdateIsPatch` | internal/item/store.go:334-407 | executing the statement is the patch field by field, leaves other columns alone but updated_at, and fails exactly on malformed numeric text |
| `SqlBuilders.UpdatePatchesItsRow` | internal/item/store.go:400-411 | on any table the statement patches the row of its tenant and id, leaves every other row alone, and fails exactly when that row meets a malformed numeric |
| `SqlBuilders.WhereBuilder.Add` | internal/item/store.go:456-475 | a condition is bound to its own argument |
| `SqlBuilders.JoinAnd` | internal/fox/store.go:576-587 | the loop builds the conjunction |
| `SqlBuilders.JoinedHolds` | internal/fox/store.go:576-587 | the conjunction holds exactly when all parts do; none means TRUE |
| `SqlBuilders.BuildList` | internal/item/store.go:451-486 | the statement of a filter, with the default limit |
| `SqlBuilders.BuildListCases` | internal/fox/store.go:520-552 | the statement of a case filter |
| `SqlBuilders.StatementMeaning` | internal/item/store.go:477-486 | a statement selects by its tests, and LIMIT and OFFSET find their own arguments |
| `SqlBuilders.PageRows` | internal/item/store.go:477-486 | a page starts offset rows in, keeps the order and stops at limit rows or the end |
| `SqlBuilders.ListIsPageOfFilter` | internal/item/store.go:451-486 | List returns the requested page of the rows passing the direct filter, for every combination |
| `SqlBuilders.ListCasesIsPageOfFilter` | internal/fox/store.go:520-552 | the same for ListCases |
| `Billing.Store.CreateBudget` | internal/billing/store.go:37-68 | validation errors and the inserted row |
| `Billing.Store.Consume` | internal/billing/store.go:145-209 | the outcome in each branch and the only row that changes |
| `Billing.GrantIff` | internal/billing/store.go:189-198 | a request is granted exactly within the hard limit, or within int64 for a soft one; when the wrapped guard fires |
| `Billing.GuardAloneIsNotEnough` | internal/billing/store.go:189-192 | a request near 2^63 passes the Go guard and only the column range rejects it |
| `Billing.BudgetsNeverOverrun` | internal/billing/store.go:140-209 | in every interleaving consumed is the sum of committed grants and a hard limit is never exceeded |
| `Billing.CommitsAreSerial` | internal/billing/store.go:156-207 | each commit is one Consume of the row as it then is |
| `Billing.LockedIff` | internal/billing/store.go:150-207 | in every interleaving a row is locked exactly while a transaction runs on it |
| `Billing.OnlyCommitsAreVisible` | internal/billing/store.go:150-207 | no other step of a transaction changes a row |
| `Evidence.Store.PrevHash` | internal/fox/store.go:323-334 | the hash of a newest row of the case, or NULL without rows |
| `Evidence.Store.FoxAppend` | internal/fox/store.go:295-373 | evidence and its action row are added together, linked to the newest evidence |
| `Evidence.Store.CaseAppend` | internal/casemgmt/store.go:179-236 | evidence is added, linked to the newest, stamped by the database; the type is required |
| `Evidence.EveryListingIsComplete` | internal/fox/store.go:456-465 | after every serialized, time-ordered run each case's listing is a complete chain |
| `Evidence.OtherCasesUnchanged` | internal/casemgmt/store.go:313-320 | an append leaves every other case's listings as they were |
| `Evidence.ChainSurvivesIff` | internal/fox/store.go:286-294 | after an append to a complete chain every listing stays complete exactly when, wherever the new row fits before the end, its neighbour, the chain's end and the row itself have one payload hash |
| `Evidence.DistinctChainSurvivesIff` | internal/fox/store.go:286-294 | among distinct payloads, exactly when the new evidence is later than all of its case |
| `Evidence.EqualPayloadsHideBackDating` | internal/fox/store.go:303-334 | with equal payloads a back-dated row leaves every listing complete |
| `Merkle.BuildMerkleTree` | internal/protocol/sub3/merkle.go:56-152 | the loop over levels returns the root and every leaf's proof, or fails exactly without leaves or with a node that is not hex |
| `Merkle.VerifyProof` | internal/protocol/sub3/merkle.go:154-175 | the loop over a proof's steps accepts exactly when they lead from the leaf to the root |
| `Merkle.BuiltIff` | internal/protocol/sub3/merkle.go:50-59 | a tree is built exactly from one leaf of any text or from several that are all hex |
| `Merkle.ProofsVerify` | internal/protocol/sub3/merkle.go:104-133 | every returned proof has the depth of the tree and passes verification for its leaf |
| `Merkle.OddLevelRepeatsLast` | internal/protocol/sub3/merkle.go:89-98 | an odd list and the list with its last leaf repeated have the same root |
| `Merkle.SameRootIff` | internal/protocol/sub3/merkle.go:83-151 | without a hash collision two lists of digests share a root exactly when the shallower, with repeated last nodes, is the level of that depth in the other's tree |
| `Merkle.OnlyLeavesVerify` | internal/protocol/sub3/merkle.go:154-175 | without a hash collision only a leaf has a passing proof of the tree's depth |
| `Merkle.OnlyNodesVerify` | internal/protocol/sub3/merkle.go:154-175 | without a hash collision a shorter proof passes only for a node of the level where it ends |
| `Merkle.ProvenIffNode` | internal/protocol/sub3/merkle.go:56-175 | a digest has a collision-free passing proof of n steps exactly when it is a node n levels below the root |
| `Merkle.ProvenIffLeaf` | internal/protocol/sub3/merkle.go:56-175 | a digest has a collision-free passing proof of the tree's depth exactly when it is a leaf |
| `Merkle.LongProofsEnterAtLeaves` | internal/protocol/sub3/merkle.go:154-175 | a proof longer than the tree is deep passes only by first hashing its text into a leaf |
| `Merkle.InnerNodePasses` | internal/protocol/sub3/merkle.go:154-175 | the root of two leaves passes with the empty proof and is no leaf |

## Left out

- ParseRat: the decimal texts of big.Rat.SetString with sign, point and e-exponent; base prefixes, digit underscores, p-exponents and "a/b" fractions are not part of this model.
- ParseNumeric: Postgres numeric text with a sign, point and e-exponent; NaN, Infinity, hexadecimal and underscores are not part of this model.
- IsSpace: unicode.IsSpace on single characters; invalid UTF-8 is not modelled, and extractPrefix counts characters where Go counts bytes.
- EvaluatePromotion: qualifiers arrive decoded; the JSON decoding and its float64 branch are left out.
- FormatMicros: like formatRatePpm it is never called with -2^63 by the resolver, so that argument is only excluded from the round trips.
- Handle: a failing limiter call has no effect; one that fails after some of its commands took effect is left out, as are response bodies and the Retry-After header.
- Sound: argon2id is an uninterpreted hash without collisions.
- AuthenticationIsFullScan: both queries read the same table at the same instant.
- Flag: the delta arrives in ten-thousandths; the request's float64 and its rounding to four decimals are left out.
- MerkleParent: SHA-256 is any function; where collisions matter, only the inputs the trees and proofs hash are taken to be without one.
- Prepared: foreign keys and movement fields that do not affect quantities or costs are left out.
- ConsumerAccounts: one consumer; several race because the row locks end with the query.
- PollMerchant: documents reach the model as an ordered list; HTTP, JSON and authentication are left out.
- ExecUpdate: a malformed numeric fails the statement only on a row it sets; that Postgres may reject it for an absent row is left out.
- BuildUpdate: clauses are data, so the rendering of column names and placeholders as text is left out; columns are an enumeration.
- NothingSkippedBeforeCursor: assumes the server's document set is fixed, ordered and inclusive of since.
- EveryListingIsComplete: serialized appends; concurrent appends to one case can read the same previous hash.
- Promotion windows, active hours, exclusive_with, price and tax row selection: decided by the store's SQL.
- HTTP handlers, wiring, logging, replenishment tasks, purchase orders, alerts, reports, analytics and MCP tools.
