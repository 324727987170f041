# Verified model of the cloud cabinet's core logic

The backend bills a cloud cluster, issues numbered invoices, reads the cluster through a
concurrent, cached client, shows operators one attributed picture of it, and signs those
operators in. This project models the parts of it that carry real logic and proves what
they are meant to guarantee: over every input, every interleaving and every run.

`dafny verify dfyconfig.toml` checks the whole project.

## What is modelled

| part | modules |
|---|---|
| One request: retries, back-off, Retry-After | `Http` |
| Nested `gather` calls sharing one semaphore | `Gather`, `GatherOutcomes` |
| The versioned read-through cache | `ResponseCache` |
| Decimal arithmetic, the VAT split | `Decimals`, `Vat` |
| Measuring, pricing, estimating | `Collector`, `Measurements`, `Rates`, `BillingLaws`, `BillingFigures`, `BillingShapes` |
| Monthly history | `Calendar`, `Periods`, `History` |
| Invoice numbers, concurrent issuing, the frozen ledger | `Text`, `Numbering`, `Invoices`, `Issuing`, `Ledger`, `Drafts`, `LedgerTable`, `Office` |
| The cluster picture and whose usage is whose | `Attribution`, `SnapshotRecords`, `ClusterSnapshot` |
| Two-factor sign-in of operators | `SignIn`, `SignInDesk`, `SignInLockout`, `SignInRuns`, `SignInSessions` |
| Shared | `Options`, `Sequences` |

The main results, hardest first:

- **Gathers never deadlock.** Threads that fan out inside each other, each with a pool of its
  own, share twelve permits. Every reachable state with unfinished work has a step, permits are
  conserved, whoever holds one can move, no gather runs more than eight sources at once, every
  schedule ends, and what comes out is what each source yields alone
  (`Gather.NestedGathersFinish`, `Gather.GatherYieldsEachName`): a page fails exactly if a source it
  needs does, with the first such error (`GatherOutcomes.PageOutcome`).
- **Read your writes.** `_cached_get` is four steps, interleaved with others and with
  invalidations; a read begun after an invalidation of its scope returned is never answered with
  older data, as long as the scope's own invalidations do not overlap and its counter is not lost
  (`ResponseCache.ReadYourWrites`). The first condition is exact: the first invalidation to begin while
  another of its scope is under way ends the guarantee, for some continuation without any further
  overlap (`ResponseCache.FreshExactlyWhileExclusive`); two steps from an empty cache suffice
  (`ResponseCache.OverlapFromTheStart`). The second is needed
  (`ResponseCache.LostCounterServesOldData`).
- **Invoice numbers are gapless** under any interleaving of issuers; an issuer that gives up was
  overtaken by its own account's invoice or by at least five of its year
  (`Issuing.NumbersStayGapless`, `Issuing.GivingUpWasOvertaken`).
- **One invoice per account and month, exactly**: a set of requests can never lead to two, in any
  interleaving, if and only if no two of them for one period spell the account in two ways
  (`Issuing.OneInvoiceExactly`).
- **The ledger is frozen** over every run of edits, captures and issues (`Ledger.LedgerIsFrozen`),
  also while any number of issuers run step by step between the edits: every document then is the
  draft of the world its issuer looked at, adds up, and is its account's only one for the period if
  the orders agree on the spelling (`Office.InterleavedLedgerIsFrozen`).
- **What is billed is what was measured**: each resource's line is there exactly if its own
  measurement was held, and shows that measurement summed, averaged over the days and rounded
  once (`BillingFigures.BillChargesMeasurements`); a draft does so of its own domain's rows of its
  own month and depends on no others (`Drafts.DraftInvoicesMeasurements`,
  `Drafts.DraftDependsOnItsMonth`); and every measurement is a sum over the project's listed
  resources (`Measurements.MeasuresAre`).
- **Double rounding is harmless**: rounding a 28-digit quotient to cents is rounding the exact
  quotient (`Decimals.DoubleRounding`); with it, an estimate equals the bill of the row that would
  be captured (`Collector.EstimateEqualsBill`), repeated days cost what one day does
  (`BillingShapes.DaysMeasureAndDoNotDivide`), and account and project bills differ by less than
  the roundings (`BillingLaws.AccountAgainstProjects`).
- **The picture loses nothing**: records are shared objects, counted into in place; totals, which
  are computed from the raw lists, equal accounts plus unowned rows, and an account shows what the
  project records hanging under it show; each figure counts exactly the rows whose project the
  directory puts there (`ClusterSnapshot.Build`, `ClusterSnapshot.PictureCountsOwnRows`,
  `ClusterSnapshot.PictureLosesNothing`, `ClusterSnapshot.AccountShowsItsProjects`).
- **Sign-in.** In a run without success, at most five wrong guesses, at the password and at the
  second factor together, are answered for every lockout period begun
  (`SignInLockout.LockoutBoundsGuesses`); a guess is wrong by the state it meets, not by what is
  counted of it. Whoever is signed in, in any run, had given the right password to an account
  that answered, less than 240 s before, and then the second factor asked for, which is the one in
  force if there was any when the password was given
  (`SignInSessions.SigningInNeedsBothFactors`, `SignInSessions.SessionsNeedBothFactors`). While
  replay keys live to their timeout, a code as typed signs in once in 90 seconds
  (`SignInSessions.CodesSignInOnce`), and no time step passes twice if and only if no code can be
  typed in two ways (`SignInRuns.OneTimeExactly`); if they may be dropped earlier, any code can
  pass twice (`SignInRuns.KeysMustLive`).

## How the model is read

- Money is counted in cents, prices in 1/10000, quantities on a line in 1/100 and exact quantities
  in 1/1024. A `Decimal` division keeps 28 significant digits and rounds half to even; `quantize`
  rounds half up. Where a quotient is rounded again, its numerator is below `Decimals.SAFE` (10^25);
  the stored columns cannot hold as much, and without a bound the property is false
  (`Decimals.BoundIsNeeded` names a division that comes out a cent too high).
- `float(...)` followed by `Decimal(str(...))` is the identity, as it is for amounts of up to 15
  significant digits; sums and products stay within 28 digits.
- Tables are sequences or maps with their unique keys. An insert commits atomically or clashes.
  The settings (VAT rate and side, the seller) are constants of a run.
- Hashes are injective and encryption is invertible. A TOTP code is an uninterpreted function of
  secret and time step; what counts as a digit, and the normal form in which the library compares
  codes, are uninterpreted too, but for a space being no digit.
- The cloud is an arbitrary script: each call may yield anything or fail.
- The cache backend may drop any entry at any moment: responses, version counters, tickets and
  replay keys. What relies on one being kept says so: `ResponseCache.KeepsCounter` for a scope's
  counter, `SignIn.KeepsKeys` for an operator's replay keys. The backend used by default,
  in-process memory (`config/settings/base.py:132-139`), drops entries by number, whatever their timeout.
- Each sign-in request is atomic, as is each step of the other protocols.
- Case folding covers ASCII.

## Where the code and its own words disagree

- `apps/billing/models.py:57-59` says that a derived daily rate charges each snapshot; `cost_of` charges the
  average held at the monthly price. The model follows the code.
- "One invoice per account per month" (`apps/billing/invoices.py:234`) holds of the check, which ignores
  case; the unique constraint does not. Two administrators who spell one account in two ways and
  check before either inserts both get an invoice: `Issuing.TwoSpellingsIssueTwice` is the run, of
  eight steps, and `Issuing.OneInvoiceExactly` the exact condition.
- "True once per code" (`apps/platform_admin/totp.py:55`) holds of the string as typed. `isdigit` lets
  digits of other scripts through, the comparison brings them to one normal form, and the replay key
  does not: where the normal form of full-width digits is the ASCII ones, as in Unicode's NFKC,
  "123456" passes again in full-width digits (`SignInRuns.WideDigitsPassAgain`).  The library's
  comparison is not part of the repository, and so a parameter here.
- "Whatever factor this operator is on is the one that counts"
  (`apps/platform_admin/auth_views.py:136-137`) holds unless a ticket issued for an enrolment
  outlives another enrolment: `SignInSessions.SessionsNeedBothFactors` says of every session exactly
  when, and `SignInSessions.LateEnrolmentReplaces` gives a run in which it does not.

## Model

| member | source | states |
|---|---|---|
| `Http.DelayIsBounded` | apps/integrations/zadara/http.py:39-65 | an answer is retried exactly if it is a transient failure of a GET or a 429 and attempts remain, after 0 to 5 seconds whatever Retry-After says; any other answer is final |
| `Http.Request` | apps/integrations/zadara/http.py:81-125 | the loop answers with the first answer not worth a retry or the third one, after at most three attempts and ten seconds of waiting |
| `Http.WaitIs` | apps/integrations/zadara/http.py:112-122 | which statuses are retried, and the wait: half a second and a second, or what Retry-After says cut to between 0 and 5 seconds |
| `Http.ReadIs` | apps/integrations/zadara/resources.py:33-44 | the outcome of an answer by its status: 401, 403, any other error, or a reply |
| `Gather.StepKeeps` | apps/common/concurrency.py:69-86 | one step of any thread in a task tree conserves the permits, keeps every pool within its width, every request within its attempts and every gather owed what its sources yield, and lowers the work left |
| `Gather.HolderMoves` | apps/integrations/zadara/http.py:34-36 | a thread that holds a permit always has a step: it never waits for children while holding it |
| `Gather.UnfinishedMoves` | apps/common/concurrency.py:78-86 | while a permit is free, some thread below any unfinished one can move, whatever the nesting |
| `Gather.NoDeadlock` | apps/integrations/zadara/http.py:26-36 | unfinished work always has an enabled step as long as the gate has permits, free or held |
| `Gather.RunKeeps` | apps/integrations/zadara/http.py:101-105 | along every schedule, free plus held permits stay constant, each step uses up some of the work there was, and the promised outcome is kept |
| `Gather.NestedGathersFinish` | apps/common/concurrency.py:53-86 | from any pages, along any schedule: at most 12 permits held, a step while anything is unfinished, every schedule bounded, every gather with a pool of its own that runs at most 8 sources at once, and every page's outcome is what it yields alone |
| `Gather.GatherYieldsEachName` | apps/common/concurrency.py:69-86 | a gather reached anywhere in a run of any pages, once its workers are done, returns one `Fetched` per name, that of the source alone, whatever else runs or fails |
| `GatherOutcomes.FanOutcome` | apps/integrations/zadara/resources.py:215-220 | a gather fails if and only if a source its caller needs fails on its own, with the error of the first such; otherwise it hands back every outcome |
| `GatherOutcomes.CombineIs` | apps/platform_admin/snapshot.py:157-162 | the same of the outcomes themselves |
| `GatherOutcomes.PageOutcome` | apps/integrations/zadara/resources.py:215-220 | in every finished run, that is the outcome of each page that is a gather |
| `GatherOutcomes.OthersOutcome` | apps/common/concurrency.py:53-59 | one thing after another stops at the first failure, and a request yields what its retry loop does |
| `ResponseCache.StepKeeps` | apps/integrations/zadara/resources.py:76-107 | every step keeps, for a scope whose invalidations do not overlap and whose counter is kept: its versions count them, and what is filed under a version was fetched after it came to be |
| `ResponseCache.RunKeeps` | apps/integrations/zadara/resources.py:76-107 | the invariant of a scope holds after every run in which the scope's own invalidations do not overlap and its counter is kept |
| `ResponseCache.ReadYourWrites` | apps/integrations/zadara/resources.py:325-327 | while a scope's invalidations do not overlap and its counter is kept, a read begun after one of them returned is never answered with data fetched before it, even when an older read stores late and whatever other scopes do |
| `ResponseCache.LostCounterServesOldData` | apps/integrations/zadara/resources.py:81-89 | the run, from an empty cache, in which the loss of the counter lets a read be answered with data older than an invalidation |
| `ResponseCache.FreshExactlyWhileExclusive` | apps/integrations/zadara/resources.py:85-89 | the counter being kept, answers stay fresh in every continuation without a further overlap if and only if the scope's invalidations have not overlapped |
| `ResponseCache.OverlapFromTheStart` | apps/integrations/zadara/resources.py:85-89 | two invalidations begun one after the other on an empty cache already lose the guarantee |
| `ResponseCache.AnswersAreOnesOwn` | apps/integrations/zadara/resources.py:92-107 | an answer is about the scope and path asked for, and a cached one was stored less than the TTL ago, in every run |
| `ResponseCache.OverlapLosesAnInvalidation` | apps/integrations/zadara/resources.py:85-89 | once two invalidations of a scope have read the same version, some run in which no other begins answers a read with data fetched before an invalidation that had returned |
| `ResponseCache.Backend.Invalidate` | apps/integrations/zadara/resources.py:85-89 | afterwards nothing stored for the scope answers, on any path, other scopes keep theirs, and the effect is that of the protocol's uninterrupted invalidation |
| `ResponseCache.Backend.CachedGet` | apps/integrations/zadara/resources.py:92-107 | the cloud is asked exactly on a miss, an empty answer is not stored, and the effect is that of the protocol's uninterrupted read |
| `Decimals.HalfUpIs` | apps/billing/rates.py:35-39 | ROUND_HALF_UP characterised: the one integer whose half-open interval holds the quotient |
| `Decimals.QuotientIs` | apps/billing/rates.py:99-104 | a division keeps the fewest decimals that show 28 digits, and of those the nearest quotient |
| `Decimals.DoubleRounding` | apps/billing/rates.py:104-104 | rounding the 28-digit quotient to cents half up is rounding the exact quotient |
| `Decimals.BoundIsNeeded` | apps/billing/rates.py:104-104 | one day's unit-days, past the bound, whose average comes out a cent too high |
| `Vat.SplitAddsUp` | apps/billing/invoices.py:53-71 | subtotal plus VAT is the total in all three branches, and the quoted side is the amount rounded |
| `Vat.ExtractedWithinHalfCent` | apps/billing/invoices.py:62-66 | the extracted base is within half a cent of total / (1 + rate) and no more than the total |
| `Vat.AddedWithinHalfCent` | apps/billing/invoices.py:68-71 | the added tax is within half a cent of subtotal times rate |
| `Vat.AddedVatIsExtracted` | apps/billing/invoices.py:53-71 | adding VAT and extracting it again returns the same three figures, at any positive rate |
| `Rates.AddRow` | apps/billing/rates.py:93-97 | one row adds its billable quantity to every resource's unit-days, and no zero entry appears |
| `Rates.PriceLines` | apps/billing/rates.py:101-121 | the accumulated sums become one line per resource held, in key order, and their total |
| `Rates.CostOf` | apps/billing/rates.py:70-123 | the loops compute the bill: exact unit-days, rounded average, rounded cost, total of the lines, number of days |
| `Rates.EstimateMonth` | apps/billing/rates.py:126-160 | the estimate's loop prices each held quantity rounded first and sums the rounded costs |
| `BillingFigures.BillChargesMeasurements` | apps/billing/rates.py:26-33 | each of the six resources has a line exactly if its own field was held in some row, with the field's sum over the rows (RAM in 1/1024, snapshots less uncounted backups) as unit-days, its average over the measured days as quantity, and the stored price |
| `BillingFigures.EstimateChargesShape` | apps/billing/rates.py:137-158 | each line of an estimate charges its resource for its own field of the shape, rounded first |
| `BillingFigures.NothingCharged` | apps/billing/rates.py:99-104 | no rows make no line, no total and no day |
| `BillingFigures.RateMapIs` | apps/billing/rates.py:49-54 | the rates are the stored prices above nought |
| `BillingFigures.CountsBackupsIs` | apps/accounts/backups.py:22-36 | an account's backups count unless its setting says otherwise |
| `BillingLaws.AverageIsExact` | apps/billing/rates.py:99-104 | the average shown is the exact average rounded once |
| `BillingLaws.BillIgnoresOrder` | apps/billing/rates.py:86-123 | the bill depends only on the multiset of rows |
| `BillingLaws.LineMultipliesOut` | apps/billing/rates.py:103-119 | a line's cost is its shown quantity times its shown price, and nought without a price |
| `BillingLaws.LinesAreHeld` | apps/billing/rates.py:101-109 | there is exactly one line for each resource that was held at all |
| `BillingLaws.CostIsAccurate` | apps/billing/rates.py:103-107 | a line's cost is within 0.005 times the price plus 0.005 of the unrounded value |
| `BillingLaws.GroupByProject` | apps/billing/views.py:215-217 | the grouping holds each project's rows, in order, and a group for exactly the projects that have any |
| `BillingLaws.ProjectsPartition` | apps/billing/views.py:215-246 | per resource, the account's exact unit-days are the sum over its projects |
| `BillingLaws.AccountAgainstProjects` | apps/billing/views.py:215-246 | the account's quantity in hundredths is less than the sum of its n projects' quantities plus (n + 1) / 2 |
| `BillingShapes.DaysMeasureAndDoNotDivide` | apps/billing/rates.py:70-123 | the same shape on any number of days has the lines and total of one day, and the days are counted |
| `BillingShapes.SwitchTakesBackupsOff` | apps/accounts/backups.py:22-36 | switching one account's backups off takes exactly its backup storage off the snapshot line, and nothing else |
| `Collector.MeasureCluster` | apps/billing/collector.py:45-102 | the four loops give a bucket to exactly the projects that hold something in a readable list, holding the sums of their rows |
| `Collector.LiveMeasurements` | apps/billing/views.py:73-128 | the live loops add up one project's share, dropping backups at the source when they do not count |
| `Measurements.MeasuresAre` | apps/billing/collector.py:65-100 | every figure of a bucket is a sum over the project's own machines, disks, addresses and snapshots: all machines and the running ones, their vCPUs and RAM, disks by medium, scheduled snapshots apart |
| `Measurements.LiveMeasuresAre` | apps/billing/views.py:106-126 | the live shape is the same sums, but for the scheduled snapshots, left out when they do not count |
| `Measurements.RecordedRows` | apps/billing/collector.py:133-150 | a stored row bears its project, its day, the project's figures, and its directory entry's account and domain, or empty ones exactly when there is no entry |
| `Measurements.UnrecordedRows` | apps/billing/collector.py:140-150 | a capture leaves other days, and projects it did not measure, alone |
| `Measurements.CapturedRows` | apps/billing/collector.py:133-150 | the row that an estimate is compared with bears the project's figures and owner |
| `Collector.LiveIsMeasured` | apps/billing/views.py:73-128 | the live measures are the captured ones, with the backups taken off the snapshots when they do not count |
| `Collector.EstimateEqualsBill` | apps/billing/rates.py:126-132 | the live estimate and the bill of the row a capture would store have the same lines and total, for every cluster, failing list and backup setting |
| `Collector.UsageTable.Capture` | apps/billing/collector.py:122-155 | one row per measured project for the day, an earlier one overwritten, all other rows untouched, and the counts returned |
| `Collector.RecaptureOverwrites` | apps/billing/collector.py:122-151 | capturing the same measurements again stores what capturing them once does |
| `History.LabelsAreChronological` | apps/platform_admin/billing_views.py:353-357 | zero-padded labels compare, as strings, as their months do, and name one month each |
| `History.Bucket` | apps/platform_admin/billing_views.py:352-354 | the buckets in order of first appearance, equal to the specification below |
| `History.BucketIs` | apps/platform_admin/billing_views.py:352-354 | a bucket holds exactly its month's rows, and there is one for exactly the months that have any |
| `History.History` | apps/platform_admin/billing_views.py:350-361 | the entries are those of the last months, each priced from its bucket |
| `History.LatestMonthsInOrder` | apps/platform_admin/billing_views.py:357-357 | the months shown are in order, at most as many as asked, none missing if fewer, and every month left out is earlier than every one shown |
| `History.BucketIsTheBilledMonth` | apps/billing/invoices.py:295-299 | a bucket holds the rows between the first and the last day of its month, leap years included |
| `History.HistoryIsTheBills` | apps/platform_admin/billing_views.py:350-361 | each entry has the total and the days of the bill over its month's bounds |
| `History.BucketsPartition` | apps/billing/views.py:463-465 | every measurement is in one bucket, once |
| `Numbering.PrefixFindsYear` | apps/billing/invoices.py:226-226 | the prefix search finds exactly the numbers of its year |
| `Numbering.NumbersAreUnique` | apps/billing/invoices.py:229-229 | a printed number stands for one year and sequence number, beyond 9999 too |
| `Numbering.NumberReads` | apps/billing/invoices.py:229-229 | the printed number: series, year, and a sequence that reads as its number in four digits up to 9999 and in more, without a zero in front, beyond |
| `Periods.LabelReads` | apps/billing/views.py:56-56 | a period label is four digits that read as the year, a dash and two that read as the month |
| `Calendar.LeapYearsAre` | apps/billing/invoices.py:299-299 | as many Februaries have 29 days as the Gregorian rule gives leap years |
| `Calendar.MonthsAddUp` | apps/billing/invoices.py:299-299 | where each month begins in its year |
| `Text.LowerIs` | apps/billing/invoices.py:235-235 | case folding, letter by letter |
| `Invoices.GaplessMeans` | apps/billing/invoices.py:225-227 | in a gapless ledger a year's numbers are exactly 1 to n |
| `Invoices.NumbersDiffer` | apps/billing/models.py:162-162 | in a gapless ledger no two invoices share a number |
| `Invoices.LastIsCount` | apps/billing/invoices.py:224-227 | the highest number of a year is how many it has |
| `Invoices.ExistingIs` | apps/billing/invoices.py:235-237 | the look-up finds an invoice of the account, ignoring case, and period, if and only if there is one |
| `Issuing.StepKeeps` | apps/billing/invoices.py:263-277 | every step of every issuer keeps the ledger gapless, its constraints, and what each issuer knows |
| `Issuing.RunKeeps` | apps/billing/invoices.py:232-292 | the invariant and the growth of the ledger, over every interleaving |
| `Issuing.NumbersStayGapless` | apps/billing/invoices.py:263-277 | whatever the interleaving, the numbers of each year are exactly 1 to n, none twice |
| `Issuing.GivingUpWasOvertaken` | apps/billing/invoices.py:266-277 | an issuer exhausts its five attempts only if its own account and period was issued since its check or five invoices of its year were committed since its first read |
| `Issuing.AnswersAreInTheLedger` | apps/billing/invoices.py:235-237 | whoever is answered gets a stored invoice of the account, ignoring case, and period asked for |
| `Issuing.OneInvoiceExactly` | apps/billing/invoices.py:232-277 | no schedule of a set of requests makes two invoices for an account, ignoring case, and a period if and only if no two of them for one period spell an account in two ways |
| `Issuing.AgreedSpellingsIssueOnce` | apps/billing/invoices.py:232-237 | in every run whose requests for a period spell each account one way, at most one invoice for it exists |
| `Issuing.TwoSpellingsIssueTwice` | apps/billing/models.py:196-196 | the eight-step run from an empty ledger in which two spellings of one account get an invoice each |
| `Issuing.ReadThenInsert` | apps/billing/invoices.py:267-272 | an issuer nobody overtakes commits at that attempt |
| `LedgerTable.Ledger.Issue` | apps/billing/invoices.py:232-292 | the five-attempt loop, others committing in between: an existing invoice unchanged, or the document under the year's next number, or five clashes with their cause |
| `LedgerTable.Ledger.Attempt` | apps/billing/invoices.py:268-274 | one read and insert: a clash leaves the table to the others, a success appends the next number |
| `LedgerTable.Ledger.Allocate` | apps/billing/invoices.py:266-277 | the five attempts end in the document under the next number, or in five clashes caused by the account's own invoice or five of its year |
| `Ledger.DraftCloses` | apps/billing/invoices.py:117-180 | every line is quantity times price rounded, and the lines sum exactly to the quoted side, subtotal plus VAT being the total |
| `Drafts.DraftSays` | apps/billing/invoices.py:129-180 | a draft prices the domain's rows of its month and no others, and bears their days, the month's bounds and length, the price list's currency, and both parties |
| `Drafts.DraftInvoicesMeasurements` | apps/billing/invoices.py:132-155 | each line's quantity is the rounded average of exactly the month's measurements of its resource, at the list price, and a priced resource has a line exactly if it was held |
| `Drafts.DraftAddsUp` | apps/billing/invoices.py:154-155 | subtotal plus VAT is the total, and the side the prices are on is the sum of the lines' amounts |
| `Drafts.DraftDependsOnItsMonth` | apps/billing/invoices.py:132-133 | worlds that agree on those rows, in any order, and on prices, requisites and settings, have the same draft |
| `Drafts.DraftOfNothing` | apps/billing/invoices.py:132-155 | a month without measurements is a draft without lines |
| `Drafts.BoundsCoverTheMonth` | apps/billing/invoices.py:295-299 | the rows between the bounds are the domain's rows of that year and month |
| `Drafts.TariffIs` | apps/billing/rates.py:42-46 | the account's own active list, whatever its case, before the shared active one, before none |
| `Drafts.BuyerIs` | apps/billing/invoices.py:78-90 | the buyer bears the account, its legal name if its profile has one, and the profile's requisites or empty ones |
| `Ledger.RunSound` | apps/billing/invoices.py:232-292 | over any run of edits, captures and issues the ledger stays gapless and closed, and only grows at its end |
| `Ledger.LedgerIsFrozen` | apps/billing/models.py:152-160 | what is issued never changes, numbers are gapless, at most one invoice per account and period, every document adds up |
| `Ledger.ReissueReturnsTheSame` | apps/billing/invoices.py:234-237 | issuing a month again, in any case and after any edits, returns the first document and changes nothing |
| `Ledger.FirstIssueFreezesTheDraft` | apps/billing/invoices.py:239-279 | the first issue freezes the draft of the day under the year's next number |
| `Office.InterleavedLedgerIsFrozen` | apps/billing/invoices.py:232-292 | issuers interleaved with edits of anything: every document is the draft of its issuer's order in the world it looked at, and adds up; what is issued stays; numbers are exactly 1 to n; at most one document per account as spelled and period, and in any spelling if the orders agree on it |
| `Office.LookDraftsNow` | apps/billing/invoices.py:235-239 | an issuer that finds nothing issued drafts its order in the world of that moment; otherwise it is answered with what it found |
| `Office.DraftsAreKept` | apps/billing/invoices.py:239-279 | what was drafted then is what the commit adds, whatever is edited in between |
| `Office.ChangeTakesEffect` | apps/billing/invoices.py:129-133 | an edit is in force from then on |
| `Attribution.AccountUsageSums` | apps/platform_admin/snapshot.py:210-222 | an account's record after a list is its record before plus what the account's rows are worth, field by field |
| `Attribution.ProjectUsageSums` | apps/platform_admin/snapshot.py:210-222 | the same of a project's record |
| `Attribution.OtherFields` | apps/platform_admin/snapshot.py:55-66 | a list adds nothing to another list's fields |
| `Attribution.OfAccountIs` | apps/platform_admin/snapshot.py:209-219 | an account's rows are exactly those whose project the directory puts under it, as often as they occur |
| `Attribution.OfProjectIs` | apps/platform_admin/snapshot.py:209-220 | a project's rows are exactly its own, if the directory puts it under an account |
| `Attribution.OrphansAre` | apps/platform_admin/snapshot.py:211-216 | the rows nobody owns are exactly those whose project the directory does not put under an account |
| `Attribution.VmFiguresAre` | apps/platform_admin/snapshot.py:93-98 | the figures of machines: their number, the running ones, vCPUs and RAM of all |
| `Attribution.VolumeFiguresAre` | apps/platform_admin/snapshot.py:101-106 | the figures of volumes: their number and capacity |
| `Attribution.SnapshotFiguresAre` | apps/platform_admin/snapshot.py:109-114 | the figures of snapshots: number and capacity, of all and of the scheduled ones |
| `Attribution.PlainFiguresAre` | apps/platform_admin/snapshot.py:121-125 | the other figures are numbers of rows |
| `Attribution.FieldsAre` | apps/platform_admin/snapshot.py:55-66 | which list each field belongs to |
| `Attribution.SumIgnoresOrder` | apps/platform_admin/snapshot.py:207-222 | a figure does not depend on the order of its list |
| `Attribution.FieldsArePartitioned` | apps/platform_admin/snapshot.py:55-66 | a field is a list's if and only if it is that field's one list |
| `Attribution.ClusterIsConserved` | apps/platform_admin/snapshot.py:207-222 | a list's total is the sum over the accounts plus the rows nobody owns |
| `Attribution.AccountIsItsProjects` | apps/platform_admin/snapshot.py:219-220 | an account's figure is the sum of its projects' |
| `Attribution.MediaAddUp` | apps/integrations/zadara/resources.py:534-546 | the split by medium adds up to the volumes in capacity and number, biggest first, the unlabelled last |
| `Attribution.OneRowPerMedium` | apps/integrations/zadara/resources.py:534-546 | the finished split has one row for each medium that occurs and none for any other, holding the number and capacity of the medium's own volumes |
| `SnapshotRecords.Entry.Count` | apps/platform_admin/snapshot.py:93-126 | counting a row into a record in place changes its usage as the fold of its list does |
| `SnapshotRecords.Entry.MarkUnavailable` | apps/platform_admin/snapshot.py:251-255 | exactly the fields of the unreadable lists become unknown |
| `SnapshotRecords.BlankedIs` | apps/platform_admin/snapshot.py:251-255 | a field is blanked if and only if its own list is among the unreadable |
| `SnapshotRecords.FoldSource` | apps/platform_admin/snapshot.py:208-225 | folding a list leaves the records as the specification says, and keeps orphans and volumes aside |
| `SnapshotRecords.AfterRowsAccount` | apps/platform_admin/snapshot.py:209-219 | after a list, an account's record counts its own rows and no others |
| `SnapshotRecords.AfterRowsProject` | apps/platform_admin/snapshot.py:209-220 | and so a project's |
| `SnapshotRecords.VolumesAreKept` | apps/platform_admin/snapshot.py:221-223 | the volumes kept for an account or project are its own, in order |
| `SnapshotRecords.ListProjects` | apps/platform_admin/snapshot.py:183-199 | each account lists the very records its projects are counted into; what cannot be listed is named |
| `SnapshotRecords.DirectoryHas` | apps/platform_admin/snapshot.py:183-198 | a project is in the directory if and only if some account lists it, and then under such an account |
| `SnapshotRecords.SplitByMedium` | apps/platform_admin/snapshot.py:227-230 | every record carries the split of the volumes kept for it |
| `ClusterSnapshot.FoldAll` | apps/platform_admin/snapshot.py:207-225 | all readable lists are folded, orphans numbered per list, unreadable lists named |
| `ClusterSnapshot.TotalsCountTheRows` | apps/platform_admin/snapshot.py:258-289 | the totals, computed from the raw lists, are what the rows are worth field by field |
| `ClusterSnapshot.AccountComesTo` | apps/platform_admin/snapshot.py:207-222 | after all lists, a field counts exactly the account's rows of its own list |
| `ClusterSnapshot.ProjectComesTo` | apps/platform_admin/snapshot.py:207-222 | and so for a project |
| `ClusterSnapshot.Build` | apps/platform_admin/snapshot.py:169-248 | a picture exists if and only if directory and machines were readable; then every record shows None exactly where its list failed or its account was unreadable, and otherwise the sum of its rows |
| `ClusterSnapshot.PictureCountsOwnRows` | apps/platform_admin/snapshot.py:209-219 | a readable account shows, of every readable field, what the rows come to whose project the directory puts under it |
| `ClusterSnapshot.PictureCountsProjectRows` | apps/platform_admin/snapshot.py:209-220 | and a project, what its own rows come to |
| `ClusterSnapshot.PictureCountsOrphans` | apps/platform_admin/snapshot.py:206-216 | the unattributed rows are numbered, list by list |
| `ClusterSnapshot.UnknownExactly` | apps/platform_admin/snapshot.py:232-242 | a field shows None exactly if its list failed, or, for an account, the projects of a domain of its name could not be listed |
| `ClusterSnapshot.UnavailableExactly` | apps/platform_admin/snapshot.py:147-155 | the lists named as unavailable are those that failed |
| `ClusterSnapshot.AccountShowsItsProjects` | apps/platform_admin/snapshot.py:195-220 | an account shows, of every field, the sum over the record objects hanging under it |
| `ClusterSnapshot.PictureLosesNothing` | apps/platform_admin/snapshot.py:258-264 | the totals equal what the accounts show together plus the rows nobody owns |
| `ClusterSnapshot.MediaMakeUpTheStorage` | apps/platform_admin/snapshot.py:227-230 | the split carried by accounts, projects and totals adds up to the storage they show |
| `SignInLockout.LockoutBoundsGuesses` | apps/platform_admin/models.py:117-133 | in a run that never signs the operator in, at most 5 wrong passwords and second factors together meet an account that answers, per lockout period begun, and the counter stays below 5; what is wrong is read off the state each request meets |
| `SignInLockout.ServeEffect` | apps/platform_admin/auth_views.py:61-74 | a wrong guess is noted and signs nobody in; nothing but a wrong guess or a success touches the counter or the lockout |
| `SignIn.FailureNotes` | apps/platform_admin/models.py:121-126 | a failure raises the counter; the fifth clears it and locks the account for exactly fifteen minutes |
| `SignIn.SuccessLeaves` | apps/platform_admin/auth_views.py:156-164 | signing in uses up the ticket, clears counter and lockout, remembers the code, stores the secret of an enrolment that no access code overrides, and changes nothing else |
| `SignIn.LoginAnswers` | apps/platform_admin/auth_views.py:76-98 | a right password gets a ticket; it is for an enrolment, with a fresh secret, exactly when the operator has neither access code nor authenticator |
| `SignIn.LoginRefusals` | apps/platform_admin/auth_views.py:54-74 | why any other login is refused, and that it gets no ticket |
| `SignIn.VerifyRefusals` | apps/platform_admin/auth_views.py:112-154 | why a verification is refused, and whether that costs the ticket |
| `SignIn.WithoutSpacesIs` | apps/platform_admin/totp.py:56-56 | every space of a code goes, and nothing else |
| `SignIn.EditsKeepTheLockout` | apps/platform_admin/models.py:92-108 | the commands set what they are given and leave lockout and authenticator alone |
| `SignInLockout.EveryGuessIsLogged` | apps/platform_admin/auth_views.py:139-154 | the failures logged over a run are exactly the wrong guesses it answered |
| `SignInRuns.RunSound` | apps/platform_admin/auth_views.py:42-167 | after every run: accepted codes were right, live tickets go back to a logged acceptance of a password and opened nothing, sessions to one less than 240 s before and, by authenticator, to a code of their own secret spent right then |
| `SignInRuns.PasswordsWereRight` | apps/platform_admin/auth_views.py:54-79 | every logged acceptance of a password is the answer to an arrival that gave the operator's right password to an active account that was not locked |
| `SignInRuns.ChallengeNeedsPassword` | apps/platform_admin/auth_views.py:54-79 | a login gets a ticket if and only if the account answers and the password is right |
| `SignInRuns.NoTimeStepAcceptedTwice` | apps/platform_admin/totp.py:54-67 | while the operator's replay keys live to their timeout, two acceptances of one code as typed are 90 s apart, so no time step covers both; a time step passes again only in another spelling, and never for two codes in normal form |
| `SignInRuns.OneTimeExactly` | apps/platform_admin/totp.py:54-67 | replay keys living to their timeout, no run accepts a time step of a secret twice if and only if no code can be typed in two ways |
| `SignInRuns.KeysMustLive` | apps/platform_admin/totp.py:63-65 | if replay keys may be dropped earlier, no run accepts a time step twice if and only if no code passes at all |
| `SignInRuns.DroppedKeyPassesAgain` | apps/platform_admin/totp.py:63-65 | the run, from no operators at all, in which the same string passes again once its key is dropped |
| `SignInRuns.RunKeepsKeys` | apps/platform_admin/totp.py:63-65 | over any run in which the operator's keys live to their timeout, a code accepted in the last 90 s is remembered, and equal codes were accepted at least 90 s apart |
| `SignInRuns.TwoSpellingsPassTwice` | apps/platform_admin/totp.py:57-64 | the run, from no operators at all, that accepts one time step in two spellings |
| `SignInRuns.WideDigitsPassAgain` | apps/platform_admin/totp.py:57-64 | the input: "123456" and the same in full-width digits |
| `SignInSessions.SessionsNeedBothFactors` | apps/platform_admin/auth_views.py:48-167 | every session of every run was opened by one verification on its ticket, in whose state the account answered, the ticket lived and the code typed proved the factor asked for; and by an earlier login that gave the right password for that ticket, less than 240 s before; if any second factor was in force at that login, the session's is the one in force now |
| `SignInSessions.TicketsWereIssued` | apps/platform_admin/tickets.py:19-29 | every ticket of every run goes back to a login with the right password, and is for an enrolment exactly when the operator had no second factor then |
| `SignInSessions.SigningInNeedsBothFactors` | apps/platform_admin/auth_views.py:48-167 | the same of every answer that signs someone in, whatever is logged |
| `SignInSessions.SignsInExactly` | apps/platform_admin/auth_views.py:112-167 | a verification signs in if and only if the ticket lives, the account answers, and the code proves the factor asked for |
| `SignInSessions.CodesSignInOnce` | apps/platform_admin/totp.py:54-67 | while replay keys live to their timeout, two sign-ins of an operator by one code as typed are at least 90 s apart |
| `SignInSessions.TicketsOpenOneSession` | apps/platform_admin/tickets.py:19-40 | a ticket opens at most one session, a code is spent by one session, and a stored secret was proven by a code |
| `SignInSessions.FactorAtVerification` | apps/platform_admin/auth_views.py:136-160 | exactly when a successful verification used the factor in force |
| `SignInSessions.LateEnrolmentReplaces` | apps/platform_admin/auth_views.py:146-159 | the run, from no operators at all, in which two enrolments both complete and the second signs in while the first one's secret is in force, and replaces it |
| `SignInDesk.Desk.CountFailure` | apps/platform_admin/models.py:121-126 | the counter and the lockout after a wrong guess |
| `SignInRuns.AdmitSound` | apps/platform_admin/tickets.py:19-29 | issuing a ticket that was never issued before keeps all that is said of tickets, codes and sessions: it goes back to the acceptance logged with it and has opened nothing |
| `SignInDesk.Desk.VerifyCode` | apps/platform_admin/totp.py:54-67 | a code is accepted and spent at once, or refused and nothing changes |
| `SignInRuns.OpenSound` | apps/platform_admin/auth_views.py:162-164 | opening a session on a live ticket, its code just spent, keeps all that is said of tickets, codes and sessions |
| `SignInDesk.Desk.Login` | apps/platform_admin/auth_views.py:48-98 | the request does to the state what the specification's transition does |
| `SignInDesk.Desk.Verify` | apps/platform_admin/auth_views.py:108-167 | the same for the second step |

## Left out

- The snapshot's `get`: one look-up of a 120-second entry and one of a 24-hour entry around `_build`.
- Overlapping invalidations of one scope, beyond the proof of what they cost; concurrent read-modify-write of one operator's failure counter, which takes no lock in the code.
- `project_directory`: a nested loop that fills the owner look-up; it is the parameter `directory` of `Capture`.
- `serialize`, `missing_requisites` and the JSON of every view: field copying. `serialize` reads the VAT side from live settings.
- `list_vms`, `summarise_vm_disks`, `_classify_volume_types` and the `normalize_*` functions: field copying from an API not described in the repository; the lists arrive as arbitrary rows.
- The order of the accounts in a picture, and names of projects: sorting and display only.
- Repeated ids: domain ids are distinct, no project is listed twice, and, where accounts are added up, names are distinct.
- `_Tariffs` of the overview, which is `resolve_tariff` looked up in memory when each account has one active price list.
- Roles and permissions, audit records, password and access-code changes by the operator, CSV export, pagination.
- The real length of a request, a sleep or a build: time passes between steps.
- SnapshotRecords.ListProjects: the names of projects are not carried by their records.
- Vat.SplitAddsUp: extraction is stated for totals below the bound of exact 28-digit division.
- BillingLaws.AccountAgainstProjects: stated for unit-days below the bound of exact 28-digit division.
- Collector.EstimateEqualsBill: stated for quantities below the bound of exact 28-digit division.
