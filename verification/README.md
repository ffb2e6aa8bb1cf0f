# gdx-dispatch: a verified model of billing, audit and repair

This project models the parts of gdx-dispatch where money and trust are at stake,
and proves what they promise for every input, every run and every reachable state:

- **Labor billing from closeouts.** A job's closeouts form a graph of attestations
  that may restate one another. Invoices claim hours by stamping rows, price only
  what they hold, and give the stamps back on void or rebuild. The first hour has
  its own price, meant to be charged once per job, and the job bills at least 1 h. A
  greedy pass says whom to credit when hours are restated down. A machine-owned draft is built, released and rebuilt.
- **The audit hash chain.** Many transactions append to one linked list under a lock
  held to commit; an ordered walk and a shape report read it back.
- **The QuickBooks payment repair.** A planner over tables and an allocation index,
  and the step that applies its plan.
- **Transaction containment.** Savepoints, aborted transactions, and the helpers that
  record a change with its trail.
- **Three small algorithms.** The multi-worker token denylist, the drive-time
  splitter, and the forwarded-hop resolver.

Check it with `dafny verify dfyconfig.toml`.

## How it is laid out

| module | what it holds |
|---|---|
| `Basics` | options, sums, filters, maps over sequences, whitespace and stripping |
| `Closeouts`, `CloseoutRuns` | the restated run, claims and releases; whole histories of a job |
| `LaborPricing`, `FirstHour`, `FirstHourLines` | rounding, the labor lines; who carries the first hour, and how often it is charged, over every history |
| `CreditPass`, `CreditAgain` | which invoices to credit, and for how much; which offers come back after credits |
| `ClaimRace`, `ClaimOverlap` | concurrent builds and voids, step by step, under row locks: one closeout row; a whole run |
| `Autodraft`, `BillingStore`, `DraftLines` | what the builder and the draft mean; the same as methods that change rows in place; each line, stamp and draft on its own |
| `AuditChain`, `AuditText`, `AuditShape`, `AuditAlert`, `AuditRuns` | writer and readers; the bound text; what the report tells; when it is broken and alerts; interleaved transactions |
| `PaymentRepair`, `RepairProofs`, `RepairResults`, `RepairRows`, `RepairPreview` | planner and apply step; what a plan holds; main results; what happens to each row; the over-summed report |
| `Containment` | a session under Postgres abort rules |
| `Denylist`, `DriveTime`, `ClientHost` | the three small algorithms |

Units: quantities are hundredths of an hour (man-hours before the floor are half
hours), money is cents, the tax rate is millionths, times are microseconds. Code that
loops over changing variables or changes rows is a method or a class here, proved
equal to a function of its inputs or of the old state; the lemmas are about those
functions.

## What turned out not to hold

Each of these is a promise the code does not keep in full. The code is modelled as it
is; the exact condition under which the promise holds is proved, beside a concrete case
where it fails.

- *Hours are billed once across a restatement* (`ClaimOverlap`). What is left to bill is
  read before the lock, and each closeout row has its own lock. A build that picked a
  closeout keeps what it read while the closeout is restated and the restatement is
  billed in full beside it. If builds on rows of one run never overlap, from picking the
  closeout to commit, no run ever holds more than its largest attestation, with voids
  and everything else anywhere (`ApartBuildsNeverOverbill`). Two builds that have read
  before either commits, one on a row of the other's run, with both rows free and
  unlocked and the newer build's read still current, leave the run holding what its
  newest closeout attests plus all the older build read (`OverlapOverbills`), and that
  is how the same 2 h are billed twice without a single void
  (`RestatingUnderABuildDoubleBills`).
- *The first hour is charged once per job* (`FirstHourLines`). A build looks for the
  first hour on the job's other invoices, not on its own
  (gdx_dispatch/core/billing_lanes.py:180-181). New work added to the invoice that
  carries it, as the labor suggestion offers it (gdx_dispatch/routers/jobs.py:3700-3705)
  and the add-line route accepts it (gdx_dispatch/routers/invoices.py:4003-4008), is
  charged a second first hour (`SecondBuildChargesItAgain`). The job has at most one
  first-hour line throughout its history exactly if no build adds one to an invoice that
  has one (`OnceThroughoutIff`); whether a build adds one is known before the call
  (`BuildAddsIff`). Two builds that both look before either writes charge it twice as
  well (`OverlappingBuildsChargeTwice`).
- *A closeout row is priced once* (`ClaimRace`). `claim_closeout_hours` returns before
  taking the row lock when nothing is left to bill, and the pricing reads the figure
  again. A build prices hours it never stamped only if an invoice stamped on a row of
  its run is voided between its read and its price (`SkippedPriceNeedsAVoid`), and in
  that window it does so exactly when nothing was left to bill, the row is free and the
  void leaves the run holding less than the closeout attests (`WindowPricesIff`). If no
  lock is then held on the row, the next build prices the hours a second time
  (`VoidInTheWindowDoubleBills`; `VoidBetweenReadAndPriceDoubleBills` is a run of it).
- *A claim settles its run* (`Closeouts.ClaimSettlesTheRun`). It does exactly when the
  closeout is not part of its own `supersedes` cycle; in a cycle the stamp counts
  against the closeout itself and the build prices nothing for it
  (`Closeouts.SelfRestatingOvershoots`).
- *The credit pass leaves the job its first hour* (`CreditPass.FirstHourKeptIff`). It
  does exactly when the job's issued labor covers what the run billed or the restated
  hours make up the difference; a negative labor line on a sibling breaks it
  (`CreditPass.FirstHourLostBesideNegativeLabor`).
- *A credited offer never comes back* (`CreditAgain`). After any credits it comes back
  exactly when the hours are worth more than was credited (`OfferComesBackIff`); after a
  credit for the offered amount, exactly when that amount was cut short by the balance or
  by the invoice taking no credit memo (`OfferedAmountComesBackIff`,
  `CutShortOfferComesBack`).
- *A second repair run does nothing* (`RepairResults.SecondRunChangesNothingIff`). It
  does nothing exactly when no reset gives a new reference to the only row that showed
  an allocation of a payment whose own row stays above its invoice's total
  (`RepairResults.StaleBooksExist`). Books whose map and reference links agree are never
  in that state, and a third run never changes anything.
- *The over-summed preview is the sum after the repair*
  (`RepairPreview.PreviewIsTrueIff`). It differs by exactly the rows that are moved to
  another payment's reference (`RepairPreview.MovedRowsBreakThePreview`).
- *A contained read leaves the transaction as it was*
  (`Containment.ContainedReadRestoresIff`). However its reads turn out, it does so
  exactly if the text of the block has no dead end: a swallowed block that can be
  reached, in which a failure can go uncontained, and behind which only swallowed blocks
  follow (`Containment.DeadEndIff`, `Containment.SwallowedFailureKillsTheBlock`).
- *A digest binds a row's fields* (`AuditShape.FieldsCanTradeAColon`). It binds the
  colon-joined text, so a colon can move between neighbouring fields unnoticed.

## Model

| member | source | states |
|---|---|---|
| `Closeouts.RestatedRun` | gdx_dispatch/core/closeout_billing.py:244-261 | The walk ends on every `supersedes` graph, cycles included; each row is the one its predecessor restates, no row repeats, and it stops only where there is no unvisited row to step to |
| `Closeouts.RestatedRunIsUnique` | gdx_dispatch/core/closeout_billing.py:244-261 | There is exactly one such walk |
| `Closeouts.HeldPlusReported` | gdx_dispatch/core/closeout_billing.py:436-453 | On every table, hours held across the run plus hours still reported equal the larger of the newest attestation and the hours held |
| `Closeouts.VoidGivesBackItsClaims` | gdx_dispatch/core/closeout_billing.py:230-241 | Voiding one invoice gives back exactly what its stamps in the run bill: the recorded figure, or the whole day where none was recorded |
| `Closeouts.ClaimStampsIff` | gdx_dispatch/core/closeout_billing.py:496-518 | A closeout held by a live invoice or with nothing left is never stamped; any other is, with exactly what is left, and no other row changes |
| `Closeouts.ClaimSettlesTheRun` | gdx_dispatch/core/closeout_billing.py:488-525 | A successful claim brings the held sum to exactly the attestation if and only if the closeout is not in its own run; in a cycle it counts against itself |
| `Closeouts.SelfRestatingOvershoots` | gdx_dispatch/core/closeout_billing.py:244-261 | A row that supersedes itself: its claim counts twice |
| `CloseoutRuns.NeverOverbilled` | gdx_dispatch/core/closeout_billing.py:208-261 | Over every history of closeouts, restatements, claims, voids and releases, what live invoices hold across a run never exceeds the largest attestation in it |
| `CloseoutRuns.ClaimBillsTheDelta` | gdx_dispatch/core/closeout_billing.py:488-525 | Over every history, a claim raises the run to exactly the current attestation and leaves every older run alone |
| `CloseoutRuns.VoidStrandsNothing` | gdx_dispatch/core/closeout_billing.py:220-241 | Over every history, a void lowers what is held, what is held plus reported is still the larger of attestation and held, and hours not over-billed are conserved |
| `CloseoutRuns.VoidGivesBackExactly` | gdx_dispatch/core/closeout_billing.py:230-241 | In every reachable state a void takes off the run exactly what the invoice's claims bill, and giving stamps back frees exactly its rows |
| `CloseoutRuns.ReopenedWorkBillsInFull` | gdx_dispatch/core/closeout_billing.py:225-231 | In every reachable state a closeout after a reopen offers all its hours; one of a job still completed offers what exceeds the hours held |
| `CloseoutRuns.RestatingOffersWhatWasReported` | gdx_dispatch/core/closeout_billing.py:444-453 | Restating the same hours offers exactly what was reported as unbilled before, so stranded hours come back |
| `CloseoutRuns.StepKeepsSound` | gdx_dispatch/routers/jobs.py:3066-3103 | Every step, including the row `closeout_job` writes, keeps the links in a line and every run covered by its largest attestation |
| `LaborPricing.HalfUp` | gdx_dispatch/core/billing_lanes.py:64-67 | The result is the nearest cent, ties up |
| `LaborPricing.HalfEvenIsNearest` | gdx_dispatch/core/closeout_billing.py:55-56 | The other rounding: nearest, and even on every tie |
| `Closeouts.RoundUpToHalf` | gdx_dispatch/core/billing_lanes.py:81-83 | The least half hour that is not below the figure |
| `Closeouts.ManHoursCoverTheCrew` | gdx_dispatch/core/closeout_billing.py:208-217 | Nothing without hours; otherwise the billed half hours cover hours × technicians (at least one) and exceed them by less than half an hour each |
| `LaborPricing.RoundingBounds` | gdx_dispatch/core/billing_lanes.py:256-276 | Billed hours are never below hours × technicians plus day rows, and exceed them by less than half an hour per technician plus half an hour for the day rows |
| `LaborPricing.PooledRounding` | gdx_dispatch/core/billing_lanes.py:271-274 | Rounding the day rows' minutes once never bills more than rounding each row |
| `LaborPricing.FirstHourElsewhere` | gdx_dispatch/core/billing_lanes.py:182-201 | The loop's answer: the sibling hours, and carried by text, by price, by enough old hours, or at equal rates by enough hours |
| `LaborPricing.CarriedWhen` | gdx_dispatch/core/billing_lanes.py:138-152 | A line with the text, a line on today's rates at another price, 1 h or more of older lines, or at equal rates 1 h of any, each carries the first hour |
| `LaborPricing.NotCarriedWhen` | gdx_dispatch/core/billing_lanes.py:153-156 | Nothing else carries it |
| `LaborPricing.JobLaborLines` | gdx_dispatch/core/billing_lanes.py:245-364 | No lines exactly without hours or outside the service lane; otherwise the quantity is all the hours, exactly those where the first hour is carried elsewhere, and more only to bring the job to exactly 1 h; the rounded totals add up to the price; a first-hour line exactly when it is due here |
| `LaborPricing.WriteLines` | gdx_dispatch/core/billing_lanes.py:329-355 | The lines written for any quantity add up to that quantity and to its price; a first-hour line is at the first-hour price and at most 1 h, every other line at the hourly rate |
| `LaborPricing.WrittenBillThePrice` | gdx_dispatch/core/billing_lanes.py:313-355 | Whether one line or two are written, the rounded totals sum to first hour + half-up(hourly × rest) |
| `LaborPricing.LaborLinesBillThePrice` | gdx_dispatch/core/billing_lanes.py:276-355 | A build's lines bill the attested hours or the floor, at that price |
| `LaborPricing.LaborLinesBillTheHours` | gdx_dispatch/core/billing_lanes.py:276-288 | The lines' quantity is at least the attested hours, equal to them where the first hour is carried, above them only to bring the job, sibling hours included, to exactly 1 h, and never short of that |
| `LaborPricing.LaborLinesAreWellPriced` | gdx_dispatch/core/billing_lanes.py:329-355 | Positive quantities, each total the rounded product, at most one first-hour line, first and at most 1 h |
| `LaborPricing.FloorTopsUpToOneHour` | gdx_dispatch/core/billing_lanes.py:283-287 | The floor tops the job up to exactly 1 h beside sibling hours and never past it |
| `FirstHour.OneInvoiceCarries` | gdx_dispatch/core/billing_lanes.py:134-201 | After any sequence of builds, rebuilds, dropped lines, voids, deletions and rate changes, at most one live invoice carries first-hour lines, each of at most 1 h |
| `FirstHourLines.BuildAddsIff` | gdx_dispatch/core/billing_lanes.py:280-288 | Whatever the invoice already has, a build adds one more first-hour line exactly when it finds hours, unequal rates and no other carrier |
| `FirstHourLines.StepKeepsOneIff` | gdx_dispatch/core/billing_lanes.py:180-201 | From at most one first-hour line on the job, a step leaves at most one exactly unless it is a build that adds one to an invoice that has one |
| `FirstHourLines.OnceThroughoutIff` | gdx_dispatch/core/billing_lanes.py:134-201 | Over every history, the job has at most one first-hour line throughout exactly if no build does that |
| `FirstHourLines.FirstHourOncePerJob` | gdx_dispatch/core/billing_lanes.py:134-201 | Over every such history the job's live invoices end with one first-hour line at most, of at most 1 h |
| `FirstHourLines.SecondBuildChargesItAgain` | gdx_dispatch/core/billing_lanes.py:180-181 | A concrete history that ends with two first-hour lines of 1 h on one invoice |
| `FirstHourLines.OverlappingBuildsChargeTwice` | gdx_dispatch/core/billing_lanes.py:281-288 | Two builds that both look before either writes: wherever each would add the line alone, the job ends with exactly two |
| `FirstHour.BuildDefersToCarrier` | gdx_dispatch/core/billing_lanes.py:281-288 | A build writes the first-hour line only when no other live invoice has it |
| `FirstHour.CarriedBillsHourly` | gdx_dispatch/core/billing_lanes.py:329-345 | Beside a carrier a build bills exactly the attested hours, all at the hourly rate |
| `FirstHour.OldHoursCarry` | gdx_dispatch/core/billing_lanes.py:144-152 | After a rate change, beside 1 h or more of older sibling hours, a build writes no first-hour line |
| `FirstHour.RetireTakesItsHours` | gdx_dispatch/core/billing_lanes.py:172-176 | A void or deletion takes exactly the invoice's hours off the job |
| `FirstHour.JobBillsAtLeastOneHour` | gdx_dispatch/core/billing_lanes.py:283-287 | After any history at steady rates, appended builds and dropped lines included, the next build or rebuild with hours leaves the job at 1 h or more, even if earlier carriers were voided or stripped |
| `FirstHour.FreshRunsBillOneHour` | gdx_dispatch/core/billing_lanes.py:280-288 | In a run of fresh builds at steady rates the job bills at least 1 h from the first build with hours on, and nothing before it |
| `CreditPass.BilledHourlyRate` | gdx_dispatch/core/closeout_billing.py:368-383 | The lowest price of a live labor line that is not the first-hour line, with quantity and price above 0, else the shop's |
| `CreditPass.CollectHeld` | gdx_dispatch/core/closeout_billing.py:296-300 | One entry per sent, overdue or paid invoice, not deleted, that holds a row of the run, with all it claimed there, in the order of the newest row each holds |
| `CreditPass.GreedyPass` | gdx_dispatch/core/closeout_billing.py:308-335 | The loop with its early exits makes exactly the offers for the hours taken in turn |
| `CreditPass.RestatementCreditTargets` | gdx_dispatch/core/closeout_billing.py:290-335 | The whole pass; every target says of its invoice: creditable exactly if sent or overdue with an open balance, the smaller of value and balance then and else nothing, and a value that is the nearest cent to hours × rate less earlier credits |
| `CreditPass.CreditsExactlyTheExcess` | gdx_dispatch/core/closeout_billing.py:303-315 | In total max(0, billed − max(restated, 1 h less the labor elsewhere)); from each invoice at most what it claimed and still bills; newest drained first |
| `CreditPass.TakesTheExcess` | gdx_dispatch/core/closeout_billing.py:309-315 | The pass takes the excess, or everything there is |
| `CreditPass.TakesNewestFirst` | gdx_dispatch/core/closeout_billing.py:309-315 | An invoice that keeps some of its hours is the last one asked |
| `CreditPass.OffersWithinBalance` | gdx_dispatch/core/closeout_billing.py:316-334 | No offer exceeds the hours' value less earlier credits, nor the open balance; an amount is offered exactly where a credit memo is possible |
| `CreditPass.NothingOwedIff` | gdx_dispatch/core/closeout_billing.py:317-320 | Nothing is owed exactly when the hours are worth no more, to the cent, than was credited |
| `CreditPass.JobLaborCounts` | gdx_dispatch/core/closeout_billing.py:338-365 | An invoice adds its labor lines to the job's issued labor exactly if it is sent, overdue or paid and not deleted |
| `CreditPass.FirstHourKeptIff` | gdx_dispatch/core/closeout_billing.py:305-307 | When anything is taken, the job keeps 1 h of issued labor exactly under the stated condition on issued labor and restated hours |
| `CreditPass.FirstHourKept` | gdx_dispatch/core/closeout_billing.py:353-365 | It is kept on every job without negative labor |
| `CreditPass.FirstHourLostBesideNegativeLabor` | gdx_dispatch/core/closeout_billing.py:305-307 | A case where it is lost: 2 h restated to 1 h beside a sent −1.5 h line |
| `CreditAgain.OfferComesBackIff` | gdx_dispatch/core/closeout_billing.py:316-320 | After any credits, a held invoice is offered again exactly when it is asked for hours worth more, beyond earlier credits, than it was credited since |
| `CreditAgain.CreditedOffersStayAway` | gdx_dispatch/core/closeout_billing.py:284-286 | Once every offer's value is credited, for whatever reason, nothing is offered again |
| `CreditAgain.OfferedAmountComesBackIff` | gdx_dispatch/core/closeout_billing.py:318-333 | After a credit for exactly the offered amount, the offer comes back exactly when the invoice took no credit memo or its balance was below the value |
| `CreditAgain.CutShortOfferComesBack` | gdx_dispatch/core/closeout_billing.py:318-333 | A concrete offer that comes back: 100.00 owed, 50.00 open and credited |
| `ClaimRace.StepKeepsSafe` | gdx_dispatch/core/closeout_billing.py:500-518 | Every step keeps: one holder per lock, verdicts that stay true under the lock, and a stamp behind every price that went through the claim |
| `ClaimRace.RollbackLeavesNoTrace` | gdx_dispatch/core/closeout_billing.py:500-518 | A rolled-back build leaves no row, invoice or lock of its own, and everyone else's as they were |
| `ClaimRace.SeesTheCommitted` | gdx_dispatch/core/closeout_billing.py:193-205 | In every reachable state a build reads what is committed, its own stamp and invoice notwithstanding |
| `ClaimRace.PriceHoldsTheStamp` | gdx_dispatch/core/closeout_billing.py:488-525 | In every interleaving, a live invoice that prices a closeout holds its stamp exactly when it did not take the early return without the lock |
| `ClaimRace.SkippedPriceNeedsAVoid` | gdx_dispatch/core/closeout_billing.py:496-505 | In every interleaving, a build that took the early return prices hours only if an invoice stamped on a row of its run was voided between its read and its price |
| `ClaimRace.PricedOncePerCloseout` | gdx_dispatch/core/closeout_billing.py:186-205 | So two live invoices price one closeout row only around such a void |
| `ClaimRace.FreshCloseoutPricedOnce` | gdx_dispatch/core/closeout_billing.py:496-518 | With voids anywhere, a closeout that restates nothing is priced by at most one live invoice |
| `ClaimRace.BuildsAlonePriceARowOnce` | gdx_dispatch/core/closeout_billing.py:500-518 | While nothing is voided, no two invoices price the same closeout row |
| `ClaimRace.WindowPricesIff` | gdx_dispatch/core/billing_lanes.py:248-265 | From every reachable state, a build with a void in its window prices unstamped hours exactly when nothing was left, the row is free and the void leaves the run holding less than attested |
| `ClaimRace.UnheldHoursArePricedAgain` | gdx_dispatch/core/billing_lanes.py:248-265 | From every reachable state where an invoice prices the current row, free, unlocked and with hours left, the next build claims and prices them again |
| `ClaimRace.VoidInTheWindowDoubleBills` | gdx_dispatch/core/closeout_billing.py:496-505 | Wherever the window prices hours on an unlocked row, the next build prices them a second time |
| `ClaimRace.VoidBetweenReadAndPriceDoubleBills` | gdx_dispatch/core/closeout_billing.py:496-505 | Such a state is reachable: a concrete run |
| `ClaimOverlap.ApartBuildsNeverOverbill` | gdx_dispatch/core/closeout_billing.py:220-241 | In every interleaving in which builds on rows of one run keep apart, with voids and new closeouts anywhere, no run holds more than its largest attestation |
| `ClaimOverlap.StepKeepsTidy` | gdx_dispatch/core/closeout_billing.py:488-525 | What every step keeps meanwhile: runs covered, every open claim fits its closeout, nothing above it is billed |
| `ClaimOverlap.FinishingAdds` | gdx_dispatch/core/closeout_billing.py:497-518 | In every reachable state a build that finishes adds what it read to every run through its row, rows written since notwithstanding |
| `ClaimOverlap.OverlapOverbills` | gdx_dispatch/core/closeout_billing.py:497-505 | Two builds that have both read, one on a free row of the other's run: the run ends holding the newest attestation plus all the older build read |
| `ClaimOverlap.OvertakenBuildOverbills` | gdx_dispatch/routers/mobile_invoicing.py:896-916 | From every reachable state, a build overtaken by a restatement with hours and its build ends that way |
| `ClaimOverlap.RestatingUnderABuildDoubleBills` | gdx_dispatch/core/closeout_billing.py:497-505 | A concrete run without voids: 4 h held on a run that attests 2 |
| `Autodraft.OfferIsTheClaim` | gdx_dispatch/core/closeout_billing.py:846-860 | The labor a build offers itself is the labor it stamped, unless the closeout is in its own run |
| `Autodraft.BuildPricesWhatItClaims` | gdx_dispatch/core/closeout_billing.py:825-887 | On an invoice that holds no stamps, labor quantities sum to the stamped man-hours plus held minutes rounded up once: exactly those beside a carrier, and more only to bring the job to exactly 1 h |
| `Autodraft.NoLinesNoStamps` | gdx_dispatch/core/closeout_billing.py:918-962 | A build that writes no line stamps nothing |
| `Autodraft.DroppedDraftLeavesNoTrace` | gdx_dispatch/core/closeout_billing.py:1175-1185 | A fresh draft dropped for having no lines leaves every row as it was; a kept one has a line |
| `Autodraft.ClaimRoundTrip` | gdx_dispatch/core/closeout_billing.py:528-539 | Releasing a claim and claiming again takes the same hours |
| `Autodraft.RebuildRestores` | gdx_dispatch/core/closeout_billing.py:1027-1062 | Releasing an untouched draft and rebuilding from unchanged inputs restores every claim, line and total under the same number |
| `Autodraft.TotalsAddUp` | gdx_dispatch/core/closeout_billing.py:1198-1207 | Subtotal is the sum of the lines, total is subtotal plus tax, and the tax is the rounded rate on the taxable lines |
| `Autodraft.HumanLinesSurvive` | gdx_dispatch/core/closeout_billing.py:965-1062 | No sequence of machine steps changes the live lines the machine did not write |
| `DraftLines.PartLinesAre` | gdx_dispatch/core/closeout_billing.py:905-961 | Each part with an allowed source, not dismissed, unbilled, priced and with a quantity has exactly one line: its own quantity (1 if none is recorded), its price and their product; no other part has a line |
| `DraftLines.BuildStampsDueParts` | gdx_dispatch/core/closeout_billing.py:905-935 | A build stamps exactly those parts |
| `DraftLines.BuildStampsFreeDays` | gdx_dispatch/core/closeout_billing.py:816-846 | A service build stamps exactly the free rows that are day-closed, clocked out, not deleted and with minutes; no other lane stamps any |
| `DraftLines.HeldMinutesAre` | gdx_dispatch/core/closeout_billing.py:156-173 | An invoice holds the minutes of exactly such rows that name it |
| `DraftLines.NewLinesAre` | gdx_dispatch/core/closeout_billing.py:744-962 | Service: the priced labor line by line, with its quantity, price, total and tax flag; install: one piece at the flat price if there is one; office: none; then the part lines |
| `DraftLines.SiblingsAre` | gdx_dispatch/core/billing_lanes.py:169-182 | A build prices beside exactly the live attested labor lines of the job's other live invoices |
| `DraftLines.SiblingHoursAre` | gdx_dispatch/core/billing_lanes.py:188-193 | And the hours toward the floor are theirs |
| `DraftLines.TaxIsNearest` | gdx_dispatch/core/closeout_billing.py:1198-1204 | The tax is the nearest cent to rate × taxable, even on ties, and 0 without a rate |
| `DraftLines.TaxableAdds` | gdx_dispatch/core/closeout_billing.py:957-959 | Every line adds its total, and a taxable one adds it to the taxable sum |
| `DraftLines.ReleaseEmptiesIff` | gdx_dispatch/core/closeout_billing.py:977-1062 | A draft that is past draft, verified, sent, locked, paid, deleted or has a human line stays as it is; any other is emptied to zero and holds nothing |
| `DraftLines.VoidDraftIs` | gdx_dispatch/core/closeout_billing.py:1079-1089 | A void keeps the lines, takes the balance and gives every claim back |
| `DraftLines.TouchedDraftsStay` | gdx_dispatch/core/closeout_billing.py:965-1011 | The machine neither empties nor voids a draft a person has touched |
| `DraftLines.NewDraftIs` | gdx_dispatch/core/closeout_billing.py:1133-1207 | Beside a live invoice nothing is drafted; a kept draft has its number, is untouched, and its totals are those of its lines |
| `BillingStore.Store.ClaimDayRows` | gdx_dispatch/core/closeout_billing.py:137-153 | Stamps exactly the free rows that are day-closed, clocked out, not deleted and with minutes, in place |
| `BillingStore.Store.HeldDayMinutes` | gdx_dispatch/core/closeout_billing.py:156-173 | The minutes of the day rows the invoice holds |
| `BillingStore.Store.ClaimCloseoutHours` | gdx_dispatch/core/closeout_billing.py:488-525 | Stamps the closeout with what it bills exactly when hours are left and no live invoice holds it |
| `BillingStore.Store.ReleaseDayRows` | gdx_dispatch/core/closeout_billing.py:542-560 | Afterwards no day row or closeout names the invoice; every other row, all minutes and all recorded figures are as they were |
| `BillingStore.Store.ClaimAndLineParts` | gdx_dispatch/core/closeout_billing.py:918-961 | Claims exactly the billable parts, one line each, with the running totals |
| `BillingStore.Store.BuildServiceLabor` | gdx_dispatch/core/closeout_billing.py:810-860 | Claims first, then prices what is held |
| `BillingStore.Store.BuildCloseoutLines` | gdx_dispatch/core/closeout_billing.py:744-962 | The whole builder, in place: rows, lines and returned totals |
| `BillingStore.Store.ReleaseUntouchedAutodraft` | gdx_dispatch/core/closeout_billing.py:1039-1062 | Empties the draft and frees its claims exactly while the machine still owns it |
| `BillingStore.Store.VoidUntouchedAutodraft` | gdx_dispatch/core/closeout_billing.py:1065-1089 | Voids the draft; it holds nothing afterwards |
| `BillingStore.Store.AutodraftForCloseout` | gdx_dispatch/core/closeout_billing.py:1119-1207 | Ineligible: nothing changes; reuse: rebuilt in place; otherwise a new draft, or no draft at all |
| `BillingStore.PriceHeldLabor` | gdx_dispatch/core/closeout_billing.py:854-860 | The pricing loop on what the invoice holds is the specified labor |
| `AuditChain.Tip` | gdx_dispatch/core/audit.py:626-634 | The chained row last in (created_at, id), if there is one |
| `AuditRuns.NewRowBindsItsText` | gdx_dispatch/core/audit.py:634-667 | The row written after a tip follows it, is strictly later than it whatever the clock says, and has the digest the verifier expects |
| `AuditText.RowDataIs` | gdx_dispatch/core/audit.py:1024-1030 | The bound text: tenant, actor, action, entity, details and request joined with colons, the older columns filling in for empty ones |
| `AuditText.WriterBindsTheEvent` | gdx_dispatch/core/audit.py:626-667 | The writer binds the event's own text, stores the event, follows the tip, and takes the clock's time or the next one past the tip |
| `AuditText.ChangedFieldChangesTheText` | gdx_dispatch/core/audit.py:1029-1030 | A change of one field alone always changes the bound text |
| `AuditText.WalkIs` | gdx_dispatch/core/audit.py:1044-1051 | The walk reads a row's digest, or the older column where it is empty, and compares it with the text after the row before |
| `AuditChain.VerifyAuditChain` | gdx_dispatch/core/audit.py:1040-1051 | The walk passes exactly when every row has its text's digest and follows the row before it |
| `AuditChain.AuditChainReport` | gdx_dispatch/core/audit.py:1086-1137 | The loop and its dictionary compute the counts the report is meant to be |
| `AuditChain.ScanRows` | gdx_dispatch/core/audit.py:1087-1096 | Bad and dangling rows counted, rows grouped by the digest they follow |
| `AuditShape.CleanIffShaped` | gdx_dispatch/core/audit.py:1072-1137 | All-zero exactly when every chained row has its digest, follows a row that exists and shares its predecessor with none |
| `AuditShape.CleanReportIsOnePath` | gdx_dispatch/core/audit.py:1072-1137 | A clean report means the chained rows are one linear path that covers every row |
| `AuditAlert.BrokenExactly` | gdx_dispatch/core/audit.py:1086-1137 | On every log, broken exactly when a row's digest is wrong or its predecessor missing, or two rows share a predecessor and one of them is not older than every marker, or a start after the first is not |
| `AuditAlert.BrokenWithoutMarkerIff` | gdx_dispatch/core/audit.py:1086-1137 | Without a marker, broken exactly when the rows are not well shaped |
| `AuditAlert.ForkIs` | gdx_dispatch/core/audit.py:1103-1112 | A fork is listed exactly for a digest two rows follow, with their number, and known exactly if all of them are older than every marker |
| `AuditAlert.KnownBreaksIff` | gdx_dispatch/core/audit.py:1113-1134 | No known breaks exactly without old forks and old restarts |
| `AuditAlert.AlertExactly` | gdx_dispatch/core/audit.py:1140-1144 | On every log the alert goes off exactly when the report is broken, or the walk fails although every row is chained and no old break explains it |
| `AuditShape.DeletionNoticedIff` | gdx_dispatch/core/audit.py:1090-1096 | Deleting a row of a clean log is noticed exactly when another row follows it |
| `AuditShape.AlterationNoticedIff` | gdx_dispatch/core/audit.py:1024-1030 | Altering a row without re-digesting is noticed exactly when its bound text changes |
| `AuditShape.RedigestNoticedIff` | gdx_dispatch/core/audit.py:1090-1096 | Altering and re-digesting is noticed exactly when the text changes and another row follows |
| `AuditShape.SameTipSameHistory` | gdx_dispatch/core/audit.py:1024-1051 | Two clean logs that end in the same digest have the same row texts in the same order, so no rewrite of any number of rows keeps the tip |
| `AuditShape.FieldsCanTradeAColon` | gdx_dispatch/core/audit.py:1029-1030 | Two different rows with the same bound text |
| `AuditShape.UnchainedRowsOnlyCount` | gdx_dispatch/core/audit.py:1117-1124 | An unchained row that is not the marker changes only the unchained count |
| `AuditRuns.CommittedRowsAreOneChain` | gdx_dispatch/core/audit.py:525-670 | For every interleaving of transactions and any clocks, the committed rows are one chain with strictly increasing times |
| `AuditRuns.CommittedRowsStay` | gdx_dispatch/core/audit.py:558-670 | Nothing committed is ever lost |
| `AuditRuns.CommitAddsItsRows` | gdx_dispatch/core/audit.py:525-540 | A commit adds exactly the transaction's rows and a rollback none; both free its lock |
| `AuditRuns.AppendWritesAndLocks` | gdx_dispatch/core/audit.py:625-670 | Whoever can get the lock appends a row that follows the tip it sees, and keeps the lock |
| `AuditRuns.WalkPassesIff` | gdx_dispatch/core/audit.py:1033-1051 | Over every history the ordered walk passes exactly when no row was written outside the chain |
| `AuditRuns.NeverAlerts` | gdx_dispatch/core/audit.py:1140-1144 | Over every history the report is clean and the alert stays silent, unchained rows or not |
| `PaymentRepair.BuildSubstancePlan` | tools/qb_payment_substance_repair.py:251-346 | The nested loops build the plan that acting on splits, then backfills, builds |
| `PaymentRepair.Ledger.ApplyPlan` | tools/qb_payment_substance_repair.py:406-440 | Resets in order on live rows, then the inserts |
| `RepairProofs.PlanFacts` | tools/qb_payment_substance_repair.py:259-340 | Resets are exactly the over-allocated rows QB can settle; every insert has its reason; no insert repeats a pair or an existing reference; everything wanted is settled |
| `RepairProofs.AfterRows` | tools/qb_payment_substance_repair.py:406-440 | The table after the plan: each old row repaired, then the inserted rows |
| `RepairRows.RunChangesOnlySplits` | tools/qb_payment_substance_repair.py:137-151 | A run changes only live rows more than a cent above their invoice's total whose mapped payment QB allocates to that invoice: they get that amount and reference and keep all else |
| `RepairRows.WantedIff` | tools/qb_payment_substance_repair.py:154-170 | What a run looks for: allocations to live mapped invoices that are paid or partly paid without a live row, and to a split row's other invoices |
| `RepairRows.RunInsertsOnlyWhatIsMissing` | tools/qb_payment_substance_repair.py:290-340 | It inserts only those, at QB's amount and where no live row has the pair; and each of them ends with a row, a reset row or an insert |
| `RepairResults.RefsAfter` | tools/qb_payment_substance_repair.py:184-189 | After the repair a pair has a live row exactly if it was planned or an untouched row carries it |
| `RepairResults.SecondRunInsertsNothingIff` | tools/qb_payment_substance_repair.py:251-346 | The second run inserts nothing exactly when the books are not stale |
| `RepairResults.SecondRunChangesNothingIff` | tools/qb_payment_substance_repair.py:406-440 | Apply, re-read, apply again leaves the rows unchanged exactly when the books are not stale |
| `RepairResults.AgreeingLinksAreNeverStale` | tools/qb_payment_substance_repair.py:137-151 | Where map and reference agree, a second run never changes anything |
| `RepairResults.ThirdRunChangesNothing` | tools/qb_payment_substance_repair.py:406-440 | From any books, whatever two runs leave, a third changes no row |
| `RepairResults.StaleBooksExist` | tools/qb_payment_substance_repair.py:280-310 | Concrete books on which a second run does insert |
| `RepairResults.ExactAllocation` | tools/qb_payment_substance_repair.py:265-310 | A QB payment with one over-allocated mapped row ends with exactly one row per allocated invoice, at QB's amount |
| `RepairPreview.GroupSums` | tools/qb_payment_substance_repair.py:357-375 | Each row counts once for each QB payment it is tied to by map or reference |
| `RepairPreview.AppliedIsTheSum` | tools/qb_payment_substance_repair.py:386-386 | What QB applied is the sum of the payment's allocations |
| `RepairPreview.DetectOverSummed` | tools/qb_payment_substance_repair.py:349-399 | One report, in id order, for exactly the payments that have rows, that QB knows and whose rows exceed its allocations by more than a cent, with the preview |
| `RepairPreview.SortedIds` | tools/qb_payment_substance_repair.py:377-377 | The keys, each once, in ascending order |
| `RepairPreview.PreviewIsTrueIff` | tools/qb_payment_substance_repair.py:389-393 | The real sum after apply is the preview less the rows moved to another payment's reference |
| `RepairPreview.MovedRowsBreakThePreview` | tools/qb_payment_substance_repair.py:389-393 | Concrete books on which the preview is 900 too high, whatever is read and inserted |
| `RepairPreview.AgreeingLinksMoveNothing` | tools/qb_payment_substance_repair.py:362-366 | Where map and reference agree nothing moves, so the preview is right |
| `Containment.Session.ContainedRead` | gdx_dispatch/core/database.py:330-344 | Savepoint, body, release or roll back, for every body |
| `Containment.PropagatedFailureIsContained` | gdx_dispatch/core/database.py:330-344 | A failure that leaves a block of reads leaves pending work and transaction as they were |
| `Containment.ContainedReadRestoresIff` | gdx_dispatch/core/database.py:330-344 | A block of reads restores the session for every outcome of its reads exactly if its text cannot end dead |
| `Containment.DeadEndIff` | gdx_dispatch/core/database.py:330-334 | The text can end dead exactly if it has a reachable swallowed block with an uncontained failure and only swallowed blocks behind it |
| `Containment.SwallowedFailureKillsTheBlock` | gdx_dispatch/core/database.py:330-334 | The smallest such block: it raises and leaves the transaction aborted |
| `Containment.DisciplinedBlocksRestore` | gdx_dispatch/core/database.py:330-344 | A block that swallows database failures only through blocks of its own restores the session |
| `Containment.FailingBlockDropsWhatWasSent` | gdx_dispatch/core/database.py:335-344 | Every failing block, over any pending work: drops exactly what was sent inside it and keeps what is pending; nothing else goes missing |
| `Containment.UnflushedWorkSurvives` | gdx_dispatch/core/database.py:335-344 | A body that never flushes loses nothing, and the block warns exactly if it staged work |
| `Containment.FlushedWorkIsLost` | gdx_dispatch/core/database.py:335-344 | The first flush inside a failing block takes with it all that was pending, the caller's earlier work included |
| `Containment.DisciplinedProgramsCommit` | gdx_dispatch/core/database.py:330-344 | A program that swallows database failures only through the block commits everything it holds |
| `Containment.Session.LogAuditEvent` | gdx_dispatch/core/audit.py:668-669 | Nothing becomes durable; on success nothing is pending and the trail row stands behind all that was; raised exactly when the transaction was dead or a row was refused, and then nothing moved |
| `Containment.Session.AuditOrRollbackInPlace` | gdx_dispatch/core/audit.py:734-751 | Nothing becomes durable and the transaction is alive: with everything and the trail row sent, or with nothing left if it raised |
| `Containment.Session.AuditPrecommit` | gdx_dispatch/core/audit.py:1002-1021 | Nothing becomes durable; unless the caller's own flush raised, nothing is pending and flushed grew by it and, if staged, the trail row; staged exactly when the transaction was alive and the row was not refused |
| `Containment.ChangeAndTrailLandTogether` | gdx_dispatch/core/audit.py:702-751 | After commit the change is durable exactly when its trail row is, and exactly when nothing was refused |
| `Containment.ChangeSurvivesARefusedTrail` | gdx_dispatch/core/audit.py:1002-1021 | A refused trail row never costs the change, and the row is never durable without it |
| `Denylist.WorkerList.Add` | gdx_dispatch/core/denylist.py:120-161 | The token is in the local map at its expiry, no other key changes anywhere, and a changed Redis entry carries the expiry and ends after now and no later than it |
| `Denylist.WorkerList.Contains` | gdx_dispatch/core/denylist.py:163-221 | A denial means an expiry after now, the worker's own or, on a miss, Redis's, now in the map; otherwise the token is not in the map; no other key changes |
| `Denylist.WorkerList.PurgeExpired` | gdx_dispatch/core/denylist.py:223-241 | Afterwards an entry is there, unchanged, exactly if it was there and expires after now; the others are counted |
| `Denylist.DenialHasACause` | gdx_dispatch/core/denylist.py:163-221 | Across any number of workers and Redis failures, a denial has an `add` with an expiry still to come |
| `Denylist.OwnRevocationHolds` | gdx_dispatch/core/denylist.py:135-137 | Under a clock that never steps back, a worker denies until the expiry of its own latest add |
| `Denylist.RevocationReachesEveryWorker` | gdx_dispatch/core/denylist.py:145-153 | After an add that reached Redis, a worker without an entry denies exactly until the whole-second TTL ends, within a second of the expiry |
| `DriveTime.GoogleDistanceMatrix` | gdx_dispatch/core/drive_time.py:65-97 | The diagonal behind an absent first leg; all absent when the service fails |
| `DriveTime.NoCellNoLeg` | gdx_dispatch/core/drive_time.py:82-97 | Leg k is the value of the cell in row and column k−1 if it is there and OK, and absent otherwise or when the service fails |
| `DriveTime.BlankIff` | gdx_dispatch/core/drive_time.py:143-149 | A stop is blank exactly if it strips to nothing |
| `DriveTime.DriveTimes` | gdx_dispatch/core/drive_time.py:135-158 | The segment loop returns, for each stop, the leg of its own unbroken run or none |
| `DriveTime.NoBlankIsOneRun` | gdx_dispatch/core/drive_time.py:143-144 | Without blank stops, splitting is the one direct call |
| `DriveTime.LegIsTheDrive` | gdx_dispatch/core/drive_time.py:145-158 | For a service whose diagonal cells give the drives, leg k is the drive from stop k−1 to stop k when both have an address, and absent otherwise; leg 0 always |
| `ClientHost.ResolveClientHost` | gdx_dispatch/core/client_ip.py:133-149 | For a trusted peer the rightmost hop outside the upstream set, or the leftmost if all are in it; for an untrusted peer the header has no effect at all |
| `ClientHost.PickIsRightmost` | gdx_dispatch/core/client_ip.py:146-149 | It is the rightmost hop outside the upstream set, or the leftmost if all are upstream |
| `ClientHost.PrependedTextIsIgnored` | gdx_dispatch/core/client_ip.py:143-149 | Text prepended to a header whose suffix holds a hop outside the upstream set never changes the answer |
| `ClientHost.SplitAtComma` | gdx_dispatch/core/client_ip.py:143-143 | Splitting at a comma splits the header into the two headers' parts |
| `ClientHost.HopsAre` | gdx_dispatch/core/client_ip.py:143-143 | The hops are the parts between commas without whitespace and port, blank ones skipped |
| `ClientHost.PortIsStripped` | gdx_dispatch/core/client_ip.py:128-129 | A host with a port loses the port |
| `ClientHost.BracketsAreStripped` | gdx_dispatch/core/client_ip.py:125-127 | A bracketed address is what the brackets hold, whatever follows |
| `ClientHost.BareAddressStays` | gdx_dispatch/core/client_ip.py:123-130 | Any other text stays as it is |
| `Basics.StripIs` | gdx_dispatch/core/client_ip.py:143-143 | Stripping takes the whitespace around a text and nothing else |

## Left out

- ClaimOverlap.ApartBuildsNeverOverbill: bounds the hours live invoices hold by their stamps. A void inside a build's window can make the priced figure larger than the stamped one, because the pricing reads again; that the two agree is stated for builds that run alone (`Autodraft.BuildPricesWhatItClaims`).
- ClaimRace.StepKeepsSafe: one job's rows, a void as one step that waits for the locks of the rows it releases, and a build that always picks the current closeout, as every caller does.
- Autodraft.BuildPricesWhatItClaims: excludes a closeout inside its own `supersedes` cycle, where `Autodraft.OfferIsTheClaim` says what happens instead; so do `Autodraft.NoLinesNoStamps` and `Autodraft.DroppedDraftLeavesNoTrace`.
- FirstHour.JobBillsAtLeastOneHour: needs steady rates and lines as a build wrote them; with edited quantities or a rate change the job can end below 1 h.
- FirstHourLines.OnceThroughoutIff: builds are single steps here; builds that interleave are covered by `FirstHourLines.OverlappingBuildsChargeTwice`.
- CreditAgain.OfferComesBackIff: a credit that settles the invoice may change its status in the source; statuses stay as they were here.
- Closeouts.RoundUpToHalf: exact arithmetic; the source goes through a float. The same holds for part totals.
- RepairResults.ExactAllocation: the invoice index and the invoice map are inverse to each other, which the table's unique constraints say (gdx_dispatch/core/quickbooks.py:60-61).
- BillingStore.Store.VoidUntouchedAutodraft: the status change goes through the ledger in the source; the ledger's own checks and postings are not modelled.
- The SQL and ORM layers: tables are sequences or maps, an UPDATE is one step except in `ClaimRace` and `AuditRuns`.
- Tax-rate resolution, invoice numbering, paid-to-date, lane lookup, the install price and the accepted-estimate test: their answers are inputs.
- `_restates` on rows from before the flag existed, which asks the audit trail: a given Boolean on each row.
- Line descriptions and tenant templates, including a template spelled exactly like the first-hour text; raw man-hours, day counts and the ids a line carries back.
- Un-voiding an invoice: a voided or deleted invoice stays gone in `CloseoutRuns`.
- SHA-256: the digest is an injective term over predecessor and row text, so the missing separator between the two is idealised away along with collisions.
- `verify_audit_chain` restricted to one entity, which skips rows and cannot follow links; NULL `prev_hash`.
- Installing the append-only guard on the audit table, `audit_best_effort`, and everything specific to SQLite.
- The repair tool's issue texts, void list, payment dates and audit rows, and fetching the QB index: the index is an input.
- Parsing of network lists and addresses: membership in a network set is a predicate.
- The drive-time cache and the provider switch.
- Dispatch boards, estimates, attachments, email, AI routers, settings and API keys: plumbing with no state or arithmetic of its own.
