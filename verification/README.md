# Verification of the Stripe-to-NAV bridge

This project models the two parts of the bridge that carry its promises and proves
what they keep.

**The submission protocol.** Webhook deliveries store one row per Stripe event;
any number of worker replicas claim rows under TTL leases, submit them to NAV,
poll, back off, wait for a parent row and release. `Submissions`, `Mutators`,
`Verdicts`, `Backoff`, `StoreInMem`, `Worker` and `Handler` are the code, in its
own imperative form; `Effects` tells what a pass does to its row in the row's own
fields. `Protocol` is the interleaved system: every store call, NAV answer, clock
tick and crash is one step, and a lifecycle may act on an arbitrarily old snapshot. `Safety`, `History`, `Guarantees`, `AtMostOnce`, `Twins`,
`Punctual`, `Duplicates`, `Leases`, `Queue` and `Progress` prove what all its runs
keep. `Worker.Worker.RunLifecycle`, `Progress.ClaimBatchRefines` and
`Handler.DeliveryRefines` tie the code to the steps.

**The exact-money mapper.** Stripe minor units become exact rationals, are split
into net and VAT, bucketed by printed rate, converted to forints, rounded half
away from zero, printed, parsed back and reconciled. `Decimals` and `Currency`
hold printer, parser and rounding; `Mapping` says what a document is; `Mapper` is
the code that builds it with buckets updated in place, and says what an invoice must
have; `Emitted` reads a document field by field; `Invoices` is the STORNO
clone. `Conservation`, `Permutation`, `Rates`, `Reversals`, `StornoLaws`,
`ForintResidue`, `VoidedInvoices` and `VoidRuns` prove the laws, the last two across
two webhook deliveries and over whole runs, and `Determinism` that every accepted
invoice has one document and no other. `TaxIds` is the customer classification.

## What turned out not to hold as one would expect

- **A lease of one's own around every submit is not enough for at-most-once.**
  `ReleaseClaim` and `RenewClaim` compare the claimer only, so a lifecycle whose
  lease has run out can release a row its own worker is again at work on, or renew
  itself back to work on an old snapshot. What does suffice is a rule every worker
  can keep by itself: renew and release only inside one's own unexpired lease
  (`Punctual.PunctualSubmitsOnce`). Of its two halves neither can be dropped
  (`Duplicates.PunctualityIff`).
  Behind it are four interferences, named by the harm they do: releasing a pending row
  under a working twin, renewing beside one, renewing an old plan to submit beside
  another plan, and renewing one after NAV has answered a submit. Runs that avoid
  these four, late calls or not, have at most one answered submit per row as well
  (`AtMostOnce.AtMostOneSubmit`), and a step that keeps to its lease breaks the
  invariant just when it is one of the four (`AtMostOnce.StaysCleanIff`). Which sets of
  late calls and interferences suffice is settled exactly: those that rule out
  something of each of six pairs, each pair having a leased run that commits nothing
  else and two answered submits (`Duplicates.AtMostOnceIff`,
  `Duplicates.EachPairDuplicates`). One of these runs has no live twin at all, so
  mutual exclusion, which `Twins.MutualExclusionIff` ties exactly to live twins, is
  not the same property.
- **A row's printed rate need not be the rate of its own sums** once positive and
  negative lines share a bucket: `Rates.MixedSignsShiftTheRate`. For lines of one
  sign it always is: `Rates.RowRateIsItsOwn`.
- **A storno does not cancel the forints of every invoice at a rate with more than
  six decimals**: at a given rate it cancels them for all accepted invoices exactly when
  the rate has at most six (`ForintResidue.ForintsAlwaysCancelIff`). The further out
  the decimals, the larger the invoice it takes to show; at 400.0000005 one line of
  three million euros leaves a forint (`ForintResidue.OneLineLeavesAForint`). The residue
  is bounded by `StornoLaws.StornoResidue`. In invoice currency a storno cancels exactly
  when no amount is the int64 minimum, whose negation is itself:
  `StornoLaws.StornoCancelsIff`.
- **Printing, parsing and printing again** changes exactly one kind of string, the
  minus zero that `FloatString` prints for small negatives:
  `Decimals.PrintParsePrintIff`.
- **The delay grows with every attempt only under a low enough cap**, because
  `powInt` clamps at 2^60: `Backoff.NeverShrinksIff`, `Backoff.FollowsIdealIff`.

## Reading guide

Times are natural numbers of nanoseconds and the clock never goes back. Money is
`real`, as `big.Rat` is exact. The world is a parameter: which calls fail, what
NAV answers, what the clock reads, how an event decodes and what the rate provider
says are inputs of the methods or of the steps. Strings are the strings NAV
receives; results about them are stated on the numbers they denote, except for the
VAT rate, which is a map key.

## Model

| member | source | states |
|---|---|---|
| `Submissions.Draft.Transition` | internal/submission/types.go:92-106 | a transition succeeds exactly when the table allows it, and a refused one changes nothing |
| `Submissions.TransitionRule` | internal/submission/types.go:64-106 | the table as a law: end states are final, a status may only stay (pending, processing) or climb, and a pending row cannot be polled or accepted |
| `Submissions.EvolvesTransitive` | internal/submission/types.go:64-115 | "same origin, rank not lower, end state kept, id kept once it left pending" composes over any number of updates |
| `Mutators.Apply` | worker.go:444-466 | every mutator, run on a draft as the worker runs it, either yields its command's row or fails its transition |
| `Mutators.CommandEvolves` | worker.go:505-511 | however stale the decision behind it, a recorded command keeps origin, rank, end state and transaction id |
| `Mutators.CommandEffect` | worker.go:624-654 | only a successful submit leaves pending for submitted or writes an id, only a finished poll accepts, only a failed parent aborts, only a retriable submit failure keeps pending |
| `Mutators.CommandDueTime` | worker.go:632-672 | no command pushes the next attempt further out than the largest configured delay |
| `Verdicts.OverallStatus` | worker.go:593-619 | the loop with its early return computes the verdict on all of NAV's answers |
| `Verdicts.FinalVerdict` | worker.go:593-619 | the verdict is final exactly when there is an answer and all of them are FINISHED or DONE |
| `Verdicts.AbortedVerdict` | worker.go:601-603 | the verdict is ABORTED exactly when some answer is |
| `Verdicts.VerdictIgnoresOrder` | worker.go:593-619 | final and aborted verdicts do not depend on the order of the answers |
| `Backoff.PowInt` | worker.go:675-687 | the loop with its early exit computes the clamped power |
| `Backoff.PowerOfTwo` | worker.go:675-687 | powInt(2, e) is 2 to the power min(max(e, 0), 60) |
| `Backoff.BackoffFor` | worker.go:656-673 | the delay never exceeds maxBackoff, for any attempts and jitter |
| `Backoff.RetryDelay` | worker.go:656-673 | the delay is base doubled once per earlier attempt, at most sixty times, times the jitter, cut to maxBackoff and truncated |
| `Backoff.FollowsIdealIff` | worker.go:656-687 | the clamp is invisible for all attempts and jitters exactly when maxBackoff is at most 0.8 * 2^60 * base |
| `Backoff.NeverShrinksIff` | worker.go:656-673 | the delay never shrinks from one attempt to the next, for any two jitter draws, exactly under the same cap |
| `StoreInMem.Store.Put` | internal/storeinmem/store.go:33-44 | stores a new event id only; a duplicate is reported and changes nothing |
| `StoreInMem.Store.Get` | internal/storeinmem/store.go:47-58 | returns the stored row or not found |
| `StoreInMem.Store.UpdateStatus` | internal/storeinmem/store.go:61-77 | all of a command's writes or, when it is refused, none of them |
| `StoreInMem.Store.ClaimBatch` | internal/storeinmem/store.go:83-135 | every returned row was open, due and free or expired, and is stamped with the lease; every such row is returned, or no older than any returned one when the limit is used up; nothing else changes |
| `StoreInMem.ClaimedWereDue` | internal/storeinmem/store.go:97-110 | nobody finished, nobody ahead of its due time and nobody held by another is claimed |
| `StoreInMem.DueAreClaimed` | internal/storeinmem/store.go:111-134 | a due and free row is left only for rows no younger, when the limit is used up |
| `StoreInMem.OldestAreClaimed` | internal/storeinmem/store.go:97-134 | stamping a prefix of the sorted eligible rows leaves no older eligible row behind |
| `StoreInMem.Store.Candidates` | internal/storeinmem/store.go:97-120 | the filtering scan finds exactly the eligible rows, whatever the map order |
| `StoreInMem.Store.RenewClaim` | internal/storeinmem/store.go:138-163 | extends the lease of the recorded claimer only |
| `StoreInMem.Store.ReleaseClaim` | internal/storeinmem/store.go:166-184 | clears the hold of the recorded claimer only |
| `StoreInMem.Store.FindByInvoiceNumber` | internal/storeinmem/store.go:188-202 | returns exactly the rows of an invoice number, oldest first |
| `Queue.ClaimRunOutcome` | internal/storeinmem/store.go:83-135 | any series of ClaimBatch calls at one clock reading hands out distinct eligible rows oldest first across all batches, and leaves the rest untouched |
| `Queue.ClaimRunCount` | internal/storeinmem/store.go:83-135 | such a series hands out as many rows as its limits ask for, as long as there are eligible ones |
| `Queue.BatchesDisjoint` | internal/storeinmem/store.go:83-135 | no row is in two batches of such a series |
| `Queue.DrainedIff` | internal/storeinmem/store.go:83-135 | calls with one limit drain the queue exactly when there are at least ceil(eligible/limit) of them |
| `Leases.GrantsAreFenced` | internal/storeinmem/store.go:105-184 | between two grants of a row lies a release, or the expiry of the lease last granted or renewed |
| `Leases.OthersAreLockedOut` | internal/storeinmem/store.go:138-184 | once a row is granted to one worker, every renewal or release by another fails until that one is granted it again |
| `Leases.HoldHistory` | internal/storeinmem/store.go:105-184 | since its grant a row has been released or still carries the last lease it was given |
| `Safety.RunGrows` | internal/submission/types.go:64-115 | over every interleaving no row is lost, ranks never fall, end states and submitted ids are fixed |
| `Safety.RowChange` | internal/storeinmem/store.go:33-184 | the complete list of ways one step can change a stored row |
| `Safety.PhaseChange` | worker.go:339-402 | the complete list of ways one step can move a lifecycle |
| `Safety.RecordKeepsRow` | internal/storeinmem/store.go:61-77 | recording a backed command on a newer row keeps everything the row must have |
| `Safety.StepKeepsConsistent` | worker.go:301-708 | one step of any kind keeps the whole invariant of rows, snapshots, attempts and deliveries |
| `Safety.RunKeepsConsistent` | worker.go:301-708 | so does every run |
| `Guarantees.StatusAndIdAreMonotone` | internal/submission/types.go:64-106 | a pending row has no transaction id, the id is written at most once and never changes, status rank never decreases |
| `Guarantees.IdWrittenOnlyBySubmit` | worker.go:505-511 | the id appears only in the step that records a successful submit and moves pending to submitted |
| `Guarantees.AcceptedWasConfirmed` | worker.go:514-558 | an accepted row carries an id for which NAV answered a poll with results that are all FINISHED or DONE |
| `Guarantees.SubmittedAfterParent` | worker.go:436-469 | NAV is called for a row with a parent only when that parent is accepted |
| `Guarantees.AbortedWasNeverSent` | worker.go:453-461 | an aborted row has a rejected or aborted parent, no id, and no successful attempt |
| `Guarantees.InFlightWasAnswered` | worker.go:505-511 | a row in flight carries an id that NAV returned for one of its own attempts |
| `History.AcknowledgedMeansStored` | stripenav.go:279-329 | after a 200 for an eligible event its row is stored from then on, unless it can never be mapped |
| `History.OnlyTheWinnerStored` | stripenav.go:408-426 | a delivery answered 503, or any other that did not win the Put, has stored nothing |
| `History.OneRowPerEvent` | internal/storeinmem/store.go:33-44 | duplicates and Get-then-Put races leave one row and one put per event id |
| `History.AttemptsSendTheFirstPut` | worker.go:693-708 | every submit attempt for an event sends the operation and payload of its first Put |
| `History.AttemptsCarryTheDocument` | worker.go:693-712 | every submit carries the stored document, under the stored operation or CREATE when there is none |
| `History.ParentsAreAcyclic` | stripenav.go:369-374 | no row is its own ancestor, at any depth |
| `History.AbortedFromRejected` | worker.go:453-461 | an aborted row descends, through aborted rows only, from a rejected one |
| `AtMostOnce.AtMostOneSubmit` | worker.go:471-512 | in every run whose submit windows lie in their own leases and which avoids the four interferences, NAV answers at most one submit per row, for any mix of failures, lapses, re-scans, late exits and crashes |
| `Punctual.PunctualSubmitsOnce` | worker.go:411-429 | in every run whose submit windows, renewals and releases lie inside the caller's own unexpired lease, NAV answers at most one submit per row, and every lifecycle inside its lease is its row's holder and alone there |
| `Punctual.PunctualRunAvoids` | worker.go:301-512 | such calls meet no live twin and revive no plan, so whole runs of them avoid the four interferences and keep all leases sound |
| `AtMostOnce.StaysCleanIff` | internal/storeinmem/store.go:138-184 | a step that keeps to its lease keeps the invariant exactly when it is none of the four interferences |
| `AtMostOnce.RunKeepsClean` | worker.go:301-512 | the invariant behind it, over whole runs: one worker at most on a pending row, recorded as its holder, and no plan to submit after a success |
| `AtMostOnce.OrdinaryStepsAvoid` | worker.go:411-429 | renewals in time, and releases with nobody else at work, never interfere |
| `AtMostOnce.WorkerIsAlone` | internal/storeinmem/store.go:105-115 | a lifecycle at work on a pending row inside its lease is the recorded holder and the only one at work |
| `Twins.ReleaseSoundIff` | internal/storeinmem/store.go:166-184 | a release keeps everybody's lease sound exactly when no live lifecycle of the same claimer holds the row |
| `Twins.RenewSoundIff` | internal/storeinmem/store.go:138-163 | so does a renewal; this is about leases, not about what the renewed lifecycle goes on to submit |
| `Twins.MutualExclusionIff` | internal/storeinmem/store.go:105-184 | in a run every live lifecycle is its row's recorded holder and alone there, throughout, exactly when nobody renews or releases beside a live twin |
| `Duplicates.ReleaseDuplicates` | worker.go:324-331 | a late exit frees the row under its working twin, another worker claims it, and NAV answers both |
| `Duplicates.RenewalDuplicates` | worker.go:411-429 | a late renewal beside a working twin: NAV answers both |
| `Duplicates.SecondPlanDuplicates` | worker.go:411-429 | a late renewal revives a plan beside another one on a rejected row: NAV answers both |
| `Duplicates.StaleRenewalDuplicates` | worker.go:411-429 | with nobody else at work, a late renewal revives a plan on a row that was already submitted: NAV answers again |
| `Duplicates.RenewedReleaseDuplicates` | worker.go:324-331 | a late renewal on the way out, then a release inside that new lease, frees the row under the twin: NAV answers both |
| `Duplicates.BackdatedRenewalDuplicates` | internal/storeinmem/store.go:138-184 | after a late release, a renewal inside its own lease but with an older clock reading cuts the new hold short: NAV answers both |
| `Duplicates.EachPairDuplicates` | internal/storeinmem/store.go:138-184 | for every pacing, every storable parentless row and each of six pairs of missteps, a leased run without any other has two answered submits |
| `Duplicates.AtMostOnceIff` | internal/storeinmem/store.go:138-184 | of late calls and interferences, avoiding a set gives at-most-once on all leased runs exactly when it rules out something of each pair |
| `Duplicates.PunctualityIff` | worker.go:411-429 | of the two rules a worker can keep by itself, no late renewal and no late release, both are needed and together they suffice; of the four interferences, all four |
| `Progress.NoRowIsFarAhead` | worker.go:444-466 | in every reachable state a row is due within the largest delay and held at most one lease ahead |
| `Progress.SilentRowBecomesEligible` | internal/storeinmem/store.go:97-120 | a non-terminal row whose holder has been silent that long is claimable, whatever else happened |
| `Progress.ClaimReachesRow` | internal/storeinmem/store.go:97-134 | ClaimBatch returns an eligible row once its limit covers the eligible rows no younger than it |
| `Progress.ClaimBatchRefines` | internal/storeinmem/store.go:83-135 | a batch is a run of single claims with the same rows at the end |
| `Worker.Worker.ParentReady` | worker.go:431-471 | the worker goes ahead exactly when the row has no parent id, or the lookup succeeds and finds the parent accepted; otherwise the reason is recorded |
| `Worker.Worker.AttemptSubmit` | worker.go:471-512 | records the command that NAV's answer, or the lack of a payload, calls for |
| `Worker.Worker.PollStatus` | worker.go:514-558 | records the command that the verdict on the stored transaction calls for |
| `Worker.Worker.Act` | worker.go:359-369 | the switch at the head of the loop, as one update of the store |
| `Worker.Worker.Pass` | worker.go:354-400 | one pass acts, re-reads and decides as steps of the system, and stays exactly when the parent let it, the re-read worked and the row is open and due within a poll interval |
| `Worker.Worker.RenewLease` | worker.go:411-429 | a renewal extends the stored lease or, when it fails, loses the claim |
| `Worker.Worker.RunLifecycle` | worker.go:301-403 | the whole lifecycle, with renewals between passes and a release that may fail, is a run of steps from claim to exit, after which a successful release has left the row unheld by this worker |
| `Worker.BeatRefines` | worker.go:411-429 | renewing, or leaving because it failed, are steps of the system |
| `Worker.ActRefines` | worker.go:436-558 | deciding, asking NAV and recording are steps of the transition system |
| `Worker.RereadRefines` | worker.go:371-391 | and so are the re-read and the decision to stay |
| `Effects.ParentRule` | worker.go:436-471 | by what is stored under the parent id: go ahead if accepted or without a parent, abort if rejected or aborted, wait in every other case |
| `Effects.StatusAfterPass` | worker.go:354-372 | the status after a pass over any newer version of the row, exactly: rejected by an ABORTED answer or a failure for good only, aborted by a dead parent only, accepted by an all-final answer only, in processing by any other answer |
| `Effects.SubmitRetried` | worker.go:624-635 | a retriable submit failure keeps pending, counts an attempt and is due after the backoff |
| `Effects.PollRetried` | worker.go:637-654 | a retriable poll failure keeps status and transaction id, counts an attempt and is due after the backoff |
| `Effects.WaitForNav` | worker.go:551-557 | an answer that leaves something open is polled again after one interval, with attempts unchanged |
| `Effects.SettledByNav` | worker.go:531-550 | an all-final answer accepts and clears the error, an ABORTED one rejects with NAV's detail; nothing else is written |
| `Effects.AnsweredSubmit` | worker.go:505-511 | an answered submit writes the transaction id, counts an attempt and is polled after one interval |
| `Effects.FailedForGood` | worker.go:473-503 | a failure that is not retriable, an unusable payload or a missing transaction id rejects, with its reason and one attempt more |
| `Effects.HeldUpByParent` | worker.go:440-470 | a child waits one sleep for an open or unreadable parent, and is aborted with the reason of a dead one |
| `Effects.OthersUntouched` | internal/storeinmem/store.go:61-77 | a pass touches no row but its own |
| `Decimals.RoundToInt` | internal/invoicemap/currency.go:54-73 | truncated division corrected by the doubled remainder rounds half away from zero |
| `Decimals.RoundLaws` | internal/invoicemap/currency.go:54-73 | rounding is nearest, sends halves away from zero and commutes with negation |
| `Decimals.SplitIsUnits` | internal/invoicemap/currency.go:39-46 | the printed digits, carry included, are the magnitude rounded to the printed precision |
| `Decimals.ParseFloatString` | internal/invoicemap/mapping.go:552-567 | reading a printed value back gives the value rounded to the printed precision |
| `Decimals.ParseIntString` | internal/invoicemap/currency.go:50-52 | reading a printed integer back gives that integer |
| `Decimals.ReadableIff` | internal/invoicemap/currency.go:81-88 | a text is read exactly when it is an optional sign, digits and at most one point, with a digit somewhere |
| `Decimals.PrintedShape` | internal/invoicemap/currency.go:39-46 | a value is printed without leading zeros and with exactly the given number of decimals |
| `Decimals.PrintedExactly` | internal/invoicemap/mapping.go:552-567 | values already at print precision survive printing and parsing |
| `Decimals.SamePrintIff` | internal/invoicemap/mapping.go:416-422 | two values print alike exactly when sign and rounded magnitude agree |
| `Decimals.PrintParsePrintIff` | internal/invoicemap/mapping.go:552-567 | printing what was read back repeats the string, except for a negative printed as minus zero |
| `Decimals.PrintsConvex` | internal/invoicemap/mapping.go:416-422 | the values printed as one string form an interval |
| `Currency.FormatAmountValue` | internal/invoicemap/currency.go:39-46 | a formatted amount denotes the amount rounded to the currency's decimals |
| `Currency.FormatHUFValue` | internal/invoicemap/currency.go:50-52 | a formatted forint amount denotes the nearest integer |
| `Currency.RoundAlikeIff` | internal/invoicemap/currency.go:37-52 | forints, and amounts in a zero-decimal currency, print alike exactly when they round alike |
| `Currency.MinorUnitsPrintExactly` | internal/invoicemap/currency.go:22-46 | any whole number of minor units prints and reads back as itself, in every currency |
| `Currency.AmountsReconcile` | internal/invoicemap/mapping.go:552-567 | the three printed strings satisfy net + VAT = gross, whatever was rounded |
| `Currency.HUFReconciles` | internal/invoicemap/mapping.go:552-567 | and so do the three forint strings |
| `TaxIds.SplitHungarianTaxNumber` | internal/invoicemap/tax.go:24-47 | the digit loop accepts exactly the strings whose core has 11 digits and otherwise only separators |
| `TaxIds.AcceptedIff` | internal/invoicemap/tax.go:24-47 | a number is accepted exactly when its core has eleven digits and otherwise hyphens and blanks only |
| `TaxIds.PartsAreTheDigits` | internal/invoicemap/tax.go:42-46 | the three parts are the number's digits in order, 8, 1 and 2 of them |
| `TaxIds.HyphenatedRoundTrip` | internal/invoicemap/tax.go:24-47 | any three parts written out with hyphens are read back as themselves |
| `TaxIds.SeparatorBetweenDigits` | internal/invoicemap/tax.go:24-47 | a hyphen or space between two digits changes neither the parts nor acceptance |
| `TaxIds.ClassifyCustomer` | internal/invoicemap/tax.go:69-113 | the one-pass loop equals choosing the first Hungarian, else EU, else third-state id, else the name |
| `TaxIds.StatusRule` | internal/invoicemap/tax.go:69-113 | the status follows the priority of what is in the list, not its order |
| `TaxIds.VatDataRule` | internal/invoicemap/tax.go:69-113 | which number is reported: that of the first Hungarian id, else the first EU id, else the first third-state id, else none |
| `TaxIds.HungarianIff` | internal/invoicemap/tax.go:77-91 | an id counts as Hungarian by its type, or as an EU id with the country prefix, if its number is accepted |
| `TaxIds.StatusIgnoresOrder` | internal/invoicemap/tax.go:64-113 | permuting the ids keeps the status |
| `TaxIds.ClassificationIgnoresSeparators` | internal/invoicemap/tax.go:69-113 | respelling a Hungarian number with a separator keeps status and parsed number |
| `Invoices.InvoiceAsStorno` | credit_note.go:18-58 | the nested loops build the sign-flipped clone, without null entries |
| `Emitted.CloneFields` | credit_note.go:18-58 | the clone has the new number and date, keeps currency, other dates and the truncation mark, and flips the amount of each line, with text and quantity kept |
| `Emitted.TaxesFlipInOrder` | credit_note.go:33-50 | its taxes are flipped one by one, in order |
| `Mapper.ItemFor` | internal/invoicemap/mapping.go:383-421 | one line's net, VAT, forints and printed rate, from the loop over its taxes |
| `Mapper.Tally` | internal/invoicemap/mapping.go:422-435 | filing a line keeps one bucket per printed rate, each holding the exact sums of its lines, and the totals |
| `Mapper.BuildLines` | internal/invoicemap/mapping.go:374-496 | all lines, all buckets and the totals, with null lines skipped |
| `Mapper.SortedKeys` | internal/invoicemap/mapping.go:499-503 | the bucket keys, each once, in byte order |
| `Mapper.BuildSummary` | internal/invoicemap/mapping.go:498-543 | one row per bucket in ascending order of rate, and the totals |
| `Mapper.MapInvoice` | internal/invoicemap/mapping.go:100-253 | accepts exactly the invoices and options that meet twelve requirements on their fields, refuses any other with the error of the first that fails, and returns a document of the invoice |
| `Mapper.RefusalRule` | internal/invoicemap/mapping.go:100-302 | the twelve requirements in their order: known operation, named origin, supplier number, invoice number, a positive date, lines, all pages, currency, readable rate or forints, eleven digits, a street, a line that is not null |
| `Emitted.HeadShown` | internal/invoicemap/mapping.go:126-210 | the document shows the invoice's number, its currency in upper case and the digits of the supplier's number |
| `Emitted.IssuedFirst` | internal/invoicemap/mapping.go:256-267 | the issue date is the first positive one of finalization, effective date and creation |
| `Emitted.RateShown` | internal/invoicemap/mapping.go:154-166 | the rate shown is one for forints, else the given one to six decimals |
| `Emitted.ReferenceShown` | internal/invoicemap/mapping.go:212-245 | a modification or storno, and nothing else, refers to its original, with an index of at least one |
| `Emitted.LinesShowEntries` | internal/invoicemap/mapping.go:379-490 | the k-th line shows number, text, quantity and chain position of the k-th entry that is not null |
| `Emitted.VatAddsUp` | internal/invoicemap/mapping.go:388-405 | a line's VAT is the sum of all its tax amounts |
| `Emitted.InclusiveIff` | internal/invoicemap/mapping.go:388-405 | VAT is inside the amount exactly when some tax is inclusive |
| `Emitted.RateOfLine` | internal/invoicemap/mapping.go:409-421 | a line's rate is its VAT over its net to two decimals, and zero without a net |
| `Emitted.ForintsOfLine` | internal/invoicemap/mapping.go:440-480 | a line's forints are its net and VAT converted and rounded, and gross is their sum |
| `Emitted.ByteOrder` | internal/invoicemap/mapping.go:499-503 | rows are ordered by the first byte in which their rates differ, a prefix first |
| `Mapping.AscendingUnique` | internal/invoicemap/mapping.go:499-503 | a set of rates has one ascending listing, so the map's iteration order does not show |
| `Conservation.DocumentAddsUp` | internal/invoicemap/mapping.go:552-567 | every emitted line, rate row and total has six numbers with net + VAT = gross in both currencies |
| `Conservation.BucketsSumToTotal` | internal/invoicemap/mapping.go:422-435 | the buckets' exact sums add up to the totals |
| `Conservation.RowsPartitionLines` | internal/invoicemap/mapping.go:374-525 | rows have strictly ascending rates, every line's rate names a row and every row has a line, each row printing the exact sum of its lines |
| `Conservation.InvoiceCurrencyConserved` | internal/invoicemap/mapping.go:379-543 | in invoice currency printed lines, printed rows and printed totals have one sum, for net, VAT and gross |
| `Conservation.LineGrossIsStripes` | internal/invoicemap/mapping.go:387-412 | a line's gross is Stripe's amount if any tax is inclusive, else amount plus taxes |
| `Conservation.UnitPriceIsNetOverQuantity` | internal/invoicemap/mapping.go:452-453 | the printed unit price is the line's net over max(1, quantity), to the last printed digit, and to half a forint |
| `Conservation.ForintsNearlyConserved` | internal/invoicemap/mapping.go:498-543 | in forints n printed parts differ from the printed total by at most (n+1)/2 for net and VAT, n+1 for gross |
| `Permutation.SummaryIgnoresOrder` | internal/invoicemap/mapping.go:374-543 | permuting the lines changes neither refusal nor any part of the summary |
| `Permutation.SummaryOfBag` | internal/invoicemap/mapping.go:498-543 | a bag of lines has exactly one summary |
| `Determinism.DocumentExists` | internal/invoicemap/mapping.go:97-220 | every invoice that is not refused has a document |
| `Determinism.DocumentIsUnique` | internal/invoicemap/mapping.go:97-100 | the same input always gives the same document, however the buckets are walked |
| `Determinism.ReversalExists` | stripenav.go:359-392 | every invoice that is not refused has a document and a storno reversing it |
| `Determinism.EuroInvoiceReverses` | stripenav.go:359-392 | there are such invoices: any lines not ending in a null entry, in euros, at any whole rate |
| `Rates.RowRateIsItsOwn` | internal/invoicemap/mapping.go:409-430 | a row's vatPercentage is the two-decimal rendering of its own VAT over net, for lines of one sign |
| `Rates.MixedSignsShiftTheRate` | internal/invoicemap/mapping.go:409-430 | an accepted invoice of two lines of opposite signs, at any whole exchange rate, whose document has a row filed under another rate than its own |
| `Reversals.FlippedItem` | credit_note.go:26-52 | a flipped line's net and VAT are the negated ones exactly when it holds no int64 minimum; its rate is then the same |
| `Reversals.ReversedLine` | credit_note.go:26-52 | a flipped line maps to the same rate and quantity, negated unit price and negated amounts, its forint price at its own rate |
| `Reversals.PriceResidue` | internal/invoicemap/mapping.go:452-453 | a reversed forint unit price leaves at most the unit price over 2,000,000 plus one |
| `Reversals.ReversedSummary` | internal/invoicemap/mapping.go:498-543 | the flipped lines fall into the same rate rows, each negated, and so are the totals |
| `Reversals.ReversalResidue` | internal/invoicemap/currency.go:54-79 | at two rates half a millionth apart a reversed amount leaves at most x/2,000,000 plus rounding |
| `StornoLaws.StornoIsMappable` | stripenav.go:359-392 | the void of a reportable invoice is reportable at the printed rate |
| `StornoLaws.StornoCancelsIff` | credit_note.go:18-58 | in invoice currency the storno cancels lines, rows, totals and unit prices exactly when no amount is the int64 minimum |
| `StornoLaws.StornoCancelsForints` | stripenav.go:379-392 | in forints too when the rate has at most six decimals |
| `StornoLaws.PrintedRateIsLosslessIff` | internal/invoicemap/mapping.go:161 | re-reading the printed rate is lossless exactly for rates of at most six decimals |
| `StornoLaws.StornoResidue` | stripenav.go:379-392 | at any rate, what stays of x forints is at most x/2,000,000 plus one for net, VAT and unit price, two for gross |
| `StornoLaws.StornoExtendsChain` | internal/invoicemap/mapping.go:379-490 | the storno's lines take the chain positions right after the original's n entries |
| `StornoLaws.StornoKeepsLines` | internal/invoicemap/mapping.go:379-382 | it has one line per entry that is not null, so with none null the positions are exactly n+1..2n |
| `StornoLaws.StornoRefersBack` | internal/invoicemap/mapping.go:212-217 | it is a new document that refers to its original as modification 1 |
| `ForintResidue.ForintsAlwaysCancelIff` | stripenav.go:379-392 | at any readable rate and in any currency, the stornos of all accepted invoices without an int64 minimum cancel their forints exactly when the rate has at most six decimals |
| `ForintResidue.LongRateFails` | stripenav.go:379-392 | at any longer rate there is an accepted invoice of int64 lines whose storno leaves forints behind |
| `ForintResidue.ForintTotals` | internal/invoicemap/mapping.go:498-543 | the printed forint net totals of an invoice and its storno are one exact net and its negation, converted at the two rates |
| `ForintResidue.OneLineLeavesAForint` | internal/invoicemap/mapping.go:161 | 3,000,000.00 euros at 400.0000005 print 1200000002 forints on the invoice and -1200000003 on its storno |
| `Handler.BridgeHandler.FindParentSubmission` | stripenav.go:448-454 | the oldest row of the original's number, or none when the lookup fails |
| `Handler.BridgeHandler.ProcessInvoice` | stripenav.go:331-401 | which rate, options and parent an invoice event is mapped with, and the row or the failure that gives |
| `Handler.BridgeHandler.Persist` | stripenav.go:408-426 | losing the Put to a concurrent delivery is a success, any other failure is transient |
| `Handler.BridgeHandler.ProcessEvent` | stripenav.go:295-329 | ignored, already stored, stored, permanently failed or transiently failed, and the store after each |
| `Handler.BridgeHandler.ServeEvent` | stripenav.go:276-292 | the answer and the store for every event: a new invoice event gets a 200 with nothing stored exactly when it cannot be decoded, lacks a provider it needs or is refused by the mapper, and a 503 exactly when the provider call or the store fails; likewise for credit notes, known events and other types |
| `Handler.OutcomeRule` | stripenav.go:331-401 | which of the three outcomes an invoice event comes to, exactly, by its own fields, its parent's and the configuration's |
| `Handler.ReadyRow` | stripenav.go:308-401 | the row it is stored with: operation, number, parent and times |
| `Handler.NoteIsServed` | stripenav.go:498-540 | the same for a credit note, given its rate lookup and its mapping |
| `Handler.OutcomeIsFresh` | stripenav.go:308-327 | a prepared row is pending, unclaimed, due now, and its parent is already stored |
| `Handler.DeliveryRefines` | stripenav.go:279-426 | a delivery is a run of the transition system with the same store and the same answer |
| `VoidedInvoices.PrintedIsTrimmed` | stripenav.go:459-467 | trimming the extracted rate changes nothing |
| `VoidedInvoices.VoidStoresReversal` | stripenav.go:359-392 | a void whose parent holds the original's document is always mappable, asks no provider, waits for that parent and stores the reversal |
| `VoidedInvoices.LookupFindsOldest` | stripenav.go:448-454 | the lookup by number finds the row that is oldest under it |
| `VoidedInvoices.PutKeepsOrigin` | internal/storeinmem/store.go:61-77 | in every run a stored row keeps the document it was put with |
| `VoidedInvoices.VoidCancelsOriginal` | stripenav.go:331-401 | over the rows the lookup sees: the storno finds the original's row, waits for it, cancels its document and continues its line chain |
| `VoidedInvoices.VoidFollows` | stripenav.go:331-401 | any invoice that maps when finalized can then be voided so |
| `VoidedInvoices.EuroVoidFollows` | stripenav.go:331-401 | and there is one, over any lines not ending in a null entry |
| `VoidRuns.VoidCancelsInRun` | stripenav.go:331-401 | end to end over whole runs, whatever interleaves: at any time after both were put, the stored storno settles the stored invoice, NAV has only been sent those two documents, and nothing for the void before the invoice was accepted |
| `VoidRuns.VoidRunFollows` | stripenav.go:331-401 | any invoice that maps when finalized has such a run |

## Left out

- HTTP, signature checks, XML marshalling and the NAV client: NAV answers anything, and the persisted payload is the mapped document itself. A payload stored by a custom Derive flow is taken to hold no exchange rate.
- Goroutines, timers, the wakeup channel, contexts and the rate limiter: nondeterministic steps and a non-decreasing clock. A clock reading taken before the store's lock may be older than the step that uses it.
- The custom Derive hook, metrics, logging and the 24-hour reporting alarm, which only observe.
- Credit-note mapping: its result is an input of the handler. The repository documents it as incomplete.
- `AnnulInvoice` and the annulment payload's fields, which touch no stored row.
- Names, addresses, dates, payment fields and the business-suffix heuristic: copied fields and library calls.
- A submit that NAV processed but whose answer was lost counts as failed, as it does for the worker; at-most-once is about answered submits.
- `int64` wrap-around is modelled where amounts are negated; sums are exact because the code adds rationals.
- Floating point in `backoffFor` and `powInt`: reals.
- Letter case beyond ASCII, white space beyond Latin-1, and the exponents, fractions and underscores `big.Rat` would also parse in a configured rate.
- Rates.RowRateIsItsOwn: goes one way. Lines of both signs often keep the printed rate, and no condition on the nets alone separates the cases, because VAT is whole minor units; `Rates.MixedSignsShiftTheRate` shows a failure.
- StornoLaws.StornoCancelsForints: goes one way for a single document, since at a longer rate small amounts can still round alike; over all accepted invoices at a rate the condition is exact, see `ForintResidue.ForintsAlwaysCancelIff`.
- AtMostOnce.AtMostOneSubmit: goes one way for a single run, since an interference need not cost a duplicate: nobody may claim the freed row in time. Over all runs the condition is exact, see `Duplicates.AtMostOnceIff`, and for the invariant each step is, see `AtMostOnce.StaysCleanIff`.
- Punctual.PunctualSubmitsOnce: goes one way for a single run, as a late call need not do harm; over all runs both of its rules are needed, see `Duplicates.PunctualityIff`.
- Worker.Worker.RunLifecycle: renews between passes only; renewals at any other moment, down to the release, are steps of the transition system alone.
- VoidedInvoices.VoidCancelsOriginal: takes the original's row to be strictly the oldest under its number; with an older row the lookup finds that one instead. `VoidRuns.VoidCancelsInRun` does so too, and its waiting needs an event id that is not empty.
