# StorageGenie catalogue: a verified model

StorageGenie keeps facts about household assets as append-only assertions with review states. The asset row is a
materialised copy of the accepted ones, review tasks track missing facts, and an audit log journals every write.
This project models that store, its two writers and the metered bulk-render driver, and proves what every run of
them keeps.

- **Catalogue.** `AssertionStore` holds the assertion table and the two supersession rules. `CatalogueState` is all
  tables as one value. `ExpirySteps` and `AssetSteps` give each operation of the expiry tracker and the asset
  service as a function of that value. `Runs` interleaves them with other modules' inserts and with time.
  `RowInvariants`, `TaskInvariants`, `JournalInvariants`, `ColumnInvariants` and `MergeInvariants` are kept by every
  operation, `Frames` says what each service leaves alone, and `Theorems` states the results for all runs.
  `ExpiryOutcomes` and `AssetOutcomes` say of every operation, without its step function, exactly when it succeeds,
  which error it gives otherwise, and what it leaves in the tables.
  `CatalogueService` is the imperative form: a class whose tables the methods update in place, with the source's
  loops, in-place supersession, rollback and either-order query ties. Each method returns exactly its step's outcome
  and keeps `Valid()`, the conjunction of all invariants; `UpdateAsset` says exactly when it does.
- **Dates.** `Dates` prints and reads canonical dates; `DateScanner` is the regular-expression scan over OCR text,
  with the exact texts that yield a given day.
- **Bulk render.** `RenderBounds` holds prices, ledger sums and caps; `RenderProtocol` the driver as a step machine
  with crashes, lagging counters, late charges and counter resets; `RenderSafety` its safety over all runs;
  `RenderSteady` when the caps hold whatever is outstanding; `RenderLimits` where the spend guard's cover ends;
  `RenderLedger` what an answer leaves in the ledger and what later bounds owe to it; `RenderChecks` what each check
  lets through and what a run that passes them all does; `RenderDriver` the loop itself, every execution of which is
  a run of the machine. A crash is a prefix of such a run followed by `Crash`.
- **Refinements and codecs.** `Utf8`, `Base64Url` and `Cursor` (pagination cursors), `Dedup` (one prefetch against
  queries for each item, every query answering in any order) with `DedupTables` (what a job finds, said of the tables'
  positions), `LifecycleBackfill` (dry run against apply) and
  `LedgerReclass` (all-or-nothing update).

Results where the code and its documentation, or an obvious expectation, part:

- `merge_asset_redirect` says it allows no redirect chains. It does: a winner may be merged later
  (`MergeInvariants.ChainWitness`, and `Theorems.ChainReached` from the empty catalogue).
  `MergeInvariants.ChainsExactly` says when a merge keeps redirects one deep. What does hold is that chains never
  cycle and end within the number of merges.
- `upsert_assertion` retires an accepted row only. On a field that carries a proposal it would leave two active
  rows; `AssertionStore.UpsertKeepsShapeExactly` is the exact condition. The two writers' fields are disjoint, so it
  never happens.
- An extraction result that asks for evidence replaces a user's accepted date (`Theorems.ExtractionOverwrites`).
- Prefetching skips a job whose household is missing or empty, while a per-item query would ask for the household
  named "". Only a household that is named "" can tell the two apart, since a job with evidence and without a
  household is refused; `Dedup.PrefetchExactly` is the exact condition. None of these queries is ordered, and
  `Dedup.ExecutionsAgree` says what still does not depend on the order.
- Calls whose credit cost is unknown are counted again at the current worst case, and nothing else stands for
  charges nobody stated. So prices may not fall far: `RenderLimits.FallingPricesExceed` is a run of two unanswered
  legs that passes every bound and exceeds the daily cap. And an answer that states a credit cost (0.0 on the owner's
  own key) without an owner-side cost leaves a charge nothing counts: `RenderLimits.UnstatedOwnerExceeds` is a run at
  one steady price whose owner side may come to 3.8 against a daily cap of 2.0. `RenderLimits.GuardCoversExactly` is
  the exact condition, and `RenderSafety.Admissible` lists what the caps assume. A caller can check it instead: worst
  cases that never fall, and answers that state the owner-side cost whenever they state a credit cost, are enough
  (`RenderSteady.SteadyCapsHold` with `RenderSteady.StatedAnswersCount`).
- The service-level update checks no lifecycle: it can take a merged asset out of MERGED and strand its redirect.
  `Theorems.UpdateKeepsExactly` says exactly when; the update route never does.

To verify: `dafny verify dfyconfig.toml`.

## Model

| member | source | states |
|---|---|---|
| AssertionStore.PathInjective | backend/app/plugins/expiry_tracker.py:331-341 | filtering rows by the stored path is filtering by field: no two fields of the two services share a path |
| AssertionStore.ReadersWellDefined | backend/app/plugins/expiry_tracker.py:331-341 | newest-first queries have one answer in a well-shaped table, whatever the timestamps |
| AssertionStore.UpsertKeepsShapeExactly | backend/app/services/assertion_service.py:19-36 | the second writer keeps one active row per pair if and only if the pair's active row is accepted |
| Theorems.ReachableInvariant | backend/app/plugins/expiry_tracker.py:344-801 | every state reached by any run of both services satisfies the row, task, journal, column and merge invariants |
| Theorems.RunsExtend | backend/app/services/asset_service.py:38-253 | the empty catalogue is reachable, and every operation leads from a reachable state to a reachable one |
| Theorems.StepInvariant | backend/app/services/asset_service.py:38-253 | each single operation of either service keeps all five invariants |
| Theorems.DateTaskTracksDate | backend/app/plugins/expiry_tracker.py:381-432 | in every run an asset has one open date task while its date is unknown, none when it is accepted or absent, at most one otherwise, and the open-task query finds exactly those |
| Theorems.ManualEntrySettles | backend/app/plugins/expiry_tracker.py:750-801 | manual entry resolves exactly the asset's open tasks and those of evidence-sharing split origins, each once, and journals each orphan once |
| Theorems.NonExpiryClassificationSettles | backend/app/plugins/expiry_tracker.py:488-540 | a category without dates resolves and journals exactly the same tasks |
| Theorems.ResolveIsExact | backend/app/plugins/expiry_tracker.py:705-747 | resolved ids have no repeats, equal the tasks that changed, and are exactly the own and orphaned open tasks of the household |
| Theorems.ResolveIsJournalled | backend/app/plugins/expiry_tracker.py:777-800 | the new audit rows are one resolve row for each orphan and none for the asset's own tasks |
| Theorems.ExpiryIsGrounded | backend/app/plugins/expiry_tracker.py:421-540 | in every run accepted dates are the user's, canonical or null, citing evidence of the household; unknown dates hold the unknown value; proposed dates were read from an observation of linked evidence |
| Theorems.OpenedDateIsPast | backend/app/plugins/expiry_tracker.py:579-617 | in every run with a clock that does not go back, no active opened date is in the future |
| Theorems.ReadersAgree | backend/app/plugins/expiry_tracker.py:554-576 | in every run the newest-active and newest-accepted classification readers agree, pairs have one active row, and the classification names a category |
| Theorems.CategoryLookupSucceeds | backend/app/plugins/expiry_tracker.py:753-758 | in every run the category lookup of manual entry cannot fail; only a missing classification is refused there |
| Theorems.ClassifyOutcome | backend/app/plugins/expiry_tracker.py:457-540 | classifying stores the category with the asked or default tier; a category with dates keeps an accepted date, else proposes the observed one (never for documents), else asks for one; a category without dates nulls any date |
| Theorems.ManualEntryOutcome | backend/app/api/v1/plugins.py:184-227 | a successful manual entry leaves the entered text as the accepted date |
| Theorems.ClearOutcome | backend/app/plugins/expiry_tracker.py:659-702 | clearing leaves an accepted null where a date was and nothing where none was |
| Theorems.JournalIsComplete | backend/app/plugins/expiry_tracker.py:344-378 | in every run replaying the write events gives each active plugin assertion, events match plugin rows one to one in order, and the previous state is null exactly on a pair's first write |
| Theorems.RepeatedWrite | backend/app/plugins/expiry_tracker.py:353-356 | repeating a write changes nothing and returns the same row, whatever source, evidence and time it carries |
| Theorems.ExtractionOverwrites | backend/app/plugins/expiry_tracker.py:421-432 | an accepted date survives an extraction result if and only if the result does not ask for evidence |
| Theorems.AssetRowIsView | backend/app/services/asset_service.py:109-135 | in every run each core field has at most one accepted assertion, equal to its column; a field never asserted holds its creation value; the version is one plus the journalled updates, merges and archives |
| Theorems.UpdateSetsExactly | backend/app/services/asset_service.py:109-135 | an update sets exactly the supplied columns of its asset and raises its version |
| Theorems.UpdateKeepsExactly | backend/app/services/asset_service.py:109-135 | a successful update always keeps the row, task, journal and column invariants, and keeps the merge invariant if and only if it does not take a redirected asset out of MERGED |
| Theorems.StaleVersionFails | backend/app/api/v1/assets.py:425-431 | of two updates expecting the same version only the first succeeds |
| Theorems.RedirectsTerminate | backend/app/services/asset_service.py:203-253 | in every run following redirects from any asset stays in the household, never returns, and ends within the number of merges at an asset without a redirect |
| Theorems.AttachLinks | backend/app/services/asset_service.py:138-170 | the links are the old ones plus the requested ids that can be inserted, whatever their order or repetition, and attaching again adds none |
| ExpiryOutcomes.WriteStores | backend/app/plugins/expiry_tracker.py:344-378 | one write leaves the given row with its source and evidence, and one audit row, or nothing when the active row already says the same; no other pair reads differently |
| ExpiryOutcomes.EnterExpiryExactly | backend/app/api/v1/plugins.py:184-227 | in every reachable state manual entry succeeds if and only if the asset exists, the text is the printing of a real day with a known type and unit, all cited evidence exists in the asset's household and the classification names a category with dates; the first thing missing decides the error |
| ExpiryOutcomes.EnterExpiryStores | backend/app/plugins/expiry_tracker.py:750-761 | it stores the text as given, the type by its own name, the folded unit if one was given and no other field, accepted from the user with the cited evidence; no other pair changes |
| ExpiryOutcomes.StoreExactly | backend/app/plugins/expiry_tracker.py:750-759 | storing succeeds if and only if the classification names one of the five categories with dates; non-perishable is not applicable, and no classification is not classified |
| ExpiryOutcomes.ObservedExactly | backend/app/plugins/expiry_tracker.py:301-328 | the observed date is that of the first observation in the table that is OCR or barcode text of linked evidence and yields one, and there is none if and only if no such row yields one |
| ExpiryOutcomes.ClassifyExactly | backend/app/plugins/expiry_tracker.py:457-460 | classification succeeds if and only if the asset exists, the category is one of the six and the tier, if asked for, is one of that category's; otherwise the first of these decides the error |
| ExpiryOutcomes.ClassifyStores | backend/app/plugins/expiry_tracker.py:457-540 | it leaves the category's profile with the asked or default tier and that tier's days, replies with the date's row and, exactly when the date is asked for, its one open task, and changes no other pair |
| ExpiryOutcomes.ClassifySettles | backend/app/plugins/expiry_tracker.py:462-492 | a category with dates keeps an accepted row that holds a real day, else proposes the first date the observations show (never for documents), citing its evidence, else leaves the unknown date; one without dates leaves an accepted null where anything was |
| ExpiryOutcomes.ExtractExactly | backend/app/plugins/expiry_tracker.py:407-432 | an extraction result that asks for evidence leaves the unknown date and replies with the open task, an old one or the only new one; any other result changes nothing |
| ExpiryOutcomes.ClearExactly | backend/app/plugins/expiry_tracker.py:659-702 | clearing succeeds under the same conditions on the classification as entry; over an active date it leaves an accepted null and resolves the own open tasks only, and otherwise changes nothing |
| ExpiryOutcomes.OpenedExactly | backend/app/plugins/expiry_tracker.py:595-617 | an opened date is stored if and only if the classification names cosmetics and the value is the printing of a real day up to the clock's; it is stored as given, accepted from the user |
| ExpiryOutcomes.ClearOpenedExactly | backend/app/plugins/expiry_tracker.py:620-643 | clearing an opened date needs such a classification; it leaves an accepted null where a date was, and nothing changes where none was |
| ExpiryOutcomes.ExtendStores | backend/app/plugins/expiry_tracker.py:547-551 | the last value given for a key is the accepted one, and no other key or pair changes |
| AssetOutcomes.CreateExactly | backend/app/services/asset_service.py:17-106 | creation succeeds if and only if all evidence exists; a supplied name that is not blank is the column and the user's assertion, else the evidence names the asset deterministically, else there is neither; every other supplied field is column and assertion, or the default without one; the links and two audit rows are exactly the new ones |
| AssetOutcomes.DistinctInOrder | backend/app/services/asset_service.py:44 | evidence ids are kept in the order of their first occurrences, which is what the namer sees |
| AssetOutcomes.UpsertStores | backend/app/services/assertion_service.py:9-47 | the second writer leaves one accepted row of the user and one audit row, and no other pair reads differently |
| AssetOutcomes.TransitionExactly | backend/app/services/lifecycle.py:43-81 | a status may stay or move along one of five listed steps, and must be one of the six |
| AssetOutcomes.UpdateExactly | backend/app/services/asset_service.py:109-135 | an update fails if and only if type or status is given as null, and otherwise sets exactly the given columns and their assertions, counts once and journals it |
| AssetOutcomes.PatchExactly | backend/app/api/v1/assets.py:408-443 | the update route succeeds if and only if asset, household and expected version match, some field is not null and a given status may follow; it sets exactly the fields that are not null, and the first condition that fails decides the error |
| AssetOutcomes.ArchiveExactly | backend/app/api/v1/assets.py:446-479 | the delete route succeeds if and only if the household matches and the asset is active or archived, and leaves it ARCHIVED in column and assertion, counted once |
| AssetOutcomes.MergeExactly | backend/app/services/asset_service.py:203-253 | a merge succeeds if and only if both assets are of one household, differ, the winner is not merged and the loser is active; it sets the loser's status and redirect and nothing else, and refusals come in order |
| AssetOutcomes.AttachExactly | backend/app/services/asset_service.py:138-185 | attaching changes the links and one audit row, which lists the requested ids without repeats |
| RowInvariants.StepKeepsRows | backend/app/plugins/expiry_tracker.py:344-801 | every operation keeps the assertion table well shaped, typed and grounded |
| TaskInvariants.StepKeepsTasks | backend/app/plugins/expiry_tracker.py:381-404 | every operation keeps the number of open date tasks fitting the date's state |
| JournalInvariants.StepKeepsJournal | backend/app/plugins/expiry_tracker.py:367-377 | every operation keeps the write journal complete |
| ColumnInvariants.StepKeepsColumns | backend/app/services/asset_service.py:109-135 | every operation keeps columns and accepted assertions equal and versions counted |
| MergeInvariants.StepKeepsMerges | backend/app/services/asset_service.py:218-253 | every operation keeps each redirect pointing at a later-merged or unmerged asset of the household |
| MergeInvariants.MergeEffect | backend/app/services/asset_service.py:218-253 | a merge marks the loser MERGED and redirects it to the winner, later than every earlier row, and changes no other redirect or asset |
| MergeInvariants.RedirectsEnd | backend/app/services/asset_service.py:230-238 | following as many redirects as are at least as recent reaches an asset without one |
| MergeInvariants.NoCycle | backend/app/services/asset_service.py:211-215 | no chain of redirects returns to where it started |
| MergeInvariants.ChainsExactly | backend/app/services/asset_service.py:211-228 | a merge keeps redirects one deep if and only if the merged asset is no other's winner |
| MergeInvariants.ChainWitness | backend/app/services/asset_service.py:211-228 | two merges in a row leave a redirect chain of two, which the guards allow |
| Theorems.ChainReached | backend/app/services/asset_service.py:203-253 | from the empty catalogue, creating three assets and merging twice reaches a chain of two redirects |
| MergeInvariants.MergedIsTerminal | backend/app/services/lifecycle.py:43-81 | the lifecycle table lets nothing leave MERGED |
| Frames.ServiceStep | backend/app/services/asset_service.py:109-253 | the asset service changes no task, no plugin field and no plugin journal entry |
| Frames.PluginStep | backend/app/plugins/expiry_tracker.py:407-801 | the expiry tracker changes no asset row, no asset event and no core field |
| ExpirySteps.ParseManualEntry | backend/app/plugins/expiry_tracker.py:279-295 | whatever the form parser accepts passes the reader's validity test |
| ExpirySteps.ManualEntryExactly | backend/app/plugins/expiry_tracker.py:240-295 | the form accepts exactly canonical printings of real days with a known type and unit, and keeps the text |
| ExpirySteps.OpenedDateExactly | backend/app/plugins/expiry_tracker.py:579-592 | the opened form accepts exactly canonical printings of real days up to today |
| ExpirySteps.ClassificationReadsBack | backend/app/plugins/expiry_tracker.py:76-177 | a stored classification reads back as its category, and its notification days are its tier's default exactly when the category has dates |
| Dates.CanonicalExactly | backend/app/plugins/expiry_tracker.py:283-288 | the acceptance test takes exactly the printings of real Gregorian days, whatever else the underlying parser reads |
| Dates.ReadPrint | backend/app/plugins/expiry_tracker.py:435-445 | the printing of any day of years 1 to 9999 reads back as that day |
| Dates.MonthTable | backend/app/plugins/expiry_tracker.py:283-288 | months have the lengths of the Gregorian calendar (section 5.7 of RFC 3339) |
| Dates.DateLeExactly | backend/app/plugins/expiry_tracker.py:586-592 | days are compared as their numbers yyyymmdd are |
| Dates.PadExactly | backend/app/plugins/expiry_tracker.py:283-288 | numbers print as their decimal digits, most significant first |
| DateScanner.Search | backend/app/plugins/expiry_tracker.py:298-321 | the search returns the leftmost position at which the pattern matches, or none when none does |
| DateScanner.MatchIsUnique | backend/app/plugins/expiry_tracker.py:298 | a position matches with one choice of digit counts, so backtracking order does not matter |
| DateScanner.ScanExactly | backend/app/plugins/expiry_tracker.py:298-328 | a text yields a date if and only if its leftmost match is a real day of 2000 to 2099 written as four, two and two digits for year, month and day in that order between separators, and it yields that day's printing |
| DateScanner.WrittenDateIsRead | backend/app/plugins/expiry_tracker.py:298-328 | a day so written as a word of its own, with no '2' before it, is what the text yields, whichever separators are used |
| DateScanner.FirstDate | backend/app/plugins/expiry_tracker.py:315-328 | the first row that yields a date wins, and none is returned only when no row yields one |
| DateScanner.ObservedDate | backend/app/plugins/expiry_tracker.py:315-328 | the scanning loop computes that first date, which `ExpiryOutcomes.ObservedExactly` and `DateScanner.ScanExactly` pin to the texts |
| CatalogueService.Catalogue.ActiveAssertion | backend/app/plugins/expiry_tracker.py:331-341 | the newest-first scan returns the pair's one active row however ties fall |
| CatalogueService.Catalogue.AcceptedAssertion | backend/app/plugins/expiry_tracker.py:555-564 | the newest accepted row is the active row when that is accepted, else none |
| CatalogueService.Catalogue.WriteAssertion | backend/app/plugins/expiry_tracker.py:344-378 | the in-place writer equals the write step and returns the row that now holds the value |
| CatalogueService.Catalogue.UpsertAssertion | backend/app/services/assertion_service.py:9-47 | the second writer equals its step |
| CatalogueService.Catalogue.ManualTask | backend/app/plugins/expiry_tracker.py:381-404 | an open task is reused, else one is opened |
| CatalogueService.Catalogue.OrphanManualTasks | backend/app/plugins/expiry_tracker.py:705-747 | the loops find exactly the open tasks on split origins that share evidence |
| CatalogueService.Catalogue.SettleTasks | backend/app/plugins/expiry_tracker.py:762-801 | the two resolving loops change exactly the own and orphaned tasks and report their ids |
| CatalogueService.Catalogue.Classify | backend/app/plugins/expiry_tracker.py:457-540 | classification equals its step, error cases included, and keeps the invariants |
| CatalogueService.Catalogue.Extract | backend/app/plugins/expiry_tracker.py:407-432 | applying an extraction result equals its step and keeps the invariants |
| CatalogueService.Catalogue.EnterExpiry | backend/app/api/v1/plugins.py:184-227 | the manual entry route equals its step, whose conditions, errors and stored form are those of `ExpiryOutcomes.EnterExpiryExactly` and `EnterExpiryStores`, and keeps the invariants |
| CatalogueService.Catalogue.StoreManualExpiry | backend/app/plugins/expiry_tracker.py:750-801 | storing a manual date equals its step: refused without a classification or for a category without dates (`ExpiryOutcomes.StoreExactly`), else stored and settled |
| CatalogueService.Catalogue.ClearExpiry | backend/app/plugins/expiry_tracker.py:659-702 | clearing a date equals its step and keeps the invariants |
| CatalogueService.Catalogue.EnterOpened | backend/app/plugins/expiry_tracker.py:595-617 | storing an opened date equals its step and keeps the invariants |
| CatalogueService.Catalogue.ClearOpened | backend/app/plugins/expiry_tracker.py:620-643 | clearing an opened date equals its step and keeps the invariants |
| CatalogueService.Catalogue.Extend | backend/app/plugins/expiry_tracker.py:547-551 | the loop over extension attributes equals one write after another and keeps the invariants |
| CatalogueService.Catalogue.CreateAsset | backend/app/services/asset_service.py:38-106 | creation equals its step, whose columns, assertions, links and failure are those of `AssetOutcomes.CreateExactly`, and keeps the invariants |
| CatalogueService.Catalogue.UpdateAsset | backend/app/services/asset_service.py:109-135 | the update loop equals its step for every payload, with a rollback when a required column is null; the catalogue stays valid if and only if it was refused or leaves no redirected asset outside MERGED |
| CatalogueService.Catalogue.PatchAsset | backend/app/api/v1/assets.py:408-443 | the update route equals its step: household, version and lifecycle checks before any write |
| CatalogueService.Catalogue.DeleteAsset | backend/app/api/v1/assets.py:446-479 | the delete route archives through the lifecycle table and keeps the invariants |
| CatalogueService.Catalogue.MergeAsset | backend/app/services/asset_service.py:203-253 | the merge equals its step, each refusal included, and keeps the invariants |
| CatalogueService.Catalogue.AttachEvidence | backend/app/services/asset_service.py:138-185 | bulk insert and per-item fallback, even after a spurious failure, leave the same links |
| RenderBounds.MeasuredDefaultImageTokens | backend/scripts/sg226_bulk_scene.py:156-180 | the largest positive measured token count of the ledger, or the cited default when none is positive |
| RenderBounds.LiveWorstCase | backend/scripts/sg226_bulk_scene.py:377-399 | twice the baseline at the largest billable token price, or none when no such price is listed |
| RenderBounds.OwnerUpstreamTotals | backend/scripts/sg226_bulk_scene.py:402-435 | the ledger's stated owner-side costs of the day and of the month |
| RenderBounds.SceneSpendSoFar | backend/app/services/scene/openrouter.py:288-297 | the sum of known costs and the number of unknown ones |
| RenderBounds.LedgerThen | backend/scripts/sg226_bulk_scene.py:402-435 | a row adds its cost to the known spend or one to the unknown calls, and its owner-side cost to its own day and its own month |
| RenderBounds.WorstCaseCoversExactly | backend/scripts/sg226_bulk_scene.py:377-399 | every bill of at most twice the baseline at listed token prices is within the worst case if and only if some price is not negative |
| RenderBounds.WorstCaseIsAttained | backend/scripts/sg226_bulk_scene.py:377-399 | and some bill of twice the baseline at a listed price costs exactly the worst case |
| RenderBounds.ListedExactly | backend/scripts/sg226_bulk_scene.py:377-399 | the prices considered are those of billable lines whose unit contains "token" |
| RenderLedger.BaselineExactly | backend/scripts/sg226_bulk_scene.py:156-180 | the worst case is twice the largest of 1290 and the ledger's counts, at the given price |
| RenderLedger.AnswerIsLedgered | backend/app/services/scene/openrouter.py:569-627 | whatever happens between, the POST in flight leaves exactly one ledger row, dated when it is written and holding the answer's own cost, image tokens and owner-side cost, or none of them when it was not answered |
| RenderLedger.AnswerIsCounted | backend/scripts/sg226_bulk_scene.py:402-435 | known spend, unknown calls and the owner's day and month grow by just what the answer stated |
| RenderLedger.LedgerGrows | backend/app/services/scene/openrouter.py:569-627 | no action of any run drops or changes a ledger row |
| RenderLedger.AnswerRaisesBounds | backend/scripts/sg226_bulk_scene.py:156-180 | once an answer stated a positive token count, every later worst case of any run at a non-negative price is at least that of this count |
| RenderChecks.PassesExactly | backend/scripts/sg226_bulk_scene.py:463-515 | a bound passes if and only if known spend, unknown calls at the worst case and the planned sends fit under all four caps |
| RenderChecks.StartsExactly | backend/scripts/sg226_bulk_scene.py:662-673 | a run starts if and only if none runs and the marker is missing or holds only entries settled as not sent |
| RenderChecks.ListExactly | backend/scripts/sg226_bulk_scene.py:680-684 | the check before the first leg asks for all four sends and otherwise ends the run |
| RenderChecks.LegExactly | backend/scripts/sg226_bulk_scene.py:686-700 | the check of one leg asks for one send and otherwise ends the run |
| RenderChecks.KeylessLeg | backend/app/services/scene/openrouter.py:704-760 | a leg without a key sends and ledgers nothing, settles its entry as not sent and ends the run |
| RenderChecks.WholeRun | backend/scripts/sg226_bulk_scene.py:662-874 | a run whose list and legs all pass sends the four renders, ledgers each with its own answer in order, and leaves a marker of four settled entries |
| RenderSafety.PendingBeforeSend | backend/scripts/sg226_bulk_scene.py:739-763 | whenever a POST is in flight the durable marker holds its pending entry and blocks another run |
| RenderSafety.AnsweredAtMostOnce | backend/scripts/sg226_bulk_scene.py:662-678 | over all runs, crashes anywhere, answered POSTs never exceed one render list |
| RenderSafety.NoLaterSend | backend/scripts/sg226_bulk_scene.py:662-673 | once a POST was answered, or was in flight when its process ended, no later invocation sends |
| RenderSafety.BoundLeavesRoom | backend/scripts/sg226_bulk_scene.py:463-515 | a leg whose bound passes has room under all four caps for its send and for every outstanding charge, stated or not, when the unknown calls at its worst case cover the unstated ones |
| RenderSafety.SteadyPricesCover | backend/app/services/scene/openrouter.py:300-337 | the unknown calls cover everything outstanding while no outstanding bound exceeds the current worst case and no more owner-side bounds are open than there are unknown calls |
| RenderSteady.SteadyRunIsAdmissible | backend/app/services/scene/openrouter.py:300-337 | a run whose worst cases never fall, whose charges are within their bounds and whose owner-side bounds are counted at each leg meets everything the caps assume |
| RenderSteady.SteadyCapsHold | backend/scripts/sg226_bulk_scene.py:438-515 | so in every such run with no other spender all four exposures stay within the daily and monthly caps |
| RenderSteady.StatedAnswersCount | backend/scripts/sg226_bulk_scene.py:402-435 | when every answer that states its credit cost states its owner-side cost too, the owner-side bounds are counted at each leg |
| RenderSafety.LoopStaysWithinCaps | backend/scripts/sg226_bulk_scene.py:680-763 | however far the counters lag, no step of the loop takes any of the four exposures (shown and stated charges, and the bounds of all charges nobody has stated or ruled out) above its cap, and every send lands within all four |
| RenderSafety.CapsHold | backend/scripts/sg226_bulk_scene.py:438-515 | with no other spender the credit counters, however late they show charges, and the owner-side costs, recorded or still open, stay within the daily and monthly caps in every admissible run |
| RenderLimits.GuardCoversExactly | backend/app/services/scene/openrouter.py:300-337 | a bound that passes leaves room under all four caps in every reachable driver state with these outstanding charges if and only if the unknown calls at the current worst case cover them on both sides, or no bound can pass |
| RenderLimits.FallingPricesExceed | backend/scripts/sg226_bulk_scene.py:463-515 | from an account that has spent nothing, a leg bounded at 1.9 and one at 0.9, both unanswered, pass every bound and show 2.8 against a daily cap of 2.0 |
| RenderLimits.UnstatedOwnerExceeds | backend/app/services/scene/openrouter.py:804-809 | two legs bounded at the same 1.9, answered with a credit cost of 0.0 and no owner-side cost, pass every bound and leave the owner side open to 3.8 against a daily cap of 2.0 |
| RenderLimits.LegRuns | backend/scripts/sg226_bulk_scene.py:686-830 | a leg whose bound passes sends once whatever the answer says: one ledger row, both sides' charges accounted for, and its entry settled |
| RenderLimits.LegSendsExactly | backend/scripts/sg226_bulk_scene.py:686-700 | a leg sends if and only if its bound passes |
| RenderDriver.Driver.BoundInputs | backend/scripts/sg226_bulk_scene.py:438-515 | the bound's reads equal one step of the protocol and pass only when the projection is within the least remainder; the worst case is twice the baseline of the ledger's largest measured token count at the largest billable price, and never below that of any positive count in the ledger |
| RenderDriver.Driver.RenderScene | backend/app/services/scene/openrouter.py:704-870 | one guarded render sends at most one POST and adds exactly one ledger row for it, as a run of the protocol whose row `RenderLedger.AnswerIsLedgered` gives |
| RenderDriver.Driver.RunLeg | backend/scripts/sg226_bulk_scene.py:686-830 | one pass of the loop is a run of the protocol with at most one POST and as many new ledger rows |
| RenderDriver.Driver.RunRender | backend/scripts/sg226_bulk_scene.py:662-874 | the whole command is a run of the protocol, refuses when a prior run sent and otherwise starts, sends at most one list, adds one ledger row for each POST, and reports success only after an answer |
| Utf8.DecodeExactly | backend/app/schemas/common.py:18-23 | decoding bytes yields a text if and only if the bytes are that text's encoding |
| Base64Url.RoundTrip | backend/app/schemas/common.py:18-23 | decoding the padded URL-safe encoding yields the bytes (sections 4 and 5 of RFC 4648) |
| Base64Url.EncodeExactly | backend/app/schemas/common.py:18 | each three bytes become the four characters of their 24 bits in the URL-safe table, and a shorter rest is filled with zero bits and padded (sections 4 and 5 of RFC 4648) |
| Utf8.AsciiIsItself | backend/app/schemas/common.py:18 | ASCII text is its own encoding |
| Utf8.CharExactly | backend/app/schemas/common.py:18 | a character's bytes have the length of its range, the markers of that length and its bits in order (section 3 of RFC 3629) |
| Cursor.PrintedReads | backend/app/schemas/common.py:17-27 | every timestamp's printing reads back, optional microseconds and offset included |
| Cursor.CursorRoundTrip | backend/app/schemas/common.py:15-36 | a cursor decodes to its timestamp and identifier if and only if the identifier has no colon |
| Cursor.CursorHolds | backend/app/schemas/common.py:15-18 | the text inside a cursor is the identifier, a colon and the timestamp's printing |
| Cursor.RawExactly | backend/app/schemas/common.py:24-34 | a text is split at its first colon into identifier and timestamp, and only without a colon at its first bar into timestamp and identifier |
| Cursor.PrintedExactly | backend/app/schemas/common.py:17 | a timestamp prints as date, T, hours, minutes and seconds, the microseconds only when there are any, and the offset |
| Cursor.OffsetExactly | backend/app/schemas/common.py:17 | an offset of whole minutes prints as sign, hours and minutes |
| Dedup.ExactIsLeast | backend/app/services/dedup.py:34-41 | the exact match is the least of the household's assets holding the evidence |
| Dedup.SimilarMatches | backend/app/services/dedup.py:44-67 | over fetched rows in their order, or over its own unordered query, the loop keeps exactly the rows within the threshold and fails exactly when some row cannot be read or compared |
| Dedup.IdentifierCollisions | backend/app/services/dedup.py:70-107 | against a fetched dictionary or its own query, one collision for each barcode whose validated identifier some asset asserts; it fails exactly on a barcode that does not parse |
| Dedup.DeduplicateJob | backend/app/services/dedup.py:116-178 | the prefetching loop returns what its fetched rows give, in the order they were fetched, and for every job whose household is not named "" a result per-item querying may return, which `DedupTables.JobFindsExactly` reads off the tables |
| Dedup.DeduplicatePerItem | backend/app/services/dedup.py:51-91 | with each helper running its own join and identifier queries on every pass, the loop returns such a result for every job |
| Dedup.PrefetchExactly | backend/app/services/dedup.py:125-151 | prefetching and per-item querying succeed with the same findings if and only if the household is not named "", or the job is refused, or an item without an exact asset has an unparseable hash or barcode, or the rows of that household would add nothing |
| Dedup.MatchesExactly | backend/app/services/dedup.py:151-160 | matches come in evidence order; an item has its exact asset alone, or each match as often as pairs of its hashes and near rows make it |
| Dedup.CollisionsExactly | backend/app/services/dedup.py:77-107 | a text is reported if and only if a validated barcode of the item carries it and some asset asserts it, and the asset named is one that does |
| Dedup.NamesOnlyHousehold | backend/app/services/dedup.py:125-178 | every asset named by a match, a collision or the verdict belongs to the household |
| Dedup.VerdictExactly | backend/app/services/dedup.py:169-178 | the exact asset of the first item that has one; else, from the first item with a near row, the asset of its first near row, in the order the rows were fetched and some order of its hashes; else a new asset |
| Dedup.ExecutionsAgree | backend/app/services/dedup.py:125-178 | any two successful executions agree on exact assets, on matches and colliding identifiers up to order, and on the kind of verdict, and none fails when one succeeds; colliding assets agree when no identifier is asserted by two assets |
| Dedup.OrderDecides | backend/app/services/dedup.py:157-175 | of two near rows the one answered first decides the asset an item is similar to |
| DedupTables.JoinExactly | backend/app/services/dedup.py:125-131 | an observation and an asset are joined as often as there are a position of that hash observation and a link of its evidence to that asset of the household |
| DedupTables.NearExactlyAt | backend/app/services/dedup.py:57-66 | each match of an item is found once for every own hash, other hash and link at a comparable distance within the threshold, and for no other |
| DedupTables.ExactExactly | backend/app/services/dedup.py:34-41 | the exact asset is the least of the household's assets that hold the evidence, and there is none if and only if no asset of the household does |
| DedupTables.FailsExactlyAt | backend/app/services/dedup.py:57-62 | an item fails if and only if an own hash or barcode does not parse, or an own hash meets a joined observation that does not parse or cannot be compared |
| DedupTables.CollisionsCounted | backend/app/services/dedup.py:77-107 | a text is reported once for each validated, non-empty barcode of the item that carries it if some asset of the household asserts it, else never, and the asset named asserts it |
| DedupTables.JobFindsExactly | backend/app/services/dedup.py:116-178 | over the tables themselves: which jobs are refused, which fail, which matches and collisions the others report, and which verdict they give |
| LifecycleBackfill.Census | backend/scripts/backfill_asset_lifecycle.py:43-48 | each stored value once with its number of rows |
| LifecycleBackfill.Plan | backend/scripts/backfill_asset_lifecycle.py:60-67 | exactly the values outside the vocabulary, with their targets and rows |
| LifecycleBackfill.ProjectedCensus | backend/scripts/backfill_asset_lifecycle.py:70-76 | the dry run equals the census of the converted table |
| LifecycleBackfill.ApplyChanges | backend/scripts/backfill_asset_lifecycle.py:79-86 | the sequential updates convert every row as if at once and count the rows changed |
| LifecycleBackfill.ConversionSettles | backend/scripts/backfill_asset_lifecycle.py:51-57 | every status ends in the vocabulary and a second apply changes nothing |
| LifecycleBackfill.ConvertedExactly | backend/scripts/backfill_asset_lifecycle.py:51-57 | a status of the vocabulary stays, a foreign one becomes what it folds to if that is in the vocabulary and the fallback otherwise, and as many rows hold a value as become it |
| LifecycleBackfill.ChangedIsDiffering | backend/scripts/backfill_asset_lifecycle.py:79-86 | the reported count is the number of rows that differ |
| LifecycleBackfill.RowsConserved | backend/scripts/backfill_asset_lifecycle.py:70-76 | the counts of the converted table sum to the rows of the original |
| LedgerReclass.Ledger.UpdateRows | backend/scripts/sg224_classify.py:399-488 | it commits only when every listed row is there once and none is left out, changing exactly those costs; otherwise, or on any exception, the ledger is unchanged, and the stop says whether a statement found no row or how many unlisted unknown costs lingered |
| LedgerReclass.CommitsExactly | backend/scripts/sg224_classify.py:399-488 | a commit needs every listed id to be an openrouter row of unknown cost with the listed error, none twice, and no other such row; it zeroes exactly the listed costs and keeps every other field |
| LedgerReclass.CommitLeaves | backend/scripts/sg224_classify.py:512-547 | after a commit known spend is kept, unknown calls are zero, the projection drops by unknown calls times the worst case, and nulling the listed costs restores the ledger |

## Left out

- Candidate acceptance and the generic review-task resolve route: they may close a date task without a date, so the runs here contain the two services' own operations and inserts by others only.
- Other modules' inserts are constrained where identifiers are fresh: a candidate never has an asset's id, and nobody else opens a date task on an existing asset.
- Runs: a service-level update may not take a redirected asset out of MERGED; the update route is shown to meet that through the lifecycle table.
- Database mechanics: each operation commits or rolls back whole, queries see the tables as one value, and row ids are positions.
- JSON text: stored values are their decoded form, printing and parsing being inverse; numbers are reals, so the model does not tell 1 from 1.0 or true.
- Route parameter checks that do not reach the services: category aliases, extension attribute validation, plugin version, If-Match headers of plugin routes, and the audit row the manual entry route adds after storing.
- Regular-expression classes, case folding and stripping follow Unicode tables: the model takes any sound choice as a parameter.
- The compact and week spellings of ISO 8601 and the other spellings of timestamps: the readers of those are parameters, and results hold for any.
- The filename namer, the hash distance and Python's str(): parameters.
- Lone surrogates: Python raises on encoding one, and the model's text cannot hold one; the zone object and fold of a timestamp are reduced to its offset.
- The legacy bar-separated cursor: modelled, with no round trip claimed, because printed timestamps contain colons.
- RenderProtocol: one invocation at a time; the marker is never deleted by hand; a POST that ended without a status code counts as unsent, as in the driver, so a later run may send again after such failures only.
- RenderSafety.Admissible: a send charges between nothing and its leg's worst case, a send with no owner-side charge is known to have none only when that shows (`NoOwner`), at each leg's bound the unknown calls at its worst case cover the unstated charges of earlier ones on both sides, and nobody else spends while a leg is open.
- Photo enumeration, key handling, request building, image bytes, hashing, evidence files and console output: input and output only; `write_json` is kept as one atomic replacement.
- Money and prices are reals: rounding of floats, and values that are not finite, are not modelled.
- Dedup.DeduplicateJob: does not model the candidate row, its review tasks, its display name and its identifier; the scan for that identifier can fail on an unparseable barcode of an item with an exact asset, which the outcomes here do not count.
- LifecycleBackfill.Census: GROUP BY order; every result is independent of it.
- Migrations, seeding, plugin registry, search, the frontend and earlier one-off drivers.
