# Verified models of the context planner and the run-time protocols around it

The project models, in Dafny, the parts of the system that decide what reaches a language model and what a
client or a worker may rely on, and proves what each of them is for.

* **Context planner** (`crates/context-budget`). Inputs are estimated, the mandatory minimum is taken, the rest is
  pruned, a six-level reduction ladder runs, the context is ordered, and a final check sends or refuses it.
  `Items`, `Profiles`, `Pruning`, `Budgeting`, `Ladder`, `Summarizing`, `Caching` and `Planner` hold the code: mutable
  state as classes and arrays (`Selection`, `BoundedSummarizer`, `EstimateCache`, `ContextPlanner`, the pruned slice),
  each method proved equal to a pure function. `LadderFacts`, `LadderRuns`, `LadderExact`, `LadderOrder`,
  `PlannerFacts`, `PlannerExact`, `PlannerOrder`, `PlannerLimit`, `SummaryOrder`, `PlannerBounded`, `LedgerDigest` and
  `LedgerPlans` prove the theorems about those functions. The artifact store and the summarizer are arbitrary functions throughout.
* **Content identity** (`Normalizing`, `CanonicalJson`, `JsonText`): the one-pass text normaliser, the canonical JSON
  writer, and the reading of a JSON text into a map of its members before it is written.
* **Replay log and handshake** (`ReplayLog`, `ReplayExact`, `Handshake`): a bounded window of events with a
  cursor-driven client, and single-use nonces.
* **Core state machines** (`Proactivity`, `Kernel`, `Middleware`): tumbling-window rate limits, the analysis-kernel
  runtime, and the ordered policy pipeline.

`Machine` holds fixed-width integers and saturating arithmetic, `Texts` the character tests and text layouts, and `Order`
lexicographic keys and the stable sort that every comparator of the sources reduces to.

Main theorems: `PlannerOrder.PlanForgetsOrder`, `SummaryOrder.PlanForgetsOrderExactly`, `PlannerFacts.Conservation`,
`PlannerFacts.ReadyPlanIsSafe`, `PlannerLimit.FitsBelowTopLimit`, `PlannerFacts.RefusalNotPremature`,
`PlannerFacts.MandatoryRefusedExactly`, `PlannerExact.ReducedExactly`, `PlannerExact.ReadyReplanFits`,
`LadderExact.L1Exactly`, `LadderExact.L4Exactly`, `LadderExact.OnlyWorkspaceLeaves`, `PlannerOrder.NoCascade`,
`LadderRuns.LadderKeeps`, `Pruning.PruneSurvivors`, `Profiles.FallbackThreshold`, `Caching.CacheTransparent`,
`Normalizing.NormalizeText`, `CanonicalJson.CanonicalTextIdentifies`, `JsonText.OrderForgottenExactly`,
`LedgerDigest.DigestExact`, `LedgerDigest.DigestIdentifies`, `LedgerPlans.EqualTextMeansEqualInput`,
`LedgerPlans.IdsToldExactly`, `ReplayLog.CatchUpIsExact`, `ReplayExact.CatchUpPromisedExactly`,
`Handshake.AcceptancesAreOneToOne`, `Proactivity.RateBound`, `Proactivity.BoundReachedExactly`,
`Proactivity.LongRunRate`, `Kernel.HeldIsLatest`, `Kernel.AdmittedExactly`, `Middleware.RepliesAsDecided`,
`Middleware.LeastStoppingDecides`, `Middleware.NumbersGapFree`.

The lemmas whose names end in `Means` or `Exactly` pin the classifications, orders and steps the other theorems are
stated through: each says on fields and numbers what one of them is.

## What the proofs brought to light

* The budget checks add with saturation, so a hard limit equal to the largest u32 can never be exceeded: a valid profile
  guarantees that every ready plan fits exactly if its hard limit is smaller (`PlannerLimit.FitsBelowTopLimit`).
* After the profile has been validated, the second refusal of the mandatory part (against the hard limit) cannot fire:
  the limit on the mandatory part alone decides (`PlannerFacts.OnlyMandatoryLimitRefuses`).
* The catch-all drop reason `over_budget` is never assigned, whatever the summarizer answers
  (`PlannerFacts.Conservation`).
* A summarizer that names a mandatory item as a source takes it out of the context; a ready plan holds a mandatory input
  if and only if no recorded summary claims it (`PlannerFacts.ReadyPlanIsSafe`). The bounded summarizer claims none
  (`PlannerBounded.BoundedPlanKeepsMandatory`).
* A summary item copies whichever of its sources is listed first. With a summarizer that does not mind the order of its
  candidates, all arrangements of the inputs give the same plan if and only if no accepted summary absorbs two items
  (`SummaryOrder.PlanForgetsOrderExactly`); two swapped history items show the failure under every valid profile
  (`SummaryOrder.SwapShows`).
* A JSON text that repeats a key keeps only the last of its members, so the order of members shows; it is forgotten, at
  every depth, if and only if members with the same key have canonically equal values (`JsonText.OrderForgottenExactly`,
  `JsonText.NullOrTrue`). Keys that merely normalise alike do no harm, because objects are read into an ordered map.
* The ledger hash is meant to imply an equal model input. Over ready plans whose versions and ids contain no newline it
  does so if and only if no id stands for two contents, because contents are not hashed
  (`LedgerPlans.EqualTextMeansEqualInput`, `LedgerPlans.ContentIsNotDigested`). Ids are not escaped either: the hashed
  texts of ready plans determine the selected records exactly over alphabets without a newline
  (`LedgerPlans.IdsToldExactly`, with two such plans under every valid profile in `LedgerPlans.NewlineForgesItems`), and
  the lines of summaries and loadouts can be read back exactly over alphabets without comma and colon
  (`LedgerDigest.SourcesToldExactly`, `LedgerPlans.CommaForgesSources`).
* Two events can carry the largest sequence number; a client that has read the first never gets the second and is told
  of no gap. Exact catch-up is promised for a history if and only if no event follows one with that number, or the client
  starts where it cannot read such an event (`ReplayExact.CatchUpPromisedExactly`).
* The hourly cap is a cap per tumbling window: no hour sees more than 2 * cap - 1 proposals (`Proactivity.RateBound`).
  For a cap above one, some run reaches that many if and only if they fit into an hour at the minimum interval and the
  daily cap is above the hourly one (`Proactivity.BoundReachedExactly`).
* A value that fits is stored by the kernel before the reference to it is validated: a refused put leaves its value held
  exactly if only the reference is at fault (`Kernel.RefusedPutIsHeld`), a secret one included
  (`Kernel.RefusedSecretIsHeld`); the limits hold all the same.
* In the policy pipeline a later observer resets the override of an earlier policy to "allowed"
  (`Middleware.LeastStoppingDecides`), and the limit of 256 events per evaluation is unreachable
  (`Middleware.StepEvents`).

## Model

| member | source | states |
|---|---|---|
| `Items.HierarchyLevel` | crates/context-budget/src/compression.rs:53-74 | unverified and recovered items sit at the bottom; above it the kinds fall into policies, system and cancellation, user, decisions and memory, and the rest |
| `Items.PriorityMeans` | crates/context-budget/src/item.rs:357-366 | for every threshold: a priority reaches it if the base one does or a pin lifts it to 90, but a recovered note never counts above 20 |
| `Items.ExpiredMeans` | crates/context-budget/src/item.rs:369-378 | an item has expired exactly if its time to live or its retention has ended, in exact arithmetic |
| `Items.DropKeyMeans` | crates/context-budget/src/item.rs:395-403 | the drop order, field by field: unpinned first, then priority, age, hash and id |
| `Items.StaleKeyMeans` | crates/context-budget/src/ladder.rs:405-412 | the order of stale tool results, field by field |
| `Items.ContextKeyMeans` | crates/context-budget/src/compression.rs:80-92 | the order of the context, field by field: level, trust and freshness descending, then hash and id |
| `Items.MandatoryKeyMeans` | crates/context-budget/src/planner.rs:469-476 | the order of the mandatory items: by part, then age and id |
| `Items.RankKeyMeans` | crates/context-budget/src/compression.rs:289-295 | the ranking of equal contents: level and freshness descending, then id |
| `Items.RevisionKeyMeans` | crates/context-budget/src/compression.rs:314-328 | the ranking of revisions: version, age and id |
| `Profiles.ValidMeans` | crates/context-budget/src/profile.rs:91-135 | what the saturating checks of `validate` mean in exact arithmetic, both directions |
| `Profiles.Percent` | crates/context-budget/src/profile.rs:240-242 | the percentage is the floor of the exact quotient |
| `Profiles.FallbackThreshold` | crates/context-budget/src/profile.rs:150-187 | over all u32 windows, the fallback profile is valid if and only if the window has at least 7511 tokens |
| `Profiles.FallbackLimits` | crates/context-budget/src/profile.rs:150-187 | hard and soft limit for an unknown model are 85 and 75 percent of its window, at least 1 |
| `Profiles.FallbackReserves` | crates/context-budget/src/profile.rs:155-164 | its reserves are 8, 1 and 4 percent of the window within their bounds, 512 and 1024 |
| `Profiles.FallbackShares` | crates/context-budget/src/profile.rs:166-167 | its target and mandatory limit are the greatest numbers up to 60 and 40 percent that leave room for the reserves |
| `Profiles.ScaledExactly` | crates/context-budget/src/profile.rs:192-204 | with the fallback estimator the three limits are seven tenths rounded down, the mandatory limit is what then fits, and nothing else changes |
| `Profiles.ReplanExactly` | crates/context-budget/src/profile.rs:211-237 | a re-plan takes every limit to the greatest value that nine tenths of the old hard limit, the reported window and the remaining reserves allow, and changes nothing else |
| `Profiles.ReplanProfile` | crates/context-budget/src/profile.rs:211-237 | a re-plan of a valid profile raises no ceiling, keeps the tool-call, answer and schema reserves, and is valid exactly when the new soft limit leaves room above the remaining reserves |
| `Pruning.MarkExpired` | crates/context-budget/src/compression.rs:262-272 | the in-place pass turns the slice into its expired-marked version |
| `Pruning.TabulateWinners` | crates/context-budget/src/compression.rs:276-298 | the hash table maps each content hash to the first item in rank |
| `Pruning.MarkDuplicates` | crates/context-budget/src/compression.rs:276-311 | the in-place pass drops exactly the selected items that are not the winner of their hash |
| `Pruning.TabulateRevisions` | crates/context-budget/src/compression.rs:314-328 | the table holds the newest selected revision of each parent |
| `Pruning.MarkSuperseded` | crates/context-budget/src/compression.rs:314-344 | the in-place pass drops exactly the outdated revisions |
| `Pruning.PruneInPlace` | crates/context-budget/src/compression.rs:262-348 | the three passes over the slice compute `Prune` |
| `Pruning.WinnersRank` | crates/context-budget/src/compression.rs:276-298 | the winner of a hash is the least selected item of that content by (level, newest, id) |
| `Pruning.NewestRanks` | crates/context-budget/src/compression.rs:314-328 | the newest revision of a parent is the greatest by (version, created_at, id) |
| `Pruning.PruneExact` | crates/context-budget/src/compression.rs:262-348 | each item's fate, with its reason, is a verdict stated without tables or passes |
| `Pruning.PruneSurvivors` | crates/context-budget/src/compression.rs:262-348 | an item survives if and only if it is unexpired, the best of its content, and the newest among the content winners of its parent; survivors are unchanged |
| `Pruning.PruneForgetsOrder` | crates/context-budget/src/compression.rs:262-348 | survivors and drop reasons do not depend on the input order |
| `Pruning.PruneIdempotent` | crates/context-budget/src/compression.rs:262-348 | pruning twice is pruning once |
| `Budgeting.SelectParts` | crates/context-budget/src/budget.rs:205-239 | the loop over the five parts computes the chosen items, the part records and the saturated total |
| `Budgeting.MissingPart` | crates/context-budget/src/budget.rs:241-251 | the loop with its running total computes `MissingFrom` |
| `Budgeting.MissingPartMeaning` | crates/context-budget/src/budget.rs:241-251 | the parts before the named one fit, and unless everything fits the named one does not |
| `Budgeting.MinimumExact` | crates/context-budget/src/budget.rs:205-239 | the total of the parts is the saturated sum of all mandatory items: no kind is missed or counted twice |
| `Budgeting.PartsMean` | crates/context-budget/src/budget.rs:205-245 | there is a record for exactly the mandatory kinds of which there is an item; it counts them and adds up their tokens |
| `Budgeting.PartsForgetOrder` | crates/context-budget/src/budget.rs:205-239 | the part records do not depend on the input order |
| `Caching.EstimateCache.Estimate` | crates/context-budget/src/estimator.rs:199-222 | the answer is the cached or the direct value, the entries become the promoted list within capacity, and exactly one of hits and misses grows by one |
| `Caching.CacheRefinesRecency` | crates/context-budget/src/estimator.rs:177-222 | after any run the cache is the newest `capacity` entries of the unbounded recency list |
| `Caching.CacheTransparent` | crates/context-budget/src/estimator.rs:177-222 | if the key determines the content, every answer of every run equals the direct estimate, for every capacity |
| `Caching.HitExactly` | crates/context-budget/src/estimator.rs:199-222 | a request hits if and only if its key is among the `capacity` most recently used |
| `Summarizing.BoundedSummarizer.Validate` | crates/context-budget/src/compression.rs:479-507 | the loop finds the first objection to a model's answer |
| `Summarizing.BoundedSummarizer.Summarize` | crates/context-budget/src/compression.rs:517-548 | the result is `Answer`, and the model is asked at most once in the object's life |
| `Summarizing.AnswerBounded` | crates/context-budget/src/compression.rs:437-548 | every summary stays within its budget and names only non-mandatory, completed items it was given; the model's answer passes exactly if nothing is wrong with it |
| `Summarizing.ObjectionMeans` | crates/context-budget/src/compression.rs:481-513 | a model's answer meets no objection exactly if its id, sources and text are not empty, it is within the budget, and every source is given, optional and complete |
| `Summarizing.BelievedMeans` | crates/context-budget/src/compression.rs:522-556 | a model is believed exactly on its first attempt, if it is available and answers soundly |
| `Summarizing.FallbackExactly` | crates/context-budget/src/compression.rs:437-475 | the fallback names every complete, optional item of the lowest two levels and no other, by priority and age, for at most 64 tokens |
| `Summarizing.BoundedIsHonest` | crates/context-budget/src/compression.rs:437-548 | for any model behind it, the bounded summarizer names only given sources, which is what the ladder theorems ask of a summarizer |
| `Ladder.Selection.constructor` | crates/context-budget/src/ladder.rs:170-177 | every given item is selected with no drop reason |
| `Ladder.Selection.DropItem` | crates/context-budget/src/ladder.rs:218-223 | exactly the first item with the id is dropped |
| `Ladder.Selection.DropUntilGoal` | crates/context-budget/src/ladder.rs:381-390 | the loop drops in order until the goal is met, as `DropLoop` says |
| `Ladder.Selection.CollectDuplicates` | crates/context-budget/src/ladder.rs:335-348 | walking from most to least valuable yields the ids whose content was seen before |
| `Ladder.Selection.ApplyL1` | crates/context-budget/src/ladder.rs:303-378 | expired, duplicate and superseded items in drop order, until the goal |
| `Ladder.Selection.ApplyL2` | crates/context-budget/src/ladder.rs:381-390 | items below the cutoff in drop order, until the goal |
| `Ladder.Selection.ApplyL3` | crates/context-budget/src/ladder.rs:393-419 | completed tool results, until the goal |
| `Ladder.Selection.ApplyL4` | crates/context-budget/src/ladder.rs:422-475 | offloads while the store answers and the replacement is smaller; a failed write ends the level with a diagnostic |
| `Ladder.Selection.ApplyL5` | crates/context-budget/src/ladder.rs:478-563 | absorbs the sources and appends one summary item, only if that is smaller than its sources |
| `Ladder.Selection.ApplyL6` | crates/context-budget/src/ladder.rs:566-599 | the stepwise release of retry, streaming and schema reserves is one release down to the protected part |
| `Ladder.Selection.ApplyLevel` | crates/context-budget/src/ladder.rs:271-286 | dispatch to the level, with the whole new selection and outcome |
| `Ladder.Selection.Run` | crates/context-budget/src/ladder.rs:257-296 | the loop with its early exit computes `RunLadder` and records the levels that shrank the total |
| `LadderFacts.ContextExact` | crates/context-budget/src/ladder.rs:180-201 | the saturating totals are the saturated exact sums |
| `LadderFacts.ShortestPrefix` | crates/context-budget/src/ladder.rs:381-419 | a drop loop drops exactly the shortest prefix of its order that reaches the goal, or all of it |
| `LadderFacts.L2Shortest` | crates/context-budget/src/ladder.rs:228-239 | L2 visits exactly the optional items below the cutoff, each once, unpinned and least important first, and drops the shortest prefix that reaches the goal, or all |
| `LadderFacts.L3Shortest` | crates/context-budget/src/ladder.rs:393-419 | the same for completed tool results, unpinned and oldest first |
| `LadderExact.GoalExact` | crates/context-budget/src/ladder.rs:180-201 | the goal is met exactly if the selected tokens are within it, in exact arithmetic |
| `LadderExact.L1Exactly` | crates/context-budget/src/ladder.rs:303-378 | L1 visits every optional item in drop order and drops exactly those that have expired, repeat a mandatory or more valuable content, or are not the newest revision, up to the shortest prefix that reaches the goal |
| `LadderExact.L4Exactly` | crates/context-budget/src/ladder.rs:422-475 | L4 offers exactly the optional items of workspace privacy without a locator and above the threshold, in drop order, until the goal is met, the store fails or nothing is left; a smaller answer takes the place of its item |
| `LadderExact.L4OffersAll` | crates/context-budget/src/ladder.rs:422-475 | if L4 ends short of its goal without a diagnostic, every such item was offered and the store took every offer |
| `LadderExact.OnlyWorkspaceLeaves` | crates/context-budget/src/ladder.rs:257-475 | over the whole run, for any store and summarizer, size, locator or mark change only on items that were optional, selected, of workspace privacy, without a locator and above the threshold |
| `LadderExact.L5Exactly` | crates/context-budget/src/ladder.rs:478-563 | L5 asks about the selected history and tool results, if there are two, and takes a summary exactly if it is smaller than what it names; the summary item is made from the first named one |
| `LadderExact.L6Exactly` | crates/context-budget/src/ladder.rs:566-599 | L6 gives up what it can of the retry, streaming and schema reserves, in exact numbers |
| `LadderExact.RecordedExactly` | crates/context-budget/src/ladder.rs:267-295 | a level is recorded exactly if it lowered the optional tokens and reserves together |
| `LadderFacts.L1Leaves` | crates/context-budget/src/ladder.rs:303-378 | if L1 misses the goal, the optional items left are unexpired, repeat no content of each other or of a mandatory item, and are the newest revisions of their parents |
| `LadderFacts.L4Facts` | crates/context-budget/src/ladder.rs:422-475 | for any store, items stay selected, only shrink, and nothing else changes |
| `LadderFacts.L5Facts` | crates/context-budget/src/ladder.rs:478-563 | for any summarizer, exactly the items an accepted summary names are absorbed and at most one summary is appended |
| `LadderRuns.LevelProgress` | crates/context-budget/src/ladder.rs:267-295 | no level increases context tokens or optional-plus-reserve tokens, exactly or saturated, for any store and summarizer; a recorded compression strictly shrinks the context |
| `LadderRuns.LadderKeeps` | crates/context-budget/src/ladder.rs:257-296 | over the whole run, for any store and summarizer, every item is accounted for, mandatory items are untouched unless a summary claims them, protected reserves survive, and applied levels strictly ascend |
| `LadderRuns.NeverMet` | crates/context-budget/src/ladder.rs:267-295 | a run that ends short of its goal was short of it before every level |
| `LadderRuns.MissedGoalExhausts` | crates/context-budget/src/ladder.rs:257-419 | a missed goal leaves no selected optional input that is expired, below the cutoff or a completed tool result |
| `LadderOrder.LadderForgetsOrder` | crates/context-budget/src/ladder.rs:228-475 | without a summarizer two arrangements of the same items end in the same items, reserves and outcome, for every artifact store |
| `Planner.ContextPlanner.EstimateInputs` | crates/context-budget/src/planner.rs:318-334 | estimates through the cache are the direct ones, and hits plus misses grow by the number of inputs |
| `Planner.ContextPlanner.Finish` | crates/context-budget/src/planner.rs:389-624 | pruning in place, the mutable selection and the ladder compute the same plan as the pure pipeline |
| `Planner.ContextPlanner.AssembleItems` | crates/context-budget/src/planner.rs:336-387 | the mandatory minimum and its two limits, with the refusal each of them gives |
| `Planner.ContextPlanner.PlanWith` | crates/context-budget/src/planner.rs:233-627 | the planner with its cache and mutable state computes exactly `PlanFor` |
| `Planner.ContextPlanner.ReplanAfterContextLengthError` | crates/context-budget/src/planner.rs:629-693 | one re-plan under the reduced profile; a plan that is itself a re-plan is refused |
| `PlannerFacts.Conservation` | crates/context-budget/src/planner.rs:389-478 | for any store and summarizer, selected and dropped items are the inputs, each once, plus at most one selected summary; every dropped item has a specific reason or is a source of that summary |
| `PlannerFacts.FinalCheck` | crates/context-budget/src/planner.rs:479-523 | the plan is ready if and only if the saturated exact size with the remaining reserves is within the hard limit |
| `PlannerFacts.ContextInOrder` | crates/context-budget/src/planner.rs:463-478 | the context lists mandatory parts first in their fixed order, oldest first, then the rest by level, trust and freshness |
| `PlannerFacts.ReadyPlanIsSafe` | crates/context-budget/src/planner.rs:338-523 | for any store and summarizer, a ready plan holds a mandatory input unchanged if and only if no recorded summary claims it, its exact size plus reserves fits the hard limit and the window, and the tool-call and answer reserves are left |
| `PlannerFacts.HonestPlanKeepsMandatory` | crates/context-budget/src/planner.rs:338-523 | behind a summarizer that names only what it was given, a ready plan holds every mandatory input unchanged |
| `PlannerExact.ReducedExactly` | crates/context-budget/src/planner.rs:414-478 | without a forced reduction, survivors of pruning that fit the soft limit with the reserves are the context, with no level applied; otherwise the context is within the target, or every level was tried above it and nothing droppable is left; with a forced reduction the bound is the mandatory total and no reserve is given up; inputs are measured by the primary estimator, or by the fallback one under the scaled profile |
| `PlannerExact.StartExactly` | crates/context-budget/src/planner.rs:389-413 | the ladder starts from exactly the mandatory inputs and the optional ones that are live, the best of their content and the newest best revision |
| `PlannerExact.EstimatorRefusedExactly` | crates/context-budget/src/planner.rs:244-268 | a plan is refused for want of an estimator exactly if there is neither a primary nor a fallback one |
| `PlannerExact.MandatoryRefusalSays` | crates/context-budget/src/planner.rs:350-387 | a refusal of the mandatory part names its exact size up to saturation, its limit and the missing part, and selects nothing |
| `PlannerExact.ExhaustedRefusalSays` | crates/context-budget/src/planner.rs:492-523 | an exhausted refusal names the size that is left with the reserves, the hard limit and the missing part |
| `PlannerExact.LedgerExactly` | crates/context-budget/src/planner.rs:524-610 | the ledger repeats request and outcome; a ready plan's adds up what is sent and records every drop with its reason, a refusal's what was needed |
| `PlannerExact.ReadyReplanFits` | crates/context-budget/src/planner.rs:629-693 | a ready re-plan follows a plan that was none, and with its reserves fits nine tenths of the old hard limit and the window the provider reported |
| `PlannerExact.SecondReplanSays` | crates/context-budget/src/planner.rs:640-668 | the refusal of a second re-plan repeats what the first one needed, had and selected |
| `PlannerLimit.FitsBelowTopLimit` | crates/context-budget/src/planner.rs:492-523 | a valid profile keeps every ready plan within its hard limit in exact arithmetic if and only if that limit is below the largest u32 |
| `PlannerLimit.TwoNotesOutcome` | crates/context-budget/src/planner.rs:492-523 | a concrete request that no valid profile can fit: it ends in `DropsExhausted`, except under the largest limit, where it is sent |
| `PlannerLimit.EmptyPlanIsReady` | crates/context-budget/src/planner.rs:233-627 | with an estimator and a valid profile a call without inputs is ready, for every store and summarizer |
| `PlannerFacts.RefusalNotPremature` | crates/context-budget/src/planner.rs:414-523 | a `DropsExhausted` refusal means the ladder ran over what pruning left, missed its goal at every level, and left no selected optional item but a summary that could still be dropped |
| `PlannerFacts.OnlyMandatoryLimitRefuses` | crates/context-budget/src/planner.rs:350-387 | under a valid profile an early refusal happens exactly if the exact mandatory size exceeds its own limit; the second check never fires |
| `PlannerFacts.MandatoryRefusedExactly` | crates/context-budget/src/planner.rs:336-387 | a plan with an estimator and a valid profile ends in `MandatoryOverflow` if and only if the mandatory part exceeds its limit |
| `PlannerOrder.PlanForgetsOrder` | crates/context-budget/src/planner.rs:226-624 | permuting distinct inputs leaves the selected sequence, the dropped items and reasons, reserves, levels, refusal, diagnostics and ledger unchanged up to the order of dropped items |
| `SummaryOrder.PlanForgetsOrderExactly` | crates/context-budget/src/planner.rs:226-624 | for any store and any summarizer that does not mind the order of its candidates, all arrangements of the inputs give the same plan if and only if no accepted summary absorbs two items |
| `SummaryOrder.SwapShows` | crates/context-budget/src/ladder.rs:538-551 | under every valid profile, swapping two history inputs of the largest size changes the context that is assembled |
| `PlannerBounded.BoundedPlanKeepsMandatory` | crates/context-budget/src/planner.rs:338-523 | for any model behind the bounded summarizer, a ready plan holds every mandatory input unchanged |
| `PlannerBounded.BoundedIsUnordered` | crates/context-budget/src/compression.rs:437-548 | the bounded summarizer minds the order of its candidates only if its model does |
| `PlannerBounded.BoundedPlanForgetsOrderExactly` | crates/context-budget/src/planner.rs:226-624 | the exact condition for order independence, for any such model |
| `PlannerOrder.DigestForgetsOrder` | crates/context-budget/src/ledger.rs:211-223 | sorting the dropped records by id and reason forgets the order in which they were listed |
| `LedgerDigest.DigestTextForgetsOrder` | crates/context-budget/src/ledger.rs:174-264 | the hashed text does not depend on the order in which dropped items are listed |
| `LedgerDigest.DigestExact` | crates/context-budget/src/ledger.rs:174-264 | without newlines in versions and ids, two hashed texts are equal if and only if versions, flags, mandatory parts, selected records in order, the bag of dropped records, levels, the lines of compressions and loadout, totals, and the stage and missing part of a refusal are |
| `LedgerDigest.DigestIdentifies` | crates/context-budget/src/ledger.rs:174-264 | if, besides, summary, source, loadout and tool ids hold no separator of their line, two hashed texts are equal if and only if the ledgers agree in everything the hash covers, source ids and tool ids one by one |
| `LedgerDigest.SourcesToldExactly` | crates/context-budget/src/ledger.rs:224-245 | over every alphabet of ids: the lines of compressions and loadouts determine their ids if and only if the alphabet has neither comma nor colon |
| `LedgerPlans.EqualTextMeansEqualInput` | crates/context-budget/src/ledger.rs:167-264 | over all ready plans with printable ledgers that draw ids and contents from a set, equal hashed texts mean equal model inputs if and only if no id stands for two contents in that set |
| `LedgerPlans.IdsToldExactly` | crates/context-budget/src/ledger.rs:200-206 | over every alphabet with the characters of the text's own layout, the hashed texts of ready plans determine the selected records if and only if the alphabet has no newline |
| `LedgerPlans.NewlineForgesItems` | crates/context-budget/src/ledger.rs:200-206 | under every valid profile and for every size two items of which fit, two ready plans that select different ids have the same hashed text |
| `LedgerPlans.CommaForgesSources` | crates/context-budget/src/ledger.rs:224-233 | under every valid profile, two ready plans that summarize different inputs have the same hashed text |
| `LedgerPlans.ContentIsNotDigested` | crates/context-budget/src/ledger.rs:167-264 | under every valid profile and for every id, two ready plans that send different contents under that id have the same ledger |
| `PlannerOrder.ReplanOutcome` | crates/context-budget/src/planner.rs:629-693 | a re-plan is marked as one and is either ready or a `ProviderReplanFailed` refusal |
| `PlannerOrder.NoCascade` | crates/context-budget/src/planner.rs:629-693 | along any chain of re-plans, everything after the first is a `ProviderReplanFailed` refusal |
| `Normalizing.NormalizeText` | crates/context-budget/src/hash.rs:30-57 | the one-pass buffer algorithm equals the pipeline unify, split, trim, join, drop trailing newlines |
| `Normalizing.NormalIsFixed` | crates/context-budget/src/hash.rs:30-57 | a text is left alone if and only if it has no carriage return, no blank before a newline or the end, and no trailing newline |
| `Normalizing.PipelineNormal` | crates/context-budget/src/hash.rs:30-57 | every result is such a normal text |
| `Normalizing.TrimEndMeans` | crates/context-budget/src/hash.rs:30-57 | trimming a line takes away exactly the blanks at its end |
| `Normalizing.UnifyMeans` | crates/context-budget/src/hash.rs:30-57 | CRLF and CR become one newline each, and nothing else changes |
| `Normalizing.SplitMeans` | crates/context-budget/src/hash.rs:30-57 | lines are what stands between newlines: joined again they are the text |
| `Normalizing.NormalizeIdempotent` | crates/context-budget/src/hash.rs:30-57 | normalising twice is normalising once |
| `CanonicalJson.WriteIsPrint` | crates/context-budget/src/hash.rs:69-110 | the canonical text is the plain print of the value with strings normalised, numbers respelled and members sorted |
| `CanonicalJson.EscapeExactly` | crates/context-budget/src/hash.rs:129-131 | the escape of every character, as section 7 of RFC 8259 has it |
| `CanonicalJson.PrintUnique` | crates/context-budget/src/hash.rs:69-131 | no printed value is a prefix of another: a value and what follows it can be told apart |
| `CanonicalJson.CanonicalTextIdentifies` | crates/context-budget/src/hash.rs:62-131 | two values have the same canonical text if and only if they agree up to normalisation, number spelling and member order |
| `JsonText.TextIsMeaning` | crates/context-budget/src/hash.rs:62-67 | two texts have the same canonical text if and only if the values read from them have the same canonical form |
| `JsonText.InsertionForgetsOrder` | crates/context-budget/src/hash.rs:62-67 | members told apart by their keys leave the same ordered map in whatever order they are inserted |
| `JsonText.MemberOrderIsForgotten` | crates/context-budget/src/hash.rs:62-110 | reordering the members of a text at any depth leaves the canonical text unchanged when no object repeats a key |
| `JsonText.OrderForgottenExactly` | crates/context-budget/src/hash.rs:62-110 | no reordering of a text at any depth shows in the canonical text if and only if members with the same key have canonically equal values |
| `JsonText.RepeatedKeyShowsOrder` | crates/context-budget/src/hash.rs:62-110 | swapping two members with one key leaves the text unchanged if and only if their values are canonically equal |
| `JsonText.NullOrTrue` | crates/context-budget/src/hash.rs:62-110 | a concrete text with a repeated key whose canonical text depends on the order |
| `ReplayLog.NewLog` | crates/desktop-ipc/src/lib.rs:306-315 | capacities outside 1..512 are refused |
| `ReplayLog.LoadLog` | crates/desktop-ipc/src/lib.rs:318-327 | appends one by one and stops at the first refusal |
| `ReplayLog.BoundedReplayLog.AppendEvent` | crates/desktop-ipc/src/lib.rs:330-350 | a refused event changes nothing; an accepted one evicts the oldest beyond the capacity; `bytes` is the payload sum |
| `ReplayLog.AppendedExactly` | crates/desktop-ipc/src/lib.rs:330-344 | an event is accepted exactly if it is small enough, follows the last one and keeps the log within 16 MiB; otherwise the first of these that fails is the answer |
| `ReplayLog.RequestRefusedExactly` | crates/desktop-ipc/src/lib.rs:353-365 | a replay request is refused exactly if it asks for more than 512 events |
| `ReplayLog.BoundedReplayLog.Evict` | crates/desktop-ipc/src/lib.rs:345-348 | the eviction loop leaves exactly the last events up to the capacity, with their payload sum |
| `ReplayLog.BoundedReplayLog.ReplayAfter` | crates/desktop-ipc/src/lib.rs:353-385 | request bound, gap report or the first events after the cursor |
| `ReplayLog.TakeAfter` | crates/desktop-ipc/src/lib.rs:377-384 | filtering and taking in one loop yields the first `n` events after the cursor |
| `ReplayLog.LogRefinesHistory` | crates/desktop-ipc/src/lib.rs:330-350 | after any run of appends the log is exactly the last accepted events up to its capacity, contiguous, with their payload sum |
| `ReplayLog.ExportRebuilds` | crates/desktop-ipc/src/lib.rs:318-350 | reading back the exported events of any reachable log rebuilds it |
| `ReplayLog.CatchUpIsExact` | crates/desktop-ipc/src/lib.rs:330-385 | under any interleaving of appends and replay requests, a client never told of a gap has received exactly the history after its starting cursor up to where it has read, in order, without omission or repeat |
| `ReplayLog.ShortBatchIsComplete` | crates/desktop-ipc/src/lib.rs:353-385 | a batch shorter than asked for means the client has everything |
| `ReplayLog.GapExactly` | crates/desktop-ipc/src/lib.rs:353-376 | a client whose cursor is not older than the history is told of a gap if and only if an event it lacks has been evicted |
| `ReplayLog.TopSequenceIsLost` | crates/desktop-ipc/src/lib.rs:335-370 | a concrete run of the failing side: two events with the largest sequence number, the second lost without a gap report |
| `ReplayExact.CatchUpPromisedExactly` | crates/desktop-ipc/src/lib.rs:330-385 | for every capacity, start and publishable history: all interleavings without a gap report leave the client with exactly the events after its start if and only if no event follows one with the largest number, or the client starts at that number or before the history |
| `ReplayExact.TopIsLost` | crates/desktop-ipc/src/lib.rs:330-385 | the failing interleaving for every other history: read along up to the first event with the largest number, then publish the rest |
| `ReplayExact.HistoryIsPublishable` | crates/desktop-ipc/src/lib.rs:330-350 | every history some offers lead to can be published event by event, with the same log |
| `Handshake.ConstantTimeEq` | crates/desktop-ipc/src/session.rs:110-119 | the accumulating comparison returns true if and only if the byte strings are equal |
| `Handshake.MessageIdentifies` | crates/desktop-ipc/src/session.rs:187-190 | for admissible roles and client ids the proof message determines role, client id and nonce |
| `Handshake.NewVerifier` | crates/desktop-ipc/src/session.rs:415-425 | a verifier exists exactly for a valid launch context and a nonce lifetime in 1..300000 ms; otherwise the first failing check is reported |
| `Handshake.HandshakeVerifier.IssueNonce` | crates/desktop-ipc/src/session.rs:434-442 | replaces any unanswered nonce by one with a saturated expiry |
| `Handshake.HandshakeVerifier.Verify` | crates/desktop-ipc/src/session.rs:445-508 | every outcome consumes the nonce; the answer is the first failing check in order |
| `Handshake.AcceptedExactly` | crates/desktop-ipc/src/session.rs:445-508 | a handshake is accepted if and only if it answers a pending nonce in time, in form, from the expected peer and with the right proof |
| `Handshake.RejectedExactly` | crates/desktop-ipc/src/session.rs:445-508 | every other handshake is rejected for the first thing that is wrong with it |
| `Handshake.AcceptedAnswersIssue` | crates/desktop-ipc/src/session.rs:434-508 | in every run an acceptance answers the latest issue, with no other verification in between, within the lifetime, with a proof over that nonce, role and client |
| `Handshake.AcceptancesAreOneToOne` | crates/desktop-ipc/src/session.rs:434-508 | two acceptances answer two different issues, the later after the earlier acceptance |
| `Handshake.NonceIsSingleUse` | crates/desktop-ipc/src/session.rs:434-508 | if issued values never repeat, no nonce is accepted twice |
| `Handshake.ProofBinds` | crates/desktop-ipc/src/session.rs:187-190 | with a collision-free keyed hash, equal accepted proofs mean equal role, client and nonce |
| `Proactivity.RunsAreAdmissible` | crates/evohime-core/src/ambient.rs:612-651 | in a run of decide and commit every shown proposal passed the budget against the counters of those before it |
| `Proactivity.DecidedExactly` | crates/evohime-core/src/ambient_proactivity.rs:372-394 | after any run a proposal is allowed if and only if it is authorized, not muted, paused or in quiet hours, both current windows are below their caps, and the minimum interval has passed; otherwise the first of these that fails is the answer |
| `Proactivity.Spaced` | crates/evohime-listener-contract/src/proactivity.rs:85-107 | whatever the clock does, accepted readings never go back and are at least the minimum interval apart |
| `Proactivity.RateBound` | crates/evohime-core/src/ambient_proactivity.rs:330-394 | in every run no half-open hour sees more than 2 * cap - 1 proposals, and likewise for days |
| `Proactivity.LongRunRate` | crates/evohime-core/src/ambient_proactivity.rs:330-394 | up to reading T at most cap * (1 + (T - first) / hour) proposals are shown, and likewise for days |
| `Proactivity.WindowsChain` | crates/evohime-core/src/ambient_proactivity.rs:330-365 | a window holds the last readings up to the cap and gives way only when its full length has passed since it opened |
| `Proactivity.BoundReachedExactly` | crates/evohime-core/src/ambient_proactivity.rs:330-394 | some run shows 2 * cap - 1 proposals within one half-open hour if and only if caps are positive and the cap is one, or the daily cap is above it and that many proposals at the minimum interval take less than an hour |
| `Proactivity.FiveInOneHour` | crates/evohime-core/src/ambient_proactivity.rs:330-394 | under the default budget of three per hour, some run shows five within one hour |
| `Kernel.TotalBytes` | crates/evohime-core/src/analysis_kernel.rs:253 | summing in any order yields the bytes held by the map |
| `Kernel.NewRuntime` | crates/evohime-core/src/analysis_kernel.rs:180-190 | a runtime exists exactly for a valid session and starts created, without objects or requests; otherwise the first failing check of the session or its limits is reported |
| `Kernel.SessionMeans` | crates/evohime-local-storage/src/analysis_kernel.rs:165-255 | a session is valid exactly if every id, hash, limit and time of it is, number by number |
| `Kernel.RequestMeans` | crates/evohime-core/src/analysis_kernel.rs:78-118 | a request is valid exactly if its version, ids, size, references, operation and capability are |
| `Kernel.MarkerMeans` | crates/evohime-core/src/analysis_kernel.rs:594-606 | the scan finds exactly the six marker words, in any case, anywhere in the bytes |
| `Kernel.KernelRuntime.Start` | crates/evohime-core/src/analysis_kernel.rs:199-213 | only a created, stopped or reset runtime starts, with fresh times and a zero count |
| `Kernel.KernelRuntime.Stop` | crates/evohime-core/src/analysis_kernel.rs:215-218 | stops and clears the objects |
| `Kernel.KernelRuntime.Reset` | crates/evohime-core/src/analysis_kernel.rs:220-226 | forgets times, count and objects |
| `Kernel.KernelRuntime.MarkCrashed` | crates/evohime-core/src/analysis_kernel.rs:228-233 | forgets times and objects but keeps the count |
| `Kernel.KernelRuntime.PutEphemeralObject` | crates/evohime-core/src/analysis_kernel.rs:238-285 | the refusals in order; a value that fits is stored before its reference is validated |
| `Kernel.KernelRuntime.Admit` | crates/evohime-core/src/analysis_kernel.rs:290-324 | an invalid request changes nothing; timeouts and the request limit end the run and clear the objects; a payload with a sensitive marker is counted but is no activity |
| `Kernel.KernelRuntime.AcceptOutput` | crates/evohime-core/src/analysis_kernel.rs:326-333 | an output over either limit ends the run, in any phase |
| `Kernel.StoredIfItFits` | crates/evohime-core/src/analysis_kernel.rs:249-268 | the three refusals together mean exactly that the objects with the value in place would exceed a limit, replacements included |
| `Kernel.RefusedPutIsHeld` | crates/evohime-core/src/analysis_kernel.rs:238-285 | a put is refused exactly if the kernel does not run, the value does not fit or the reference is invalid; a refused put leaves its value held, unless it was held before, exactly if the kernel runs, the value fits and only the reference is invalid |
| `Kernel.RefusedSecretIsHeld` | crates/evohime-core/src/analysis_kernel.rs:267-284 | under every valid session a first put of a secret byte is refused and held |
| `Kernel.EveryRunIsSound` | crates/evohime-core/src/analysis_kernel.rs:199-333 | after every run of operations objects exist only while running, and their number and total bytes are within the limits, replacements included |
| `Kernel.AdmittedBounded` | crates/evohime-core/src/analysis_kernel.rs:290-324 | requests admitted since the last start never exceed the limit |
| `Kernel.AdmittedExactly` | crates/evohime-core/src/analysis_kernel.rs:290-324 | in every run a request is admitted if and only if every field of it is as it must be, the kernel runs, it comes within the lifetime of the start and the idle time of the latest activity, fewer requests than the limit were counted since the start, and its bytes mention no secret; every other answer is the first of these that fails, with its effect |
| `Kernel.ActivityMoves` | crates/evohime-core/src/analysis_kernel.rs:199-324 | only a start, an admission, a reset or a crash moves the time of the latest activity |
| `Kernel.LifecycleExactly` | crates/evohime-core/src/analysis_kernel.rs:199-233 | a start succeeds exactly in a fresh, stopped or reset kernel and begins a new count; stop, reset and crash leave no object |
| `Kernel.OutputAcceptedExactly` | crates/evohime-core/src/analysis_kernel.rs:326-333 | an output is accepted exactly if it is within both limits; otherwise the run is over |
| `Kernel.HeldIsLatest` | crates/evohime-core/src/analysis_kernel.rs:199-333 | an object is held if and only if some operation stored it and nothing since has replaced it or ended the running phase; its value is that operation's |
| `Kernel.NothingSurvives` | crates/evohime-core/src/analysis_kernel.rs:215-333 | whatever is held after a stop, reset, crash or breach was stored after it |
| `Kernel.AdmittedInTime` | crates/evohime-core/src/analysis_kernel.rs:290-324 | an admitted request comes within the lifetime of its start and within the idle time of the latest start or admitted request |
| `Kernel.RecoveryNeedsStopOrReset` | crates/evohime-core/src/analysis_kernel.rs:199-226 | a crashed runtime or one that broke a limit runs again only after a stop or a reset |
| `Middleware.Validate` | crates/evohime-core/src/agent_middleware_pipeline.rs:359-398 | the one pass accepts exactly the well-formed definitions: sound policies, pairwise distinct ids, matching hash |
| `Middleware.NewService` | crates/evohime-core/src/agent_middleware_pipeline.rs:403-443 | a service exists exactly for a valid definition that matches the snapshot and the capabilities |
| `Middleware.AgentMiddlewarePipelineService.Evaluate` | crates/evohime-core/src/agent_middleware_pipeline.rs:449-537 | the gates, the ordered loop with its early exit and both error returns, with the whole new state |
| `Middleware.AgentMiddlewarePipelineService.Consult` | crates/evohime-core/src/agent_middleware_pipeline.rs:476-532 | the loop over the ordered policies computes the walk and advances the event counter by what it consumed |
| `Middleware.WalkEvents` | crates/evohime-core/src/agent_middleware_pipeline.rs:467-532 | events belong to the first policies in order, one each, numbered consecutively, and end with the first that stops |
| `Middleware.LeastStoppingDecides` | crates/evohime-core/src/agent_middleware_pipeline.rs:467-532 | the least (priority, id) stopping policy of the phase decides; if none stops, the greatest policy does; if none matches, the request is allowed |
| `Middleware.RepliesAsDecided` | crates/evohime-core/src/agent_middleware_pipeline.rs:476-532 | in every run a successful reply says what the policy with the last word says: blocked, paused or aborted with its reason, overridden with the input hash, id, version and limit or field count, or allowed; and so does each event for its policy, up to the first that halts |
| `Middleware.EvaluatedExactly` | crates/evohime-core/src/agent_middleware_pipeline.rs:449-466 | a request is evaluated if and only if it belongs to the run, is nested at most four deep, has good texts and a new key; otherwise the first of these that fails is the answer and nothing changes |
| `Middleware.EvaluationFailsExactly` | crates/evohime-core/src/agent_middleware_pipeline.rs:505-536 | an evaluation fails if and only if the event of a policy before which none halts is too large |
| `Middleware.DefinitionOrderForgotten` | crates/evohime-core/src/agent_middleware_pipeline.rs:467-475 | reordering the definition changes no reply and no state over any run |
| `Middleware.EvaluatedOnce` | crates/evohime-core/src/agent_middleware_pipeline.rs:464-466 | over any run each idempotency key is evaluated at most once |
| `Middleware.DuplicateMeansEvaluated` | crates/evohime-core/src/agent_middleware_pipeline.rs:464-466 | `Duplicate` is answered only when an earlier request with the key was evaluated |
| `Middleware.StepEvents` | crates/evohime-core/src/agent_middleware_pipeline.rs:505-536 | the event-count limit is never reached; numbers grow by the events handed out, and by at least one when an event is too large |
| `Middleware.NumbersGapFree` | crates/evohime-core/src/agent_middleware_pipeline.rs:505-536 | over any run event numbers strictly increase, and they are 1, 2, 3, ... without a gap if and only if no event was too large |

## Left out

- PlannerOrder.PlanForgetsOrder: asks for an unavailable summarizer; `SummaryOrder.PlanForgetsOrderExactly` gives the exact condition for one that is available.
- SummaryOrder.PlanForgetsOrderExactly: asks for a summarizer whose answer does not depend on the order of its candidates; nothing can be said about one that reads the order.
- ReplayLog.CatchUpIsExact: the exactness clause asks that no event follows one with the largest sequence number; `ReplayExact.CatchUpPromisedExactly` proves when that is needed.
- LedgerPlans.IdsToldExactly: asks for an alphabet with 0, 1, colon and space, which the two plans of the failing side are spelled with; an alphabet without a newline needs none of them.
- PlannerFacts.ReadyPlanIsSafe: asks for pairwise distinct input ids (items are looked up by the first matching id) and a hard limit below the largest u32, which `PlannerLimit.FitsBelowTopLimit` proves necessary.
- Proactivity.RunsAreAdmissible: decision and commit happen at one clock reading without another commit in between, as the registry's callers do; counters start empty instead of being loaded from storage.
- Middleware.AgentMiddlewarePipelineService.Evaluate: the event counter is unbounded, so wrap-around after 2^64 events is not modelled; the serialized size of an event is an arbitrary predicate.
- The re-plan of a plan made with the fallback estimator scales the already scaled profile once more; the model does so too, and no validity is claimed for scaled profiles.
- Item fields that selection never reads (task, session, source, last use, conflict key).
- The list of decisions returned by `prune`, metrics, latencies, compression ratios, category budgets, and the wording of diagnostics.
- SHA-256, HMAC, Unicode normalisation, JSON parsing, number formatting and random generation: parameters of the model, with injectivity or freshness assumed only where a statement says so.
- Estimators other than the fallback are arbitrary functions; tool-schema estimates take the same path through the cache.
- Loading and merging of profile catalogs: any function from provider, model and window to a profile.
- Conflict detection between items, artifact storage, scratchpads and loadouts of the context-budget crate.
- Frame encoding, protocol negotiation, pipe names, launch files and session secrets of the desktop protocol.
- Kernel request execution beyond admission, storage and output checks, and checkpoint references.
- The handler mode and failure policy of middleware, which evaluation never reads.
- Persistence of proactivity counters, mute lists, policy files, and the life cycle of single proposals.
- Git change sets, benchmarks, adapters, browser sessions, command line and desktop shell: not part of this model.
