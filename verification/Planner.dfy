/**
 `ContextPlanner`: estimate, take the mandatory minimum, prune, run the ladder, order, check the
 budget once more, then send or refuse (crates/context-budget/src/planner.rs, ledger.rs).
 */
module Planner {
  import opened Machine
  import opened Order
  import opened Items
  import opened Profiles
  import opened Pruning
  import opened Budgeting
  import opened Caching
  import opened Ladder

  // --------------------------------------------------------------- the request

  datatype Content = Text(text: string) | Json(json: string) | Binary(bytes: seq<u8>)

  /** Hashing and normalisation of contents, for any hash function. */
  datatype Hashing = Hashing(contentHash: (ItemKind, Content) -> string, normalizedSize: Content -> u64)

  datatype Estimator = Estimator(
    version: string, chatTemplateVersion: string, estimate: Content -> u32, messageOverhead: u32)

  datatype PlanInput = PlanInput(item: ContextItem, content: Content)

  /** The tools a call offers, as recorded in the ledger. */
  datatype Loadout = Loadout(id: string, intent: string, rulesVersion: string, matchedRule: Option<string>,
                             toolIds: seq<string>, schemaTokens: u32, fallback: bool)

  datatype PlanRequest = PlanRequest(
    modelCallId: string, provider: string, model: string, providerWindow: Option<u32>,
    now: i64, inputs: seq<PlanInput>, loadout: Option<Loadout>, replanOf: Option<string>, forceReduction: bool)

  /** What the planner is configured with; `resolve` stands for any profile catalog. */
  datatype Setup = Setup(
    resolve: (string, string, Option<u32>) -> Profile,
    primary: Option<Estimator>, fallbackAvailable: bool, hashing: Hashing)

  // ----------------------------------------------------------------- the result

  datatype Stage = MandatoryOverflow | DropsExhausted | ProviderReplanFailed | EstimatorUnavailable

  datatype Unavailable = Unavailable(stage: Stage, requiredTokens: u32, availableTokens: u32,
                                     missingPart: Option<ItemKind>)

  datatype SelectedRecord = SelectedRecord(id: string, tokens: u32)

  datatype DroppedRecord = DroppedRecord(id: string, reason: DropReason)

  datatype Ledger = Ledger(
    id: string, profileVersion: string, tokenizerVersion: string, fallbackEstimator: bool, sent: bool,
    mandatoryTokens: u32, selectedOptionalTokens: u32, reservesTokens: u32, estimatedPromptTokens: u32,
    selectedItems: seq<SelectedRecord>, droppedItems: seq<DroppedRecord>, mandatoryParts: seq<PartRecord>,
    levelsApplied: seq<LadderLevel>, compression: seq<SummaryOutcome>, loadout: Option<Loadout>,
    replanOf: Option<string>, unavailable: Option<Unavailable>)

  datatype Plan = Plan(
    profile: Profile, selected: seq<ContextItem>, dropped: seq<ContextItem>, reserves: u32,
    ledger: Ledger, diagnostics: seq<Diagnostic>, unavailable: Option<Unavailable>, fallbackEstimator: bool)

  predicate IsReady(plan: Plan) {
    plan.unavailable.None?
  }

  // ----------------------------------------------------------------- estimators

  function CeilDiv(value: u64, divisor: nat): u32
    requires divisor >= 1
  {
    Saturate((value + divisor - 1) / divisor)
  }

  function FallbackEstimator(hashing: Hashing): Estimator {
    Estimator("fallback-1", "fallback-chat-1",
              (c: Content) => SatAdd(CeilDiv(hashing.normalizedSize(c), 2), 16), 8)
  }

  /** The estimator in use and whether it is the fallback. */
  function Choose(setup: Setup): Option<(Estimator, bool)> {
    if setup.primary.Some? then Some((setup.primary.value, false))
    else if setup.fallbackAvailable then Some((FallbackEstimator(setup.hashing), true))
    else None
  }

  /** An input with hash, size and tokens computed by the planner itself. */
  function Estimated(hashing: Hashing, e: Estimator, input: PlanInput): ContextItem {
    input.item.(contentHash := hashing.contentHash(input.item.kind, input.content),
                bytes := hashing.normalizedSize(input.content),
                tokenizerVersion := e.version,
                estimatedTokens := SatAdd(e.estimate(input.content), e.messageOverhead),
                selected := true, dropReason := None)
  }

  function EstimateAll(hashing: Hashing, e: Estimator, inputs: seq<PlanInput>): (items: seq<ContextItem>)
    ensures |items| == |inputs|
    ensures forall i :: 0 <= i < |inputs| ==> items[i] == Estimated(hashing, e, inputs[i])
  {
    Map((input: PlanInput) => Estimated(hashing, e, input), inputs)
  }

  // ------------------------------------------------------------------- refusals

  function Refuse(request: PlanRequest, profile: Profile, version: string, why: Unavailable, parts: seq<PartRecord>,
                  selected: seq<SelectedRecord>, fallback: bool, levels: seq<LadderLevel>): Plan
  {
    var ledger := Ledger("ledger-" + request.modelCallId, profile.profileVersion, version, fallback, false,
                         FoldParts(0, parts), 0, ReservesTotal(profile), why.requiredTokens,
                         selected, [], parts, levels, [], request.loadout, request.replanOf, Some(why));
    Plan(profile, [], [], 0, ledger, [], Some(why), fallback)
  }

  // ------------------------------------------------------- pruning the candidates

  /** Mandatory items sit out the pruning. */
  function HoldBack(x: ContextItem): ContextItem {
    x.(selected := !IsMandatory(x))
  }

  function Readmit(x: ContextItem): ContextItem {
    if IsMandatory(x) then x.(selected := true) else x
  }

  function PruneOptional(items: seq<ContextItem>, now: i64): seq<ContextItem> {
    Map(Readmit, Prune(Map(HoldBack, items), now))
  }

  predicate NotSelected(x: ContextItem) {
    !x.selected
  }

  // --------------------------------------------------------------- the assembly

  predicate WithinSoftLimit(profile: Profile, contextTokens: u32) {
    SatAdd(contextTokens, ReservesTotal(profile)) <= profile.softLimitTokens
  }

  function LadderContext(request: PlanRequest, profile: Profile, mandatoryTokens: u32): Context {
    Context(request.now, profile, if request.forceReduction then mandatoryTokens else profile.targetTokens,
            !request.forceReduction)
  }

  /** The selection after the ladder, which runs above the soft limit or on demand. */
  function Reduce(request: PlanRequest, profile: Profile, mandatoryTokens: u32, items: seq<ContextItem>,
                  sink: OffloadSink, summarizer: Summarizer): State {
    var reserves := ReservesTotal(profile);
    if request.forceReduction || !WithinSoftLimit(profile, ContextTokens(items))
    then RunLadder(items, reserves, LadderContext(request, profile, mandatoryTokens), sink, summarizer)
    else State(items, reserves, NOTHING_DONE)
  }

  /** A dropped item that nothing explains is reported as over budget. */
  function Explain(summaries: seq<SummaryOutcome>): ContextItem -> ContextItem {
    (x: ContextItem) =>
      if x.dropReason.None? && !IsSource(summaries, x.id) then x.(dropReason := Some(OverBudget)) else x
  }

  predicate IsOptional(x: ContextItem) {
    !IsMandatory(x)
  }

  /** Mandatory parts in their fixed order, then the rest by hierarchy. */
  function InContextOrder(selected: seq<ContextItem>): seq<ContextItem> {
    SortBy(MandatoryKey, Filter(IsMandatory, selected)) + SortBy(ContextKey, Filter(IsOptional, selected))
  }

  function SelectedRecords(items: seq<ContextItem>): seq<SelectedRecord> {
    Map((x: ContextItem) => SelectedRecord(x.id, x.estimatedTokens), items)
  }

  predicate HasReason(x: ContextItem) {
    x.dropReason.Some?
  }

  function RecordDrop(x: ContextItem): DroppedRecord {
    DroppedRecord(x.id, if x.dropReason.Some? then x.dropReason.value else OverBudget)
  }

  /** `filter_map` over the items that carry a reason. */
  function DroppedRecords(items: seq<ContextItem>): seq<DroppedRecord> {
    Map(RecordDrop, Filter(HasReason, items))
  }

  function Dropped(preDropped: seq<ContextItem>, st: State): seq<ContextItem> {
    preDropped + Map(Explain(st.outcome.summaries), Filter(NotSelected, st.items))
  }

  /** The final budget check on the ordered context, and the plan. */
  function Deliver(request: PlanRequest, profile: Profile, version: string, fallback: bool, parts: seq<PartRecord>,
                   ordered: seq<ContextItem>, dropped: seq<ContextItem>, reserves: u32, outcome: Outcome): Plan
  {
    var mandatory := FoldTokens(0, IsMandatory, ordered);
    var optional := FoldTokens(0, IsOptional, ordered);
    var total := SatAdd(SatAdd(mandatory, optional), reserves);
    if total > profile.hardLimitTokens then
      var why := Unavailable(DropsExhausted, total, profile.hardLimitTokens,
                             MissingFrom(0, parts, profile.hardLimitTokens));
      Refuse(request, profile, version, why, parts, SelectedRecords(ordered), fallback, outcome.levelsApplied)
        .(diagnostics := outcome.diagnostics, selected := ordered, dropped := dropped)
    else
      var ledger := Ledger("ledger-" + request.modelCallId, profile.profileVersion, version, fallback, true,
                           mandatory, optional, reserves, SatAdd(mandatory, optional),
                           SelectedRecords(ordered), DroppedRecords(dropped), parts,
                           outcome.levelsApplied, outcome.summaries, request.loadout, request.replanOf, None);
      Plan(profile, ordered, dropped, reserves, ledger, outcome.diagnostics, None, fallback)
  }

  /** Steps 8 to 10: ordering, the final check and the plan. */
  function Conclude(request: PlanRequest, profile: Profile, version: string, fallback: bool,
                    parts: seq<PartRecord>, preDropped: seq<ContextItem>, st: State): Plan
  {
    Deliver(request, profile, version, fallback, parts, InContextOrder(Filter(IsSelected, st.items)),
            Dropped(preDropped, st),
            st.reserves, st.outcome)
  }

  /** The state the ladder leaves for one set of estimated items. */
  function Reduced(request: PlanRequest, profile: Profile, items: seq<ContextItem>, sink: OffloadSink,
                   summarizer: Summarizer): State {
    var start := Map(Select, Filter(IsSelected, PruneOptional(items, request.now)));
    Reduce(request, profile, FoldParts(0, Parts(items, PARTS)), start, sink, summarizer)
  }

  /** The refusal an assembly ends in before any pruning, if there is one. */
  function EarlyRefusal(profile: Profile, parts: seq<PartRecord>): Option<Unavailable> {
    var m, reserves := FoldParts(0, parts), ReservesTotal(profile);
    if m > profile.absoluteMvcMaxLimit then
      Some(Unavailable(MandatoryOverflow, m, profile.absoluteMvcMaxLimit,
                       MissingFrom(0, parts, profile.absoluteMvcMaxLimit)))
    else if SatAdd(m, reserves) > profile.hardLimitTokens then
      Some(Unavailable(MandatoryOverflow, SatAdd(m, reserves), profile.hardLimitTokens,
                       MissingFrom(0, parts, SatSub(profile.hardLimitTokens, reserves))))
    else None
  }

  /** Steps 4 to 10 of the pipeline, on estimated items and a valid profile. */
  function Assemble(request: PlanRequest, profile: Profile, version: string, fallback: bool, items: seq<ContextItem>,
                    sink: OffloadSink, summarizer: Summarizer): Plan
  {
    var parts := Parts(items, PARTS);
    var early := EarlyRefusal(profile, parts);
    if early.Some? then Refuse(request, profile, version, early.value, parts, [], fallback, [])
    else
      Conclude(request, profile, version, fallback, parts, Filter(NotSelected, PruneOptional(items, request.now)),
               Reduced(request, profile, items, sink, summarizer))
  }

  /** The profile a request is planned under, before the fallback estimator scales it. */
  function BaseProfile(setup: Setup, request: PlanRequest, override: Option<Profile>): Profile {
    if override.Some? then override.value else setup.resolve(request.provider, request.model, request.providerWindow)
  }

  function EffectiveProfile(base: Profile, fallback: bool): Profile {
    if fallback then ScaledForFallback(base) else base
  }

  /** `plan_with`, without its cache. */
  function PlanFor(setup: Setup, request: PlanRequest, sink: OffloadSink, summarizer: Summarizer,
                   override: Option<Profile>): Plan {
    var base := BaseProfile(setup, request, override);
    var choice := Choose(setup);
    if choice.None? then
      Refuse(request, base, "unavailable", Unavailable(EstimatorUnavailable, 0, 0, None), [], [], false, [])
    else
      var (e, fallback) := choice.value;
      var profile := EffectiveProfile(base, fallback);
      if !IsValid(profile) then
        Refuse(request, profile, e.version,
               Unavailable(MandatoryOverflow, ReservesTotal(profile), profile.hardLimitTokens, Some(SafetyPolicy)), [],
               [], fallback, [])
      else
        Assemble(request, profile, e.version, fallback, EstimateAll(setup.hashing, e, request.inputs), sink, summarizer)
  }

  /** `replan_after_context_length_error`, without its cache. */
  function ReplanFor(setup: Setup, request: PlanRequest, previous: Plan, window: Option<u32>, sink: OffloadSink,
                     summarizer: Summarizer): Plan {
    if previous.ledger.replanOf.Some? then
      var why := Unavailable(ProviderReplanFailed, previous.ledger.estimatedPromptTokens,
                             previous.profile.hardLimitTokens,
                             if previous.ledger.mandatoryParts == [] then None
                                 else Some(previous.ledger.mandatoryParts[0].part));
      var refusal := Refuse(request, previous.profile, previous.ledger.tokenizerVersion, why,
                            previous.ledger.mandatoryParts,
                            previous.ledger.selectedItems, previous.fallbackEstimator, previous.ledger.levelsApplied);
      refusal.(ledger := refusal.ledger.(replanOf := Some(previous.ledger.id)))
    else
      var plan := PlanFor(setup, request.(replanOf := Some(previous.ledger.id)), sink, summarizer,
                          Some(Replan(previous.profile, window)));
      if IsReady(plan) then plan
      else
        var why := plan.unavailable.value.(stage := ProviderReplanFailed);
        plan.(unavailable := Some(why), ledger := plan.ledger.(unavailable := Some(why)))
  }

  // ------------------------------------------------------------- the stateful planner

  function KeyFor(hashing: Hashing, e: Estimator, input: PlanInput): EstimateKey {
    EstimateKey(ContentEstimate, hashing.contentHash(input.item.kind, input.content), e.version, "norm-1",
                e.chatTemplateVersion)
  }

  /** Equal hashes and equal versions imply equal estimates; `truth` is the estimate a key stands for. */
  ghost predicate Identifies(hashing: Hashing, e: Estimator, truth: EstimateKey -> u32) {
    forall input: PlanInput :: truth(KeyFor(hashing, e, input)) == e.estimate(input.content)
  }

  class ContextPlanner {
    const setup: Setup
    const cache: EstimateCache

    constructor (setup: Setup)
      ensures this.setup == setup && fresh(cache) && cache.Valid() && cache.entries == []
    {
      this.setup := setup;
      this.cache := new EstimateCache(4096);
    }

    ghost predicate Trusts(truth: EstimateKey -> u32)
      reads this, cache
    {
      && cache.Valid() && Agrees(cache.entries, truth)
      && (Choose(setup).Some? ==> Identifies(setup.hashing, Choose(setup).value.0, truth))
    }

    /** Step 3: the estimates come through the cache and are the direct ones. */
    method EstimateInputs(e: Estimator, inputs: seq<PlanInput>, ghost truth: EstimateKey -> u32)
      returns (items: seq<ContextItem>)
      requires cache.Valid() && Agrees(cache.entries, truth) && Identifies(setup.hashing, e, truth)
      modifies cache
      ensures cache.Valid() && Agrees(cache.entries, truth)
      ensures items == EstimateAll(setup.hashing, e, inputs)
      ensures cache.hits + cache.misses == old(cache.hits) + old(cache.misses) + |inputs|
    {
      items := [];
      for i := 0 to |inputs|
        invariant cache.Valid() && Agrees(cache.entries, truth)
        invariant |items| == i && forall k :: 0 <= k < i ==> items[k] == Estimated(setup.hashing, e, inputs[k])
        invariant cache.hits + cache.misses == old(cache.hits) + old(cache.misses) + i
      {
        var input := inputs[i];
        var key := KeyFor(setup.hashing, e, input);
        PromoteAgrees(cache.entries, key, truth(key), cache.capacity, truth);
        var tokens := cache.Estimate(key, e.estimate(input.content));
        var item := input.item.(contentHash := key.contentHash, bytes := setup.hashing.normalizedSize(input.content),
                                tokenizerVersion := e.version, estimatedTokens := SatAdd(tokens, e.messageOverhead),
                                selected := true, dropReason := None);
        items := items + [item];
      }
    }

    /** Steps 6 to 10 for candidates whose mandatory part fits. */
    method Finish(request: PlanRequest, profile: Profile, version: string, fallback: bool, items: seq<ContextItem>,
                  parts: seq<PartRecord>, mandatoryTokens: u32, sink: OffloadSink, summarizer: Summarizer)
      returns (plan: Plan)
      requires parts == Parts(items, PARTS) && mandatoryTokens == FoldParts(0, parts)
      ensures plan == Conclude(request, profile, version, fallback, parts,
                               Filter(NotSelected, PruneOptional(items, request.now)),
                               Reduced(request, profile, items, sink, summarizer))
    {
      var held := Map(HoldBack, items);
      var slice := new ContextItem[|held|](i requires 0 <= i < |held| => held[i]);
      assert slice[..] == held;
      PruneInPlace(slice, request.now);
      var pruned := Map(Readmit, slice[..]);
      var selection := new Selection(Filter(IsSelected, pruned), ReservesTotal(profile));
      var outcome := NOTHING_DONE;
      if request.forceReduction || !WithinSoftLimit(profile, ContextTokens(selection.items)) {
        outcome := selection.Run(LadderContext(request, profile, mandatoryTokens), sink, summarizer);
      }
      plan := Conclude(request, profile, version, fallback, parts, Filter(NotSelected, pruned),
                       State(selection.items, selection.reserves, outcome));
    }

    /** Steps 4 and 5: the mandatory minimum and its two limits, then the rest. */
    method AssembleItems(request: PlanRequest, profile: Profile, version: string, fallback: bool,
                         items: seq<ContextItem>, sink: OffloadSink, summarizer: Summarizer)
      returns (plan: Plan)
      ensures plan == Assemble(request, profile, version, fallback, items, sink, summarizer)
    {
      var _, parts, mandatoryTokens := SelectParts(items, PARTS);
      var reserves := ReservesTotal(profile);
      if mandatoryTokens > profile.absoluteMvcMaxLimit {
        var missing := MissingPart(parts, profile.absoluteMvcMaxLimit);
        return Refuse(request, profile, version,
                      Unavailable(MandatoryOverflow, mandatoryTokens, profile.absoluteMvcMaxLimit, missing),
                      parts, [], fallback, []);
      }
      if SatAdd(mandatoryTokens, reserves) > profile.hardLimitTokens {
        var missing := MissingPart(parts, SatSub(profile.hardLimitTokens, reserves));
        return Refuse(request, profile, version,
                      Unavailable(MandatoryOverflow, SatAdd(mandatoryTokens, reserves), profile.hardLimitTokens,
                                  missing), parts, [], fallback, []);
      }
      plan := Finish(request, profile, version, fallback, items, parts, mandatoryTokens, sink, summarizer);
    }

    /** The planner with its cache, its mutable selection and its in-place pruning computes exactly `PlanFor`. */
    method PlanWith(request: PlanRequest, sink: OffloadSink, summarizer: Summarizer, override: Option<Profile>,
                    ghost truth: EstimateKey -> u32)
      returns (plan: Plan)
      requires Trusts(truth)
      modifies cache
      ensures Trusts(truth)
      ensures plan == PlanFor(setup, request, sink, summarizer, override)
    {
      var base := BaseProfile(setup, request, override);
      var choice := Choose(setup);
      if choice.None? {
        return Refuse(request, base, "unavailable", Unavailable(EstimatorUnavailable, 0, 0, None), [], [], false, []);
      }
      var (e, fallback) := choice.value;
      var profile := EffectiveProfile(base, fallback);
      if Validate(profile).Err? {
        return Refuse(request, profile, e.version,
                      Unavailable(MandatoryOverflow, ReservesTotal(profile), profile.hardLimitTokens,
                                  Some(SafetyPolicy)), [], [], fallback, []);
      }
      var items := EstimateInputs(e, request.inputs, truth);
      plan := AssembleItems(request, profile, e.version, fallback, items, sink, summarizer);
    }

    method ReplanAfterContextLengthError(request: PlanRequest, previous: Plan, window: Option<u32>, sink: OffloadSink,
                                         summarizer: Summarizer, ghost truth: EstimateKey -> u32)
      returns (plan: Plan)
      requires Trusts(truth)
      modifies cache
      ensures Trusts(truth)
      ensures plan == ReplanFor(setup, request, previous, window, sink, summarizer)
    {
      if previous.ledger.replanOf.Some? {
        var part := if previous.ledger.mandatoryParts == [] then None else Some(previous.ledger.mandatoryParts[0].part);
        plan := Refuse(request, previous.profile, previous.ledger.tokenizerVersion,
                       Unavailable(ProviderReplanFailed, previous.ledger.estimatedPromptTokens,
                                   previous.profile.hardLimitTokens, part),
                       previous.ledger.mandatoryParts, previous.ledger.selectedItems, previous.fallbackEstimator,
                       previous.ledger.levelsApplied);
        plan := plan.(ledger := plan.ledger.(replanOf := Some(previous.ledger.id)));
        return;
      }
      plan := PlanWith(request.(replanOf := Some(previous.ledger.id)), sink, summarizer,
                       Some(Replan(previous.profile, window)), truth);
      if !IsReady(plan) {
        var why := plan.unavailable.value.(stage := ProviderReplanFailed);
        plan := plan.(unavailable := Some(why), ledger := plan.ledger.(unavailable := Some(why)));
      }
    }
  }
}
