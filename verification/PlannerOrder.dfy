/**
 The plan does not depend on the order of the inputs; re-plans do not cascade; and where saturation
 would hide an overflow.
 */
module PlannerOrder {
  import opened Machine
  import opened Order
  import opened Items
  import opened Profiles
  import opened Pruning
  import opened Budgeting
  import opened Ladder
  import opened LadderFacts
  import opened LadderOrder
  import opened Planner
  import opened PlannerFacts

  // -------------------------------------------------------------- the ledger digest

  function RecordKey(r: DroppedRecord): Key {
    [S(r.id), S(ReasonName(r.reason))]
  }

  function ReasonName(r: DropReason): string {
    match r
    case OverBudget => "over_budget"
    case LowPriority => "low_priority"
    case Duplicate => "duplicate"
    case Superseded => "superseded"
    case Expired => "expired"
    case Offloaded => "offloaded"
    case StaleToolOutput => "stale_tool_output"
  }

  /** A compression, a loadout and a refusal without what the hash leaves out. */
  function DigestedSummary(s: SummaryOutcome): SummaryOutcome {
    s.(summaryTokens := 0, fallbackReason := None)
  }

  function DigestedLoadout(l: Option<Loadout>): Option<Loadout> {
    if l.None? then None else Some(l.value.(matchedRule := None, schemaTokens := 0, fallback := false))
  }

  function DigestedRefusal(u: Option<Unavailable>): Option<Unavailable> {
    if u.None? then None else Some(u.value.(requiredTokens := 0, availableTokens := 0))
  }

  /** What `compute_hash` covers: the ledger without what it leaves out, and with its dropped items in one fixed
      order. */
  function DigestInput(ledger: Ledger): Ledger {
    ledger.(id := "", replanOf := None, estimatedPromptTokens := 0,
            droppedItems := SortBy(RecordKey, ledger.droppedItems),
            compression := Map(DigestedSummary, ledger.compression),
            loadout := DigestedLoadout(ledger.loadout), unavailable := DigestedRefusal(ledger.unavailable))
  }

  // ---------------------------------------------------------------- order of inputs

  /** Equal except for the order in which dropped items are listed. */
  ghost predicate SamePlan(p: Plan, q: Plan) {
    && multiset(p.dropped) == multiset(q.dropped)
    && multiset(p.ledger.droppedItems) == multiset(q.ledger.droppedItems)
    && q == p.(dropped := q.dropped, ledger := p.ledger.(droppedItems := q.ledger.droppedItems))
    && DigestInput(p.ledger) == DigestInput(q.ledger)
  }

  lemma RecordsPermute(a: seq<ContextItem>, b: seq<ContextItem>)
    requires multiset(a) == multiset(b)
    ensures multiset(DroppedRecords(a)) == multiset(DroppedRecords(b))
  {
    FilterPermutes(HasReason, a, b);
    MapPermutes(RecordDrop, Filter(HasReason, a), Filter(HasReason, b));
  }

  lemma DigestForgetsOrder(a: seq<DroppedRecord>, b: seq<DroppedRecord>)
    requires multiset(a) == multiset(b)
    ensures SortBy(RecordKey, a) == SortBy(RecordKey, b)
  {
    forall r, s: DroppedRecord | RecordKey(r) == RecordKey(s) ensures r == s {
      assert RecordKey(r)[0] == RecordKey(s)[0] && RecordKey(r)[1] == RecordKey(s)[1];
      ReasonNamesDiffer(r.reason, s.reason);
    }
    ByLawful(RecordKey);
    ByDistinguishes(RecordKey, a);
    SortForgetsOrder(By(RecordKey), a, b);
  }

  lemma ReasonNamesDiffer(r: DropReason, s: DropReason)
    requires ReasonName(r) == ReasonName(s)
    ensures r == s
  {
    assert ReasonName(r)[0] == ReasonName(s)[0];
    assert |ReasonName(r)| == |ReasonName(s)|;
    assert ReasonName(r)[1] == ReasonName(s)[1];
  }

  lemma ContextForgetsOrder(a: seq<ContextItem>, b: seq<ContextItem>)
    requires SameItems(a, b)
    ensures InContextOrder(Filter(IsSelected, a)) == InContextOrder(Filter(IsSelected, b))
  {
    KeysNameIds();
    FilterKeepsSame(IsSelected, a, b);
    var ka, kb := Filter(IsSelected, a), Filter(IsSelected, b);
    CandidatesForgetOrder(MandatoryKey, IsMandatory, ka, kb);
    CandidatesForgetOrder(ContextKey, IsOptional, ka, kb);
  }

  /** Where an appended optional item ends up in the context. */
  lemma AppendedInContext(s: seq<ContextItem>, x: ContextItem)
    requires IsOptionalSelected(x)
    ensures var kept := Filter(IsSelected, s);
      InContextOrder(Filter(IsSelected, s + [x]))
      == SortBy(MandatoryKey, Filter(IsMandatory, kept))
         + Place(By(ContextKey), x, SortBy(ContextKey, Filter(IsOptional, kept)))
  {
    var kept := Filter(IsSelected, s);
    FilterConcat(IsSelected, s, [x]);
    FilterConcat(IsMandatory, kept, [x]);
    FilterConcat(IsOptional, kept, [x]);
    FilterOne(x);
    ByLawful(ContextKey);
    SortPlacesLast(By(ContextKey), Filter(IsOptional, kept), x);
    assert Filter(IsMandatory, kept) + [] == Filter(IsMandatory, kept);
  }

  lemma FilterOne(x: ContextItem)
    requires IsOptionalSelected(x)
    ensures Filter(IsSelected, [x]) == [x] && Filter(IsMandatory, [x]) == [] && Filter(IsOptional, [x]) == [x]
  {
    assert [x][1..] == [];
  }

  lemma ContextAlike(a: seq<ContextItem>, b: seq<ContextItem>, tail: seq<ContextItem>)
    requires SameItems(a, b) && |tail| <= 1 && forall x :: x in tail ==> IsOptionalSelected(x)
    ensures InContextOrder(Filter(IsSelected, a + tail)) == InContextOrder(Filter(IsSelected, b + tail))
  {
    if tail == [] {
      assert a + tail == a && b + tail == b;
      ContextForgetsOrder(a, b);
    } else {
      var x := tail[0];
      assert tail == [x];
      KeysNameIds();
      FilterKeepsSame(IsSelected, a, b);
      CandidatesForgetOrder(MandatoryKey, IsMandatory, Filter(IsSelected, a), Filter(IsSelected, b));
      CandidatesForgetOrder(ContextKey, IsOptional, Filter(IsSelected, a), Filter(IsSelected, b));
      AppendedInContext(a, x);
      AppendedInContext(b, x);
    }
  }

  lemma TailPermutes<T>(a: seq<T>, b: seq<T>, m: nat, n: nat)
    requires m <= |a| && n <= |b| && multiset(a[..m]) == multiset(b[..n]) && a[m..] == b[n..]
    ensures multiset(a) == multiset(b)
  {
    assert a == a[..m] + a[m..] && b == b[..n] + b[n..];
  }

  lemma AlikePermutes(a: State, b: State, tail: seq<ContextItem>)
    requires Alike(a, b, tail)
    ensures multiset(a.items) == multiset(b.items)
  {
    TailPermutes(a.items, b.items, |a.items| - |tail|, |b.items| - |tail|);
  }

  lemma DroppedForgetsOrder(preA: seq<ContextItem>, preB: seq<ContextItem>, a: State, b: State)
    requires multiset(preA) == multiset(preB) && multiset(a.items) == multiset(b.items) && a.outcome == b.outcome
    ensures multiset(Dropped(preA, a)) == multiset(Dropped(preB, b))
  {
    FilterPermutes(NotSelected, a.items, b.items);
    MapPermutes(Explain(a.outcome.summaries), Filter(NotSelected, a.items), Filter(NotSelected, b.items));
  }

  lemma DeliverForgetsOrder(request: PlanRequest, other: PlanRequest, profile: Profile, version: string, fallback: bool,
                            parts: seq<PartRecord>, ordered: seq<ContextItem>, a: seq<ContextItem>, b: seq<ContextItem>,
                            reserves: u32, outcome: Outcome)
    requires other == request.(inputs := other.inputs) && multiset(a) == multiset(b)
    ensures SamePlan(Deliver(request, profile, version, fallback, parts, ordered, a, reserves, outcome),
                     Deliver(other, profile, version, fallback, parts, ordered, b, reserves, outcome))
  {
    RecordsPermute(a, b);
    DigestForgetsOrder(DroppedRecords(a), DroppedRecords(b));
  }

  lemma ConcludeForgetsOrder(request: PlanRequest, other: PlanRequest, profile: Profile, version: string,
                             fallback: bool, parts: seq<PartRecord>, preA: seq<ContextItem>, preB: seq<ContextItem>,
                             a: State, b: State, tail: seq<ContextItem>)
    requires other == request.(inputs := other.inputs)
    requires multiset(preA) == multiset(preB) && Alike(a, b, tail)
    ensures SamePlan(Conclude(request, profile, version, fallback, parts, preA, a),
                     Conclude(other, profile, version, fallback, parts, preB, b))
  {
    var m, n := |a.items| - |tail|, |b.items| - |tail|;
    assert a.items == a.items[..m] + tail && b.items == b.items[..n] + tail;
    ContextAlike(a.items[..m], b.items[..n], tail);
    AlikePermutes(a, b, tail);
    DroppedForgetsOrder(preA, preB, a, b);
    DeliverForgetsOrder(request, other, profile, version, fallback, parts, InContextOrder(Filter(IsSelected, a.items)),
                        Dropped(preA, a), Dropped(preB, b), a.reserves, a.outcome);
  }

  lemma HoldBackKeepsSame(a: seq<ContextItem>, b: seq<ContextItem>)
    requires SameItems(a, b)
    ensures SameItems(Map(HoldBack, a), Map(HoldBack, b))
  {
    MapPermutes(HoldBack, a, b);
    MapDistinct(HoldBack, a);
    MapDistinct(HoldBack, b);
  }

  lemma ReadmitKeepsSame(a: seq<ContextItem>, b: seq<ContextItem>)
    requires SameItems(a, b)
    ensures SameItems(Map(Readmit, a), Map(Readmit, b))
  {
    MapPermutes(Readmit, a, b);
    MapDistinct(Readmit, a);
    MapDistinct(Readmit, b);
  }

  lemma PruneOptionalForgetsOrder(a: seq<ContextItem>, b: seq<ContextItem>, now: i64)
    requires SameItems(a, b)
    ensures SameItems(PruneOptional(a, now), PruneOptional(b, now))
  {
    HoldBackKeepsSame(a, b);
    PruneForgetsOrder(Map(HoldBack, a), Map(HoldBack, b), now);
    ReadmitKeepsSame(Prune(Map(HoldBack, a), now), Prune(Map(HoldBack, b), now));
  }

  lemma StartForgetsOrder(a: seq<ContextItem>, b: seq<ContextItem>)
    requires SameItems(a, b)
    ensures SameItems(Map(Select, Filter(IsSelected, a)), Map(Select, Filter(IsSelected, b)))
  {
    FilterKeepsSame(IsSelected, a, b);
    MapPermutes(Select, Filter(IsSelected, a), Filter(IsSelected, b));
    MapDistinct(Select, Filter(IsSelected, a));
    MapDistinct(Select, Filter(IsSelected, b));
  }

  lemma ReduceForgetsOrder(request: PlanRequest, other: PlanRequest, profile: Profile, m: u32, a: seq<ContextItem>,
                           b: seq<ContextItem>, sink: OffloadSink, summarizer: Summarizer)
    requires other == request.(inputs := other.inputs) && SameItems(a, b) && !summarizer.available
    ensures SameState(Reduce(request, profile, m, a, sink, summarizer), Reduce(other, profile, m, b, sink, summarizer))
  {
    TotalsForgetOrder(a, b, 0);
    ReduceCases(request, profile, m, a, sink, summarizer);
    ReduceCases(other, profile, m, b, sink, summarizer);
    LadderForgetsOrder(a, b, ReservesTotal(profile), LadderContext(request, profile, m), sink, summarizer);
  }

  lemma StartsForgetOrder(request: PlanRequest, other: PlanRequest, a: seq<ContextItem>, b: seq<ContextItem>)
    requires other == request.(inputs := other.inputs) && SameItems(a, b)
    ensures SameItems(Start(request, a), Start(other, b))
    ensures FoldParts(0, Parts(a, PARTS)) == FoldParts(0, Parts(b, PARTS))
    ensures multiset(Filter(NotSelected, PruneOptional(a, request.now)))
         == multiset(Filter(NotSelected, PruneOptional(b, other.now)))
  {
    PartsForgetOrder(a, b, PARTS);
    PruneOptionalForgetsOrder(a, b, request.now);
    var pa, pb := PruneOptional(a, request.now), PruneOptional(b, request.now);
    StartForgetsOrder(pa, pb);
    FilterPermutes(NotSelected, pa, pb);
  }

  lemma ReducedForgetsOrder(request: PlanRequest, other: PlanRequest, profile: Profile, a: seq<ContextItem>,
                            b: seq<ContextItem>, sink: OffloadSink, summarizer: Summarizer)
    requires other == request.(inputs := other.inputs) && SameItems(a, b) && !summarizer.available
    ensures Alike(Reduced(request, profile, a, sink, summarizer), Reduced(other, profile, b, sink, summarizer), [])
  {
    StartsForgetOrder(request, other, a, b);
    ReduceForgetsOrder(request, other, profile, FoldParts(0, Parts(a, PARTS)), Start(request, a), Start(other, b),
                       sink, summarizer);
    SameIsAlike(Reduced(request, profile, a, sink, summarizer), Reduced(other, profile, b, sink, summarizer));
  }

  lemma AssembleForgetsOrder(request: PlanRequest, other: PlanRequest, profile: Profile, version: string,
                             fallback: bool, a: seq<ContextItem>, b: seq<ContextItem>, sink: OffloadSink,
                             summarizer: Summarizer, tail: seq<ContextItem>)
    requires other == request.(inputs := other.inputs) && SameItems(a, b)
    requires EarlyRefusal(profile, Parts(a, PARTS)).None? ==>
      Alike(Reduced(request, profile, a, sink, summarizer), Reduced(other, profile, b, sink, summarizer), tail)
    ensures SamePlan(Assemble(request, profile, version, fallback, a, sink, summarizer),
                     Assemble(other, profile, version, fallback, b, sink, summarizer))
  {
    PartsForgetOrder(a, b, PARTS);
    var parts := Parts(a, PARTS);
    var early := EarlyRefusal(profile, parts);
    if early.Some? {
      RefusalsSame(request, other, profile, version, early.value, parts, fallback);
    } else {
      StartsForgetOrder(request, other, a, b);
      ConcludeForgetsOrder(request, other, profile, version, fallback, parts,
                           Filter(NotSelected, PruneOptional(a, request.now)), Filter(NotSelected,
                               PruneOptional(b, other.now)),
                           Reduced(request, profile, a, sink, summarizer),
                           Reduced(other, profile, b, sink, summarizer), tail);
    }
  }

  lemma EstimatesForgetOrder(hashing: Hashing, e: Estimator, request: PlanRequest, other: PlanRequest)
    requires multiset(request.inputs) == multiset(other.inputs) && WellPosed(request)
    ensures SameItems(EstimateAll(hashing, e, request.inputs), EstimateAll(hashing, e, other.inputs))
  {
    var f := (input: PlanInput) => Estimated(hashing, e, input);
    MapPermutes(f, request.inputs, other.inputs);
    EstimatesFresh(hashing, e, request);
    PermutedDistinct(EstimateAll(hashing, e, request.inputs), EstimateAll(hashing, e, other.inputs));
  }

  lemma RefusalsSame(request: PlanRequest, other: PlanRequest, profile: Profile, version: string, why: Unavailable,
                     parts: seq<PartRecord>, fallback: bool)
    requires other == request.(inputs := other.inputs)
    ensures SamePlan(Refuse(request, profile, version, why, parts, [], fallback, []),
                     Refuse(other, profile, version, why, parts, [], fallback, []))
  {
  }

  /** Permuting the inputs changes nothing but the order in which dropped items are listed: the selected sequence, the
      reserves, the levels, the refusal and the digest of the ledger are the same. It holds for every artifact store.
      */
  lemma PlanForgetsOrder(setup: Setup, request: PlanRequest, other: PlanRequest, sink: OffloadSink,
                         summarizer: Summarizer, override: Option<Profile>)
    requires WellPosed(request) && !summarizer.available
    requires other == request.(inputs := other.inputs) && multiset(request.inputs) == multiset(other.inputs)
    ensures SamePlan(PlanFor(setup, request, sink, summarizer, override),
                     PlanFor(setup, other, sink, summarizer, override))
  {
    var choice := Choose(setup);
    var base := BaseProfile(setup, request, override);
    if choice.Some? && IsValid(EffectiveProfile(base, choice.value.1)) {
      var (e, fallback) := choice.value;
      EstimatesForgetOrder(setup.hashing, e, request, other);
      var profile, a, b := EffectiveProfile(base, fallback), EstimateAll(setup.hashing, e, request.inputs),
                           EstimateAll(setup.hashing, e, other.inputs);
      ReducedForgetsOrder(request, other, profile, a, b, sink, summarizer);
      AssembleForgetsOrder(request, other, profile, e.version, fallback, a, b, sink, summarizer, []);
      PlanAssembles(setup, request, sink, summarizer, override);
      PlanAssembles(setup, other, sink, summarizer, override);
    } else {
      UnplannedSame(setup, request, other, sink, summarizer, override);
    }
  }

  lemma PlanAssembles(setup: Setup, request: PlanRequest, sink: OffloadSink, summarizer: Summarizer,
                      override: Option<Profile>)
    requires Choose(setup).Some?
    requires IsValid(EffectiveProfile(BaseProfile(setup, request, override), Choose(setup).value.1))
    ensures var (e, fallback) := Choose(setup).value;
      PlanFor(setup, request, sink, summarizer, override)
      == Assemble(request, EffectiveProfile(BaseProfile(setup, request, override), fallback), e.version, fallback,
                  EstimateAll(setup.hashing, e, request.inputs), sink, summarizer)
  {
  }

  /** Without an estimator or with an invalid profile the inputs are not even looked at. */
  lemma UnplannedSame(setup: Setup, request: PlanRequest, other: PlanRequest, sink: OffloadSink, summarizer: Summarizer,
                      override: Option<Profile>)
    requires other == request.(inputs := other.inputs)
    requires Choose(setup).None? ||
        !IsValid(EffectiveProfile(BaseProfile(setup, request, override), Choose(setup).value.1))
    ensures SamePlan(PlanFor(setup, request, sink, summarizer, override),
                     PlanFor(setup, other, sink, summarizer, override))
  {
    var base := BaseProfile(setup, request, override);
    if Choose(setup).None? {
      RefusalsSame(request, other, base, "unavailable", Unavailable(EstimatorUnavailable, 0, 0, None), [], false);
    } else {
      var (e, fallback) := Choose(setup).value;
      var profile := EffectiveProfile(base, fallback);
      RefusalsSame(request, other, profile, e.version,
                   Unavailable(MandatoryOverflow, ReservesTotal(profile), profile.hardLimitTokens, Some(SafetyPolicy)),
                   [], fallback);
    }
  }

  // ------------------------------------------------------------------- re-planning

  datatype ReplanStep = ReplanStep(request: PlanRequest, window: Option<u32>, sink: OffloadSink, summarizer: Summarizer)

  /** Plans each of which is the re-plan of its predecessor. */
  ghost predicate Chain(setup: Setup, plans: seq<Plan>, steps: seq<ReplanStep>) {
    |plans| == |steps| + 1 && forall k :: 0 <= k < |steps| ==> plans[k + 1] == TakeStep(setup, plans[k], steps[k])
  }

  function TakeStep(setup: Setup, previous: Plan, s: ReplanStep): Plan {
    ReplanFor(setup, s.request, previous, s.window, s.sink, s.summarizer)
  }

  /** Marked as a re-plan and either ready or refused as a failed one; `again` leaves only the refusal. */
  predicate Replanned(plan: Plan, again: bool) {
    plan.ledger.replanOf.Some? && (IsReplanRefusal(plan) || (IsReady(plan) && !again))
  }

  predicate IsReplanRefusal(plan: Plan) {
    plan.unavailable.Some? && plan.unavailable.value.stage == ProviderReplanFailed
    && plan.ledger.unavailable == plan.unavailable && !plan.ledger.sent
  }

  /** The ledger repeats the request and the refusal. */
  predicate Recorded(plan: Plan, replanOf: Option<string>) {
    && plan.ledger.replanOf == replanOf && plan.ledger.unavailable == plan.unavailable
    && (plan.ledger.sent <==> IsReady(plan))
  }

  lemma PlanRecordsReplan(setup: Setup, request: PlanRequest, sink: OffloadSink, summarizer: Summarizer,
                          override: Option<Profile>)
    ensures Recorded(PlanFor(setup, request, sink, summarizer, override), request.replanOf)
  {
    var choice := Choose(setup);
    if choice.Some? {
      var (e, fallback) := choice.value;
      var profile := EffectiveProfile(BaseProfile(setup, request, override), fallback);
      AssembleRecordsReplan(request, profile, e.version, fallback, EstimateAll(setup.hashing, e, request.inputs), sink,
                            summarizer);
    }
  }

  lemma AssembleRecordsReplan(request: PlanRequest, profile: Profile, version: string, fallback: bool,
                              items: seq<ContextItem>, sink: OffloadSink, summarizer: Summarizer)
    ensures Recorded(Assemble(request, profile, version, fallback, items, sink, summarizer), request.replanOf)
  {
    AssembleCases(request, profile, version, fallback, items, sink, summarizer);
    ConcludeRecordsReplan(request, profile, version, fallback, Parts(items, PARTS),
                          Filter(NotSelected, PruneOptional(items, request.now)),
                          Reduced(request, profile, items, sink, summarizer));
  }

  lemma ConcludeRecordsReplan(request: PlanRequest, profile: Profile, version: string, fallback: bool,
                              parts: seq<PartRecord>, pre: seq<ContextItem>, st: State)
    ensures Recorded(Conclude(request, profile, version, fallback, parts, pre, st), request.replanOf)
  {
  }

  /** A re-plan is marked as one and is either ready or refused as a failed re-plan. */
  lemma ReplanOutcome(setup: Setup, request: PlanRequest, previous: Plan, window: Option<u32>, sink: OffloadSink,
                      summarizer: Summarizer)
    ensures var plan := ReplanFor(setup, request, previous, window, sink, summarizer);
      && plan.ledger.replanOf == Some(previous.ledger.id)
      && (IsReady(plan) || IsReplanRefusal(plan))
      && (previous.ledger.replanOf.Some? ==> IsReplanRefusal(plan))
  {
    PlanRecordsReplan(setup, request.(replanOf := Some(previous.ledger.id)), sink, summarizer,
                      Some(Replan(previous.profile, window)));
  }

  /** However long a chain of re-plans is, only the first can produce a context; every later one is a refusal. */
  lemma NoCascade(setup: Setup, plans: seq<Plan>, steps: seq<ReplanStep>, k: nat)
    requires Chain(setup, plans, steps) && 1 <= k <= |steps|
    ensures Replanned(plans[k], k >= 2 || plans[0].ledger.replanOf.Some?)
  {
    if k > 1 { ChainLink(setup, plans, steps, k - 2); }
    ChainLink(setup, plans, steps, k - 1);
  }

  lemma ChainLink(setup: Setup, plans: seq<Plan>, steps: seq<ReplanStep>, k: nat)
    requires Chain(setup, plans, steps) && k < |steps|
    ensures Replanned(plans[k + 1], plans[k].ledger.replanOf.Some?)
  {
    StepOutcome(setup, plans[k], steps[k]);
  }

  lemma StepOutcome(setup: Setup, previous: Plan, s: ReplanStep)
    ensures Replanned(TakeStep(setup, previous, s), previous.ledger.replanOf.Some?)
  {
    ReplanOutcome(setup, s.request, previous, s.window, s.sink, s.summarizer);
  }
}
