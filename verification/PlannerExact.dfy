/**
 What the planner does with a request, in exact sums and in the fields of items and profiles: what it estimates, what
 pruning leaves, when and how far the ladder reduces, and what a re-plan fits into.
 */
module PlannerExact {
  import opened Machine
  import opened Order
  import opened Items
  import opened Profiles
  import opened Pruning
  import opened Budgeting
  import opened Ladder
  import opened LadderFacts
  import opened LadderRuns
  import opened LadderExact
  import opened Planner
  import opened PlannerFacts

  // ------------------------------------------------------------------------- estimates

  /** The profile a request asks for. */
  function AskedProfile(setup: Setup, request: PlanRequest, override: Option<Profile>): Profile {
    match override
    case Some(p) => p
    case None => setup.resolve(request.provider, request.model, request.providerWindow)
  }

  /** The item as the planner sees it: hashed, measured and selected, with the given size. */
  predicate IsMeasured(x: ContextItem, input: PlanInput, hashing: Hashing, version: string, size: nat) {
    && x.contentHash == hashing.contentHash(input.item.kind, input.content)
    && x.bytes == hashing.normalizedSize(input.content) && x.tokenizerVersion == version
    && x.estimatedTokens == (if size <= U32_MAX then size else U32_MAX) && x.selected && x.dropReason.None?
    && input.item == x.(contentHash := input.item.contentHash, bytes := input.item.bytes,
                        tokenizerVersion := input.item.tokenizerVersion,
                        estimatedTokens := input.item.estimatedTokens, selected := input.item.selected,
                        dropReason := input.item.dropReason)
  }

  lemma PrimaryMeasures(hashing: Hashing, e: Estimator, input: PlanInput)
    ensures IsMeasured(Estimated(hashing, e, input), input, hashing, e.version,
                       e.estimate(input.content) + e.messageOverhead)
  {
  }

  /** Half the size, rounded up, and 24 tokens for the message. */
  function FallbackSize(bytes: nat): nat {
    bytes / 2 + bytes % 2 + 24
  }

  lemma FallbackMeasures(hashing: Hashing, input: PlanInput)
    ensures IsMeasured(Estimated(hashing, FallbackEstimator(hashing), input), input, hashing, "fallback-1",
                       FallbackSize(hashing.normalizedSize(input.content)))
  {
  }

  /** What every input became: with a primary estimator its estimate, under the profile that was asked for; without one
      the fallback estimate, under that profile scaled down. */
  ghost predicate Measured(setup: Setup, request: PlanRequest, override: Option<Profile>, items: seq<ContextItem>,
                           profile: Profile) {
    && |items| == |request.inputs|
    && match setup.primary
       case Some(e) =>
         && profile == AskedProfile(setup, request, override)
         && (forall i :: 0 <= i < |items| ==>
               IsMeasured(items[i], request.inputs[i], setup.hashing, e.version,
                          e.estimate(request.inputs[i].content) + e.messageOverhead))
       case None =>
         && setup.fallbackAvailable && profile == ScaledForFallback(AskedProfile(setup, request, override))
         && (forall i :: 0 <= i < |items| ==>
               IsMeasured(items[i], request.inputs[i], setup.hashing, "fallback-1",
                          FallbackSize(setup.hashing.normalizedSize(request.inputs[i].content))))
  }

  lemma PrimaryMeasured(hashing: Hashing, e: Estimator, inputs: seq<PlanInput>)
    ensures forall i :: 0 <= i < |inputs| ==>
              IsMeasured(EstimateAll(hashing, e, inputs)[i], inputs[i], hashing, e.version,
                         e.estimate(inputs[i].content) + e.messageOverhead)
  {
    forall i | 0 <= i < |inputs|
      ensures IsMeasured(EstimateAll(hashing, e, inputs)[i], inputs[i], hashing, e.version,
                         e.estimate(inputs[i].content) + e.messageOverhead)
    {
      PrimaryMeasures(hashing, e, inputs[i]);
    }
  }

  lemma FallbackMeasured(hashing: Hashing, inputs: seq<PlanInput>)
    ensures forall i :: 0 <= i < |inputs| ==>
              IsMeasured(EstimateAll(hashing, FallbackEstimator(hashing), inputs)[i], inputs[i], hashing, "fallback-1",
                         FallbackSize(hashing.normalizedSize(inputs[i].content)))
  {
    forall i | 0 <= i < |inputs|
      ensures IsMeasured(EstimateAll(hashing, FallbackEstimator(hashing), inputs)[i], inputs[i], hashing, "fallback-1",
                         FallbackSize(hashing.normalizedSize(inputs[i].content)))
    {
      FallbackMeasures(hashing, inputs[i]);
    }
  }

  lemma EstimatesMeasure(setup: Setup, request: PlanRequest, override: Option<Profile>)
    requires Choose(setup).Some?
    ensures var (e, fallback) := Choose(setup).value;
      Measured(setup, request, override, EstimateAll(setup.hashing, e, request.inputs),
               EffectiveProfile(BaseProfile(setup, request, override), fallback))
  {
    if setup.primary.Some? {
      PrimaryMeasured(setup.hashing, setup.primary.value, request.inputs);
    } else {
      FallbackMeasured(setup.hashing, request.inputs);
    }
  }

  /** A plan is refused for want of an estimator exactly if there is neither a primary nor a fallback one. */
  lemma EstimatorRefusedExactly(setup: Setup, request: PlanRequest, sink: OffloadSink, summarizer: Summarizer,
                                override: Option<Profile>)
    ensures var plan := PlanFor(setup, request, sink, summarizer, override);
      plan.unavailable.Some? && plan.unavailable.value.stage == EstimatorUnavailable <==>
      setup.primary.None? && !setup.fallbackAvailable
  {
    if Choose(setup).Some? {
      var (e, fallback) := Choose(setup).value;
      AssembledNotUnestimated(request, EffectiveProfile(BaseProfile(setup, request, override), fallback), e.version,
                              fallback, EstimateAll(setup.hashing, e, request.inputs), sink, summarizer);
    }
  }

  lemma AssembledNotUnestimated(request: PlanRequest, profile: Profile, version: string, fallback: bool,
                                items: seq<ContextItem>, sink: OffloadSink, summarizer: Summarizer)
    ensures var plan := Assemble(request, profile, version, fallback, items, sink, summarizer);
      plan.unavailable.Some? ==> plan.unavailable.value.stage != EstimatorUnavailable
  {
    AssembleCases(request, profile, version, fallback, items, sink, summarizer);
    EarlyStage(profile, Parts(items, PARTS));
    ConcludedStage(request, profile, version, fallback, Parts(items, PARTS),
                   Filter(NotSelected, PruneOptional(items, request.now)),
                   Reduced(request, profile, items, sink, summarizer));
  }

  // ------------------------------------------------------------------- what pruning leaves

  predicate IsLive(x: ContextItem, now: i64) {
    !IsMandatory(x) && !HasEnded(x.createdAt, x.ttlMs, now) && !HasEnded(x.createdAt, x.retentionMs, now)
  }

  /** The best of its content among the live optional items. */
  ghost predicate IsBest(items: seq<ContextItem>, now: i64, x: ContextItem) {
    IsLive(x, now) &&
    forall y :: y in items && IsLive(y, now) && y.contentHash == x.contentHash ==> RanksNoLater(x, y)
  }

  /** An optional item survives pruning if it is live, the best of its content and the newest best revision. */
  ghost predicate Survives(items: seq<ContextItem>, now: i64, x: ContextItem) {
    && IsBest(items, now, x)
    && (x.parentId.Some? ==>
          forall y :: y in items && IsBest(items, now, y) && y.parentId == x.parentId ==> RevisedNoLater(y, x))
  }

  lemma HeldContender(items: seq<ContextItem>, now: i64, x: ContextItem)
    requires Fresh(items) && x in items
    ensures Contender(HoldBack(x), now) <==> IsLive(x, now)
    ensures IsLive(x, now) ==> HoldBack(x) == x
  {
    ExpiredMeans(HoldBack(x), now);
  }

  lemma HeldMembers(items: seq<ContextItem>, now: i64, y: ContextItem)
    requires Fresh(items)
    ensures y in Map(HoldBack, items) && Contender(y, now) <==> y in items && IsLive(y, now)
  {
    var held := Map(HoldBack, items);
    if y in held && Contender(y, now) {
      var i :| 0 <= i < |held| && held[i] == y;
      assert items[i] in items;
      HeldContender(items, now, items[i]);
    }
    if y in items && IsLive(y, now) {
      var i :| 0 <= i < |items| && items[i] == y;
      HeldContender(items, now, y);
      assert held[i] == y;
    }
  }

  lemma HeldBest(items: seq<ContextItem>, now: i64, x: ContextItem)
    requires Fresh(items) && x in items && IsLive(x, now)
    ensures Original(Map(HoldBack, items), now, x) <==> IsBest(items, now, x)
  {
    HeldMembers(items, now, x);
    forall y ensures y in Map(HoldBack, items) && Contender(y, now) <==> y in items && IsLive(y, now) {
      HeldMembers(items, now, y);
    }
    forall y ensures Leq(RankKey(x), RankKey(y)) <==> RanksNoLater(x, y) { RankKeyMeans(x, y); }
  }

  lemma HeldSurvives(items: seq<ContextItem>, now: i64, x: ContextItem)
    requires Fresh(items) && x in items && IsLive(x, now)
    ensures Original(Map(HoldBack, items), now, x) && NewestOriginal(Map(HoldBack, items), now, x) <==>
              Survives(items, now, x)
  {
    var held := Map(HoldBack, items);
    HeldBest(items, now, x);
    forall y ensures y in held && Original(held, now, y) <==> y in items && IsBest(items, now, y) {
      HeldMembers(items, now, y);
      if y in items && IsLive(y, now) { HeldBest(items, now, y); }
    }
    forall y ensures Leq(RevisionKey(y), RevisionKey(x)) <==> RevisedNoLater(y, x) { RevisionKeyMeans(y, x); }
  }

  lemma HeldPruned(items: seq<ContextItem>, now: i64, i: nat)
    requires Fresh(items) && i < |items|
    ensures |Prune(Map(HoldBack, items), now)| == |items|
    ensures Prune(Map(HoldBack, items), now)[i].selected <==> Survives(items, now, items[i])
  {
    var held, x := Map(HoldBack, items), items[i];
    assert x in items;
    MapDistinct(HoldBack, items);
    PruneSurvivors(held, now, i);
    HeldContender(items, now, x);
    if IsLive(x, now) { HeldSurvives(items, now, x); }
  }

  lemma Readmitted(items: seq<ContextItem>, now: i64, i: nat)
    requires Fresh(items) && i < |items| && |Prune(Map(HoldBack, items), now)| == |items|
    ensures |PruneOptional(items, now)| == |items|
    ensures PruneOptional(items, now)[i].selected <==>
              IsMandatory(items[i]) || Prune(Map(HoldBack, items), now)[i].selected
    ensures Select(PruneOptional(items, now)[i]) == items[i]
  {
    PruneOptionalAt(items, now, i);
  }

  lemma PrunedAt(items: seq<ContextItem>, now: i64, i: nat)
    requires Fresh(items) && i < |items|
    ensures |PruneOptional(items, now)| == |items|
    ensures PruneOptional(items, now)[i].selected <==> IsMandatory(items[i]) || Survives(items, now, items[i])
    ensures Select(PruneOptional(items, now)[i]) == items[i]
  {
    HeldPruned(items, now, i);
    Readmitted(items, now, i);
  }

  lemma Starts(request: PlanRequest, items: seq<ContextItem>, i: nat)
    requires Fresh(items) && i < |items| && (IsMandatory(items[i]) || Survives(items, request.now, items[i]))
    ensures items[i] in Start(request, items)
  {
    var pruned := PruneOptional(items, request.now);
    PrunedAt(items, request.now, i);
    StartsSelected(pruned, i);
  }

  lemma StartsSelected(pruned: seq<ContextItem>, i: nat)
    requires i < |pruned| && pruned[i].selected
    ensures Select(pruned[i]) in Map(Select, Filter(IsSelected, pruned))
  {
    var kept := Filter(IsSelected, pruned);
    FilterMembers(IsSelected, pruned);
    assert pruned[i] in kept;
    var k :| 0 <= k < |kept| && kept[k] == pruned[i];
    assert Map(Select, kept)[k] == Select(pruned[i]);
  }

  /** The ladder starts from exactly the mandatory inputs and the optional ones that survive pruning, each as it was
      estimated. */
  lemma StartExactly(request: PlanRequest, items: seq<ContextItem>)
    requires Fresh(items)
    ensures DistinctIds(Start(request, items))
    ensures forall x :: x in Start(request, items) <==>
              x in items && (IsMandatory(x) || Survives(items, request.now, x))
  {
    StartFacts(items, request.now);
    forall x ensures x in Start(request, items) <==>
                       x in items && (IsMandatory(x) || Survives(items, request.now, x))
    {
      if x in items && (IsMandatory(x) || Survives(items, request.now, x)) {
        var i :| 0 <= i < |items| && items[i] == x;
        Starts(request, items, i);
      }
      if x in Start(request, items) { StartedFrom(request, items, x); }
    }
  }

  lemma StartedFrom(request: PlanRequest, items: seq<ContextItem>, x: ContextItem)
    requires Fresh(items) && x in Start(request, items)
    ensures x in items && (IsMandatory(x) || Survives(items, request.now, x))
  {
    var pruned := PruneOptional(items, request.now);
    var kept := Filter(IsSelected, pruned);
    var k :| 0 <= k < |kept| && Start(request, items)[k] == x;
    FilterMembers(IsSelected, pruned);
    assert kept[k] in kept;
    var i :| 0 <= i < |pruned| && pruned[i] == kept[k];
    if items == [] { PruneOptionalEmpty(request.now); }
    AllItemsPruned(items, request.now);
    PrunedAt(items, request.now, i);
  }

  // ------------------------------------------------------------------ how far a plan is reduced

  /** Nothing was reduced: the survivors are the context, and no level, summary or release is recorded. */
  ghost predicate LeftAlone(plan: Plan, start: seq<ContextItem>) {
    && multiset(plan.selected) == multiset(start) && plan.ledger.levelsApplied == [] && plan.diagnostics == []
    && (IsReady(plan) ==> plan.ledger.compression == [] && plan.reserves == ExactReserves(plan.profile))
  }

  /** The state the ladder has reached after `n` levels on its way to a goal. */
  ghost function Reached(n: nat, plan: Plan, request: PlanRequest, start: seq<ContextItem>, goal: u32, release: bool,
                         sink: OffloadSink, summarizer: Summarizer): State
    requires n <= 6
  {
    LadderRuns.Stage(n, State(start, ReservesTotal(plan.profile), NOTHING_DONE),
                     Context(request.now, plan.profile, goal, release), sink, summarizer)
  }

  /** The ladder went for the goal: what it reached is the plan, and the plan is within the goal, or every level was
      tried above it and nothing droppable is left. */
  ghost predicate ReducedTo(plan: Plan, request: PlanRequest, start: seq<ContextItem>, goal: u32, release: bool,
                            sink: OffloadSink, summarizer: Summarizer) {
    && MadeOf(plan, Reached(6, plan, request, start, goal, release, sink, summarizer))
    && (Tokens(Every, plan.selected) <= goal ||
        ((forall n :: 0 <= n <= 6 ==>
            Tokens(IsSelected, Reached(n, plan, request, start, goal, release, sink, summarizer).items) > goal)
         && RanDry(plan, request, start, Reached(6, plan, request, start, goal, release, sink, summarizer))))
  }

  lemma UnreducedAlone(request: PlanRequest, profile: Profile, items: seq<ContextItem>, plan: Plan, version: string,
                       fallback: bool, sink: OffloadSink, summarizer: Summarizer)
    requires IsValid(profile) && Fresh(items) && plan.profile == profile && ReachedCheck(plan)
    requires plan == Assemble(request, profile, version, fallback, items, sink, summarizer)
    requires Reduced(request, profile, items, sink, summarizer)
          == State(Start(request, items), ReservesTotal(profile), NOTHING_DONE)
    ensures LeftAlone(plan, Start(request, items))
  {
    var start := Start(request, items);
    AssembledPlan(request, profile, version, fallback, items, sink, summarizer);
    AssembledDiagnostics(request, profile, version, fallback, items, sink, summarizer);
    StartFacts(items, request.now);
    AllSelected(start);
    ContextOrderPermutes(start);
    ValidMeans(profile);
  }

  lemma AssembledDiagnostics(request: PlanRequest, profile: Profile, version: string, fallback: bool,
                             items: seq<ContextItem>, sink: OffloadSink, summarizer: Summarizer)
    requires ReachedCheck(Assemble(request, profile, version, fallback, items, sink, summarizer))
    ensures Assemble(request, profile, version, fallback, items, sink, summarizer).diagnostics
         == Reduced(request, profile, items, sink, summarizer).outcome.diagnostics
  {
    AssembleReached(request, profile, version, fallback, items, sink, summarizer);
    ConcludeDelivers(request, profile, version, fallback, Parts(items, PARTS),
                     Filter(NotSelected, PruneOptional(items, request.now)),
                     Reduced(request, profile, items, sink, summarizer));
  }

  lemma {:induction false} AllSelected(s: seq<ContextItem>)
    requires forall x :: x in s ==> x.selected
    ensures Filter(IsSelected, s) == s
  {
    if s != [] {
      HeadTail(s);
      AllSelected(s[1..]);
    }
  }

  lemma ClimbedReduces(request: PlanRequest, plan: Plan, start: seq<ContextItem>, goal: u32, release: bool,
                       sink: OffloadSink, summarizer: Summarizer)
    requires Fresh(start) && goal < U32_MAX
    requires MadeOf(plan, RunLadder(start, ReservesTotal(plan.profile),
                                    Context(request.now, plan.profile, goal, release), sink, summarizer))
    ensures ReducedTo(plan, request, start, goal, release, sink, summarizer)
  {
    var ctx := Context(request.now, plan.profile, goal, release);
    var reserves := ReservesTotal(plan.profile);
    var st := RunLadder(start, reserves, ctx, sink, summarizer);
    RunIsLastStage(start, reserves, ctx, sink, summarizer);
    GoalExact(st.items, goal);
    OrderedTokens(st.items);
    LadderKeeps(start, reserves, ctx, sink, summarizer);
    if !GoalMet(st.items, goal) {
      ReducedDry(request, start, sink, summarizer, ctx, plan, st);
      forall n | 0 <= n <= 6
        ensures Tokens(IsSelected, Reached(n, plan, request, start, goal, release, sink, summarizer).items) > goal
      {
        GoalExact(Reached(n, plan, request, start, goal, release, sink, summarizer).items, goal);
      }
    }
  }

  /** How far a plan is reduced, by what was asked for and what pruning left. */
  ghost predicate ReducedAsAsked(plan: Plan, request: PlanRequest, items: seq<ContextItem>, sink: OffloadSink,
                                 summarizer: Summarizer) {
    var start, p, mandatory := Start(request, items), plan.profile, Tokens(IsMandatory, items);
    if request.forceReduction then
      if mandatory >= U32_MAX then LeftAlone(plan, start)
      else
        && ReducedTo(plan, request, start, mandatory, false, sink, summarizer)
        && (IsReady(plan) ==> plan.reserves == ExactReserves(p))
    else if Tokens(IsSelected, start) + ExactReserves(p) <= p.softLimitTokens then LeftAlone(plan, start)
    else ReducedTo(plan, request, start, p.targetTokens, true, sink, summarizer)
  }

  /** When the ladder starts: on demand, or when the survivors and the reserves are above the soft limit. */
  lemma StartsLadder(request: PlanRequest, p: Profile, start: seq<ContextItem>)
    requires IsValid(p)
    ensures ClimbsLadder(request, p, start) <==>
              request.forceReduction || Tokens(IsSelected, start) + ExactReserves(p) > p.softLimitTokens
  {
    ContextExact(start);
    ValidMeans(p);
  }

  lemma MetAtOnce(request: PlanRequest, p: Profile, m: u32, start: seq<ContextItem>, sink: OffloadSink,
                  summarizer: Summarizer)
    requires request.forceReduction && m == U32_MAX
    ensures Reduce(request, p, m, start, sink, summarizer) == State(start, ReservesTotal(p), NOTHING_DONE)
  {
    ReduceCases(request, p, m, start, sink, summarizer);
    GoalExact(start, m);
    StopsAtGoal(LEVELS, State(start, ReservesTotal(p), NOTHING_DONE), LadderContext(request, p, m), sink, summarizer);
  }

  /** A forced reduction gives up no reserves. */
  lemma ForcedKeepsReserves(start: seq<ContextItem>, reserves: u32, ctx: Context, sink: OffloadSink,
                            summarizer: Summarizer)
    requires Fresh(start) && !ctx.allowReserveRelease
    ensures RunLadder(start, reserves, ctx, sink, summarizer).reserves == reserves
  {
    var st := State(start, reserves, NOTHING_DONE);
    RunIsLastStage(start, reserves, ctx, sink, summarizer);
    StageKeeps(5, start, reserves, ctx, sink, summarizer);
    NothingReleased(LadderRuns.Stage(5, st, ctx, sink, summarizer), ctx, sink, summarizer);
  }

  lemma NothingReleased(st: State, ctx: Context, sink: OffloadSink, summarizer: Summarizer)
    requires !ctx.allowReserveRelease
    ensures Next(LEVELS[5], st, ctx, sink, summarizer).reserves == st.reserves
  {
    assert LEVELS[5] == ReleaseOptionalReserves;
  }

  lemma AssembledAsAsked(request: PlanRequest, profile: Profile, version: string, fallback: bool,
                         items: seq<ContextItem>, sink: OffloadSink, summarizer: Summarizer, plan: Plan)
    requires IsValid(profile) && Fresh(items) && plan.profile == profile && ReachedCheck(plan)
    requires plan == Assemble(request, profile, version, fallback, items, sink, summarizer)
    ensures ReducedAsAsked(plan, request, items, sink, summarizer)
  {
    var start, m := Start(request, items), FoldParts(0, Parts(items, PARTS));
    StartFacts(items, request.now);
    MinimumExact(items);
    ReduceCases(request, profile, m, start, sink, summarizer);
    StartsLadder(request, profile, start);
    if request.forceReduction && m == U32_MAX {
      MetAtOnce(request, profile, m, start, sink, summarizer);
      UnreducedAlone(request, profile, items, plan, version, fallback, sink, summarizer);
    } else if !ClimbsLadder(request, profile, start) {
      UnreducedAlone(request, profile, items, plan, version, fallback, sink, summarizer);
    } else {
      AssembledPlan(request, profile, version, fallback, items, sink, summarizer);
      ClimbedAsAsked(request, profile, start, m, sink, summarizer, plan);
    }
  }

  lemma ClimbedAsAsked(request: PlanRequest, profile: Profile, start: seq<ContextItem>, m: u32, sink: OffloadSink,
                       summarizer: Summarizer, plan: Plan)
    requires IsValid(profile) && Fresh(start) && plan.profile == profile && (request.forceReduction ==> m < U32_MAX)
    requires MadeOf(plan, RunLadder(start, ReservesTotal(profile), LadderContext(request, profile, m), sink,
                                    summarizer))
    ensures request.forceReduction ==> ReducedTo(plan, request, start, m, false, sink, summarizer)
    ensures request.forceReduction && IsReady(plan) ==> plan.reserves == ExactReserves(profile)
    ensures !request.forceReduction ==> ReducedTo(plan, request, start, profile.targetTokens, true, sink, summarizer)
  {
    ValidMeans(profile);
    ContextSpelled(request, profile, m);
    if request.forceReduction {
      ClimbedReduces(request, plan, start, m, false, sink, summarizer);
      ForcedKeepsReserves(start, ReservesTotal(profile), LadderContext(request, profile, m), sink, summarizer);
    } else {
      ClimbedReduces(request, plan, start, profile.targetTokens, true, sink, summarizer);
    }
  }

  lemma ContextSpelled(request: PlanRequest, profile: Profile, m: u32)
    ensures LadderContext(request, profile, m)
         == if request.forceReduction then Context(request.now, profile, m, false)
            else Context(request.now, profile, profile.targetTokens, true)
  {
  }

  /** Every plan that gets as far as the final check is reduced as asked. Without a forced reduction: survivors that fit
      the soft limit with the reserves are the context; otherwise the context is within the target, or every level was
      tried above it and nothing droppable is left. With one: the same for the mandatory total, and no reserve is given
      up. */
  lemma ReducedExactly(setup: Setup, request: PlanRequest, sink: OffloadSink, summarizer: Summarizer,
                       override: Option<Profile>, plan: Plan)
    returns (items: seq<ContextItem>)
    requires plan == PlanFor(setup, request, sink, summarizer, override) && ReachedCheck(plan) && WellPosed(request)
    ensures Measured(setup, request, override, items, plan.profile)
    ensures ReducedAsAsked(plan, request, items, sink, summarizer)
  {
    var e, fallback;
    e, fallback, items := PlanReached(setup, request, sink, summarizer, override, plan);
    PlanProfile(setup, request, sink, summarizer, override);
    EstimatesMeasure(setup, request, override);
    AssembledAsAsked(request, plan.profile, e.version, fallback, items, sink, summarizer, plan);
  }

  lemma PlanProfile(setup: Setup, request: PlanRequest, sink: OffloadSink, summarizer: Summarizer,
                    override: Option<Profile>)
    requires ReachedCheck(PlanFor(setup, request, sink, summarizer, override))
    ensures Choose(setup).Some?
    ensures PlanFor(setup, request, sink, summarizer, override).profile
         == EffectiveProfile(BaseProfile(setup, request, override), Choose(setup).value.1)
  {
    PlanIsAssembly(setup, request, sink, summarizer, override);
    var (e, fallback) := Choose(setup).value;
    AssembleProfile(request, EffectiveProfile(BaseProfile(setup, request, override), fallback), e.version, fallback,
                    EstimateAll(setup.hashing, e, request.inputs), sink, summarizer);
  }

  // ------------------------------------------------------------------------- refusals

  /** A refusal of the mandatory part says how much it needs and how much there is. */
  lemma MandatoryRefusalSays(setup: Setup, request: PlanRequest, sink: OffloadSink, summarizer: Summarizer,
                             override: Option<Profile>, e: Estimator, fallback: bool)
    requires Choose(setup) == Some((e, fallback))
    requires IsValid(EffectiveProfile(BaseProfile(setup, request, override), fallback))
    ensures var plan := PlanFor(setup, request, sink, summarizer, override);
      var items := EstimateAll(setup.hashing, e, request.inputs);
      plan.unavailable.Some? && plan.unavailable.value.stage == MandatoryOverflow ==>
        && plan.unavailable.value.requiredTokens == Saturate(Tokens(IsMandatory, items))
        && plan.unavailable.value.availableTokens == plan.profile.absoluteMvcMaxLimit
        && plan.unavailable.value.missingPart == MissingFrom(0, Parts(items, PARTS), plan.profile.absoluteMvcMaxLimit)
        && plan.selected == [] && plan.ledger.selectedItems == []
  {
    var profile := EffectiveProfile(BaseProfile(setup, request, override), fallback);
    var items := EstimateAll(setup.hashing, e, request.inputs);
    AssembledMandatoryRefusal(request, profile, e.version, fallback, items, sink, summarizer);
  }

  lemma AssembledMandatoryRefusal(request: PlanRequest, profile: Profile, version: string, fallback: bool,
                                  items: seq<ContextItem>, sink: OffloadSink, summarizer: Summarizer)
    requires IsValid(profile)
    ensures var plan := Assemble(request, profile, version, fallback, items, sink, summarizer);
      plan.unavailable.Some? && plan.unavailable.value.stage == MandatoryOverflow ==>
        && plan.unavailable.value.requiredTokens == Saturate(Tokens(IsMandatory, items))
        && plan.unavailable.value.availableTokens == plan.profile.absoluteMvcMaxLimit
        && plan.unavailable.value.missingPart == MissingFrom(0, Parts(items, PARTS), plan.profile.absoluteMvcMaxLimit)
        && plan.selected == [] && plan.ledger.selectedItems == []
  {
    MinimumExact(items);
    AssembleCases(request, profile, version, fallback, items, sink, summarizer);
    AssembledStage(request, profile, version, fallback, items, sink, summarizer);
    EarlyIsOverMandatory(profile, Parts(items, PARTS));
  }

  lemma EarlyIsOverMandatory(profile: Profile, parts: seq<PartRecord>)
    requires IsValid(profile)
    ensures EarlyRefusal(profile, parts).Some? ==>
              EarlyRefusal(profile, parts).value
              == Unavailable(MandatoryOverflow, FoldParts(0, parts), profile.absoluteMvcMaxLimit,
                             MissingFrom(0, parts, profile.absoluteMvcMaxLimit))
  {
  }

  /** An exhausted refusal says how much is left and how much there is room for. */
  lemma ExhaustedRefusalSays(request: PlanRequest, profile: Profile, version: string, fallback: bool,
                             parts: seq<PartRecord>, pre: seq<ContextItem>, st: State)
    ensures var plan := Conclude(request, profile, version, fallback, parts, pre, st);
      plan.unavailable.Some? ==>
        && plan.unavailable.value.requiredTokens == Saturate(Tokens(IsSelected, st.items) + st.reserves)
        && plan.unavailable.value.availableTokens == profile.hardLimitTokens
        && plan.unavailable.value.missingPart == MissingFrom(0, parts, profile.hardLimitTokens)
  {
    var ordered := InContextOrder(Filter(IsSelected, st.items));
    OrderedTokens(st.items);
    ConcludeDelivers(request, profile, version, fallback, parts, pre, st);
    OrderedExact(ordered);
    SaturateAdds(Tokens(Every, ordered), st.reserves);
  }

  // ------------------------------------------------------------------------- the ledger

  /** What every ledger repeats from the request and the plan. */
  predicate IsLedgerOf(plan: Plan, request: PlanRequest) {
    var l := plan.ledger;
    && l.id == "ledger-" + request.modelCallId && l.profileVersion == plan.profile.profileVersion
    && l.fallbackEstimator == plan.fallbackEstimator && l.loadout == request.loadout && l.replanOf == request.replanOf
    && l.sent == IsReady(plan) && l.unavailable == plan.unavailable
  }

  /** A record for each dropped item that has a reason, with that reason. */
  ghost predicate RecordsDrops(records: seq<DroppedRecord>, dropped: seq<ContextItem>) {
    forall r :: r in records <==> exists x :: x in dropped && x.id == r.id && x.dropReason == Some(r.reason)
  }

  /** What the ledger of a ready plan adds up. */
  ghost predicate SumsUp(plan: Plan) {
    var l := plan.ledger;
    && l.mandatoryTokens == Saturate(Tokens(IsMandatory, plan.selected))
    && l.selectedOptionalTokens == Saturate(Tokens(IsOptional, plan.selected))
    && l.estimatedPromptTokens == Saturate(Tokens(Every, plan.selected)) && l.reservesTokens == plan.reserves
    && |l.selectedItems| == |plan.selected|
    && (forall i :: 0 <= i < |plan.selected| ==>
          l.selectedItems[i] == SelectedRecord(plan.selected[i].id, plan.selected[i].estimatedTokens))
    && RecordsDrops(l.droppedItems, plan.dropped)
  }

  /** What the ledger of a refusal adds up. */
  predicate RefusalSumsUp(plan: Plan) {
    var l := plan.ledger;
    && l.mandatoryTokens == FoldParts(0, l.mandatoryParts) && l.selectedOptionalTokens == 0
    && l.reservesTokens == ReservesTotal(plan.profile) && l.droppedItems == [] && l.compression == []
    && plan.unavailable.Some? && l.estimatedPromptTokens == plan.unavailable.value.requiredTokens
  }

  lemma DropsRecorded(dropped: seq<ContextItem>)
    ensures RecordsDrops(DroppedRecords(dropped), dropped)
  {
    var kept := Filter(HasReason, dropped);
    var records := DroppedRecords(dropped);
    FilterMembers(HasReason, dropped);
    forall r ensures r in records <==> exists x :: x in dropped && x.id == r.id && x.dropReason == Some(r.reason) {
      if r in records {
        var i :| 0 <= i < |records| && records[i] == r;
        assert kept[i] in kept;
      }
      if x :| x in dropped && x.id == r.id && x.dropReason == Some(r.reason) {
        assert x in kept;
        var i :| 0 <= i < |kept| && kept[i] == x;
        assert records[i] == r;
      }
    }
  }

  /** The plan repeats the context, the drops and their saturating sums. */
  predicate IsDelivered(plan: Plan, ordered: seq<ContextItem>, dropped: seq<ContextItem>, reserves: u32) {
    var l := plan.ledger;
    && plan.selected == ordered && plan.dropped == dropped && plan.reserves == l.reservesTokens == reserves
    && l.mandatoryTokens == FoldTokens(0, IsMandatory, ordered)
    && l.selectedOptionalTokens == FoldTokens(0, IsOptional, ordered)
    && l.estimatedPromptTokens == SatAdd(l.mandatoryTokens, l.selectedOptionalTokens)
    && l.selectedItems == SelectedRecords(ordered) && l.droppedItems == DroppedRecords(dropped)
  }

  lemma DeliverShape(request: PlanRequest, profile: Profile, version: string, fallback: bool, parts: seq<PartRecord>,
                     ordered: seq<ContextItem>, dropped: seq<ContextItem>, reserves: u32, outcome: Outcome)
    ensures var plan := Deliver(request, profile, version, fallback, parts, ordered, dropped, reserves, outcome);
      IsLedgerOf(plan, request) && if IsReady(plan) then IsDelivered(plan, ordered, dropped, reserves)
                                   else RefusalSumsUp(plan)
  {
  }

  lemma DeliveredSumsUp(plan: Plan, ordered: seq<ContextItem>, dropped: seq<ContextItem>, reserves: u32)
    requires IsDelivered(plan, ordered, dropped, reserves)
    ensures SumsUp(plan)
  {
    FoldExact(IsMandatory, ordered);
    FoldExact(IsOptional, ordered);
    OrderedExact(ordered);
    DropsRecorded(dropped);
  }

  lemma DeliverSumsUp(request: PlanRequest, profile: Profile, version: string, fallback: bool, parts: seq<PartRecord>,
                      ordered: seq<ContextItem>, dropped: seq<ContextItem>, reserves: u32, outcome: Outcome)
    ensures var plan := Deliver(request, profile, version, fallback, parts, ordered, dropped, reserves, outcome);
      IsLedgerOf(plan, request) && if IsReady(plan) then SumsUp(plan) else RefusalSumsUp(plan)
  {
    var plan := Deliver(request, profile, version, fallback, parts, ordered, dropped, reserves, outcome);
    DeliverShape(request, profile, version, fallback, parts, ordered, dropped, reserves, outcome);
    if IsReady(plan) { DeliveredSumsUp(plan, ordered, dropped, reserves); }
  }

  lemma RefuseSumsUp(request: PlanRequest, profile: Profile, version: string, why: Unavailable, parts: seq<PartRecord>,
                     selected: seq<SelectedRecord>, fallback: bool, levels: seq<LadderLevel>)
    ensures var plan := Refuse(request, profile, version, why, parts, selected, fallback, levels);
      !IsReady(plan) && IsLedgerOf(plan, request) && RefusalSumsUp(plan)
  {
  }

  lemma AssembleSumsUp(request: PlanRequest, profile: Profile, version: string, fallback: bool,
                       items: seq<ContextItem>, sink: OffloadSink, summarizer: Summarizer)
    ensures var plan := Assemble(request, profile, version, fallback, items, sink, summarizer);
      IsLedgerOf(plan, request) && if IsReady(plan) then SumsUp(plan) else RefusalSumsUp(plan)
  {
    var parts := Parts(items, PARTS);
    var early := EarlyRefusal(profile, parts);
    AssembleCases(request, profile, version, fallback, items, sink, summarizer);
    if early.Some? {
      RefuseSumsUp(request, profile, version, early.value, parts, [], fallback, []);
    } else {
      var pre := Filter(NotSelected, PruneOptional(items, request.now));
      var st := Reduced(request, profile, items, sink, summarizer);
      ConcludeDelivers(request, profile, version, fallback, parts, pre, st);
      DeliverSumsUp(request, profile, version, fallback, parts, InContextOrder(Filter(IsSelected, st.items)),
                    Dropped(pre, st), st.reserves, st.outcome);
    }
  }

  /** The ledger of every plan repeats the request and the outcome; for a ready plan it adds up what is sent and records
      what was dropped and why, for a refusal what was needed. */
  lemma LedgerExactly(setup: Setup, request: PlanRequest, sink: OffloadSink, summarizer: Summarizer,
                      override: Option<Profile>)
    ensures var plan := PlanFor(setup, request, sink, summarizer, override);
      IsLedgerOf(plan, request) && if IsReady(plan) then SumsUp(plan) else RefusalSumsUp(plan)
  {
    var choice, base := Choose(setup), BaseProfile(setup, request, override);
    if choice.None? {
      RefuseSumsUp(request, base, "unavailable", Unavailable(EstimatorUnavailable, 0, 0, None), [], [], false, []);
    } else {
      var (e, fallback) := choice.value;
      var profile := EffectiveProfile(base, fallback);
      RefuseSumsUp(request, profile, e.version,
                   Unavailable(MandatoryOverflow, ReservesTotal(profile), profile.hardLimitTokens, Some(SafetyPolicy)),
                   [], [], fallback, []);
      AssembleSumsUp(request, profile, e.version, fallback, EstimateAll(setup.hashing, e, request.inputs), sink,
                     summarizer);
    }
  }

  /** The refusal of a second re-plan repeats what the first one needed and had. */
  lemma SecondReplanSays(setup: Setup, request: PlanRequest, previous: Plan, window: Option<u32>, sink: OffloadSink,
                         summarizer: Summarizer)
    requires previous.ledger.replanOf.Some?
    ensures var plan := ReplanFor(setup, request, previous, window, sink, summarizer);
      && plan.unavailable.Some? && plan.unavailable.value.stage == ProviderReplanFailed
      && plan.unavailable.value.requiredTokens == previous.ledger.estimatedPromptTokens
      && plan.unavailable.value.availableTokens == previous.profile.hardLimitTokens
      && plan.unavailable.value.missingPart == (if previous.ledger.mandatoryParts == [] then None
                                                else Some(previous.ledger.mandatoryParts[0].part))
      && plan.profile == previous.profile && plan.ledger.selectedItems == previous.ledger.selectedItems
      && plan.ledger.mandatoryParts == previous.ledger.mandatoryParts
      && plan.ledger.levelsApplied == previous.ledger.levelsApplied
      && plan.ledger.replanOf == Some(previous.ledger.id) && RefusalSumsUp(plan)
  {
  }

  // ------------------------------------------------------------------------- re-plans

  /** A limit of at least 2 that a context-length error leaves is within nine tenths and the window. */
  lemma ReducedWithin(hard: nat, before: nat, window: Option<u32>)
    requires IsReducedLimit(hard, before, window) && hard >= 2
    ensures 10 * hard <= 9 * before && (window.Some? ==> hard <= window.value)
  {
  }

  lemma ScaledWithin(q: Profile)
    ensures ScaledForFallback(q).hardLimitTokens <= q.hardLimitTokens
    ensures ScaledForFallback(q).maxContextTokens == q.maxContextTokens
  {
    ScaledExactly(q);
  }

  lemma ReplannedLimit(p: Profile, window: Option<u32>, fallback: bool)
    requires IsValid(EffectiveProfile(Replan(p, window), fallback))
    ensures var q := EffectiveProfile(Replan(p, window), fallback);
      && 10 * q.hardLimitTokens <= 9 * p.hardLimitTokens && q.hardLimitTokens < U32_MAX
      && (window.Some? ==> q.hardLimitTokens <= window.value && q.maxContextTokens <= window.value)
  {
    ReplanExactly(p, window);
    ScaledWithin(Replan(p, window));
    ReducedWithin(Replan(p, window).hardLimitTokens, p.hardLimitTokens, window);
  }

  lemma ReadyFits(setup: Setup, request: PlanRequest, sink: OffloadSink, summarizer: Summarizer,
                  override: Option<Profile>)
    requires IsReady(PlanFor(setup, request, sink, summarizer, override))
    requires PlanFor(setup, request, sink, summarizer, override).profile.hardLimitTokens < U32_MAX
    ensures var plan := PlanFor(setup, request, sink, summarizer, override);
      Tokens(Every, plan.selected) + plan.reserves <= plan.profile.hardLimitTokens
  {
    PlanIsAssembly(setup, request, sink, summarizer, override);
    PlanProfile(setup, request, sink, summarizer, override);
    var (e, fallback) := Choose(setup).value;
    var plan, items := PlanFor(setup, request, sink, summarizer, override),
                       EstimateAll(setup.hashing, e, request.inputs);
    AssembledPlan(request, plan.profile, e.version, fallback, items, sink, summarizer);
    CheckedFits(plan, Reduced(request, plan.profile, items, sink, summarizer));
  }

  lemma CheckedFits(plan: Plan, st: State)
    requires IsReady(plan) && MadeOf(plan, st) && plan.profile.hardLimitTokens < U32_MAX
    ensures Tokens(Every, plan.selected) + plan.reserves <= plan.profile.hardLimitTokens
  {
    OrderedTokens(st.items);
  }

  /** A ready re-plan follows a plan that was none, and fits, with its reserves, into nine tenths of the old hard limit
      and into the window the provider reported. */
  lemma ReadyReplanFits(setup: Setup, request: PlanRequest, previous: Plan, window: Option<u32>, sink: OffloadSink,
                        summarizer: Summarizer)
    requires IsReady(ReplanFor(setup, request, previous, window, sink, summarizer))
    ensures var plan := ReplanFor(setup, request, previous, window, sink, summarizer);
      && previous.ledger.replanOf.None?
      && 10 * (Tokens(Every, plan.selected) + plan.reserves) <= 9 * previous.profile.hardLimitTokens
      && (window.Some? ==>
            Tokens(Every, plan.selected) + plan.reserves <= window.value
            && plan.profile.maxContextTokens <= window.value)
  {
    var asked := request.(replanOf := Some(previous.ledger.id));
    var override := Some(Replan(previous.profile, window));
    PlanProfile(setup, asked, sink, summarizer, override);
    PlanIsAssembly(setup, asked, sink, summarizer, override);
    ReplannedLimit(previous.profile, window, Choose(setup).value.1);
    ReadyFits(setup, asked, sink, summarizer, override);
  }
}
