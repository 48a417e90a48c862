/**
 The one hard limit under which a ready plan need not fit: sums that saturate at the limit cannot exceed it.
 */
module PlannerLimit {
  import opened Machine
  import opened Order
  import opened Items
  import opened Profiles
  import opened Pruning
  import opened Budgeting
  import opened Ladder
  import opened LadderFacts
  import opened LadderRuns
  import opened Planner
  import opened PlannerFacts
  import opened PlannerOrder

  // ------------------------------------------------------- items no step has anything against

  ghost predicate DistinctHashes(items: seq<ContextItem>) {
    forall i, j :: 0 <= i < j < |items| ==> items[i].contentHash != items[j].contentHash
  }

  ghost predicate Immune(items: seq<ContextItem>, now: i64, cutoff: u8) {
    && Fresh(items) && DistinctHashes(items)
    && (forall x :: x in items ==> !IsMandatory(x) && x.parentId.None? && !Droppable(x, now, cutoff))
  }

  lemma {:induction false} NoDuplicates(items: seq<ContextItem>, ids: seq<string>, seen: set<string>)
    requires NoRepeat(ids) && DistinctHashes(items)
    requires forall id :: id in ids && Find(items, id).Some? ==> Find(items, id).value.contentHash !in seen
    ensures DuplicateIds(items, ids, seen) == []
    decreases |ids|
  {
    if ids != [] {
      var found := Find(items, ids[0]);
      FindFinds(items, ids[0]);
      if found.None? {
        NoDuplicates(items, ids[1..], seen);
      } else {
        forall id | id in ids[1..] && Find(items, id).Some?
            ensures Find(items, id).value.contentHash !in seen + {found.value.contentHash} {
          FindFinds(items, id);
        }
        NoDuplicates(items, ids[1..], seen + {found.value.contentHash});
      }
    }
  }

  lemma NothingRedundant(items: seq<ContextItem>, now: i64, cutoff: u8, x: ContextItem)
    requires Immune(items, now, cutoff) && x in items
    ensures L1Reason(items, now)(x).None?
  {
    var ids := OrderedCandidates(items, Anything);
    AllCandidates(items);
    ReversedAt(ids);
    NoDuplicates(items, Reversed(ids), MandatoryHashes(items));
  }

  lemma L1Immune(items: seq<ContextItem>, now: i64, cutoff: u8, goal: u32)
    requires Immune(items, now, cutoff)
    ensures L1(items, now, goal) == items
  {
    var ids := OrderedCandidates(items, Anything);
    AllCandidates(items);
    var k := ShortestPrefix(items, ids, L1Reason(items, now), goal);
    forall i | 0 <= i < |items| ensures Map(DropSome(ids[..k], L1Reason(items, now)), items)[i] == items[i] {
      assert items[i] in items;
      NothingRedundant(items, now, cutoff, items[i]);
    }
  }

  lemma {:induction false} FilterNone<T>(p: T -> bool, s: seq<T>)
    requires forall x :: x in s ==> !p(x)
    ensures Filter(p, s) == []
  {
    if s != [] {
      HeadTail(s);
      FilterNone(p, s[1..]);
    }
  }

  lemma NoCandidates(key: ContextItem -> Key, p: ContextItem -> bool, items: seq<ContextItem>)
    requires forall x :: x in items ==> !p(x)
    ensures Ids(SortBy(key, Filter(p, items))) == []
  {
    FilterNone(p, items);
  }

  lemma ApplyImmune(level: LadderLevel, st: State, ctx: Context, sink: OffloadSink, summarizer: Summarizer)
    requires Immune(st.items, ctx.now, ctx.profile.lowPriorityCutoff) && !sink.available
    requires level.CompressHistory? ==> !summarizer.available
    ensures Apply(level, st, ctx, sink, summarizer).items == st.items
  {
    L1Immune(st.items, ctx.now, ctx.profile.lowPriorityCutoff, ctx.goal);
    NoCandidates(DropKey, Candidate(BelowCutoff(ctx.profile.lowPriorityCutoff)), st.items);
    NoCandidates(StaleKey, IsStaleTool, st.items);
  }

  lemma {:induction false} ClimbImmune(levels: seq<LadderLevel>, st: State, ctx: Context, sink: OffloadSink,
                                       summarizer: Summarizer)
    requires Immune(st.items, ctx.now, ctx.profile.lowPriorityCutoff) && !sink.available && !summarizer.available
    ensures Climb(levels, st, ctx, sink, summarizer).items == st.items
    decreases |levels|
  {
    if levels != [] {
      ApplyImmune(levels[0], st, ctx, sink, summarizer);
      ClimbImmune(levels[1..], Next(levels[0], st, ctx, sink, summarizer), ctx, sink, summarizer);
    }
  }

  lemma PruneImmune(items: seq<ContextItem>, now: i64, cutoff: u8)
    requires Immune(items, now, cutoff)
    ensures PruneOptional(items, now) == items
  {
    assert Map(HoldBack, items) == items by {
      forall i | 0 <= i < |items| ensures HoldBack(items[i]) == items[i] { assert items[i] in items; }
    }
    if items == [] { PruneOptionalEmpty(now); }
    forall i | 0 <= i < |items|
      ensures |PruneOptional(items, now)| == |items| && PruneOptional(items, now)[i] == items[i]
    {
      PruneOptionalAt(items, now, i);
      PruneExact(items, now, i);
      StaysPut(items, now, cutoff, i);
    }
  }

  lemma StaysPut(items: seq<ContextItem>, now: i64, cutoff: u8, i: nat)
    requires Immune(items, now, cutoff) && i < |items|
    ensures Verdict(items, now, items[i]) == items[i] && Readmit(items[i]) == items[i]
  {
    var x := items[i];
    assert x in items;
    forall y | y in items && y.contentHash == x.contentHash ensures Leq(RankKey(x), RankKey(y)) {
      var j :| 0 <= j < |items| && items[j] == y;
      LeqTotal(RankKey(x), RankKey(y));
    }
  }

  lemma {:induction false} FilterAll<T>(p: T -> bool, s: seq<T>)
    requires forall x :: x in s ==> p(x)
    ensures Filter(p, s) == s
  {
    if s != [] {
      HeadTail(s);
      FilterAll(p, s[1..]);
    }
  }

  lemma SelectFresh(items: seq<ContextItem>)
    requires Fresh(items)
    ensures Filter(IsSelected, items) == items && Map(Select, items) == items
  {
    FilterAll(IsSelected, items);
    forall i | 0 <= i < |items| ensures Map(Select, items)[i] == items[i] { assert items[i] in items; }
  }

  lemma StartImmune(request: PlanRequest, items: seq<ContextItem>, cutoff: u8)
    requires Immune(items, request.now, cutoff)
    ensures Start(request, items) == items
  {
    PruneImmune(items, request.now, cutoff);
    SelectFresh(items);
  }

  lemma ReducedImmune(request: PlanRequest, profile: Profile, items: seq<ContextItem>, sink: OffloadSink,
                      summarizer: Summarizer)
    requires Immune(items, request.now, profile.lowPriorityCutoff) && !sink.available && !summarizer.available
    ensures Reduced(request, profile, items, sink, summarizer).items == items
  {
    StartImmune(request, items, profile.lowPriorityCutoff);
    var m := FoldParts(0, Parts(items, PARTS));
    ReduceCases(request, profile, m, items, sink, summarizer);
    ClimbImmune(LEVELS, State(items, ReservesTotal(profile), NOTHING_DONE), LadderContext(request, profile, m), sink,
                summarizer);
  }

  // ---------------------------------------------------------------- the exact condition

  ghost predicate Fits(plan: Plan) {
    Tokens(Every, plan.selected) + plan.reserves <= plan.profile.hardLimitTokens
  }

  /** Every ready plan under the profile fits its hard limit in exact arithmetic. */
  ghost predicate AlwaysFits(p: Profile) {
    forall setup: Setup, request: PlanRequest, sink: OffloadSink, summarizer: Summarizer, override: Option<Profile> ::
      var plan := PlanFor(setup, request, sink, summarizer, override);
      WellPosed(request) && IsReady(plan) && plan.profile == p ==> Fits(plan)
  }

  const NO_SUMMARIZER: Summarizer := Summarizer(false, (cs: seq<ContextItem>) => Err("summarizer is not available"))

  const NO_OFFLOAD: OffloadSink := OffloadSink(false,
      (n: nat, x: ContextItem) => Err("artifact store is not available"))

  /** An optional input that is just important enough to stay. */
  function Note(id: string, kind: ItemKind, cutoff: u8): PlanInput {
    PlanInput(ContextItem(id, None, kind, cutoff, CoreOwned, Workspace, 0, None, None, false, 1, "", "", 0, 0, false,
                          None, None, None, true),
              Text(id))
  }

  const HUGE: Estimator := Estimator("v", "c", (c: Content) => 0xFFFF_FFFF as u32, 0)

  const NAMING: Hashing := Hashing((k: ItemKind, c: Content) => if c.Text? then c.text else "", (c: Content) => 1)

  function SetupFor(p: Profile): Setup {
    Setup((provider: string, model: string, window: Option<u32>) => p, Some(HUGE), true, NAMING)
  }

  function TwoNotes(p: Profile, kind: ItemKind): PlanRequest {
    var cutoff := p.lowPriorityCutoff;
    PlanRequest("call", "p", "m", None, 0, [Note("a", kind, cutoff), Note("b", kind, cutoff)], None, None, false)
  }

  function HugeNote(id: string, kind: ItemKind, cutoff: u8): ContextItem {
    Estimated(NAMING, HUGE, Note(id, kind, cutoff))
  }

  function Pair(p: Profile, kind: ItemKind): seq<ContextItem> {
    [HugeNote("a", kind, p.lowPriorityCutoff), HugeNote("b", kind, p.lowPriorityCutoff)]
  }

  lemma NotesEstimated(p: Profile, kind: ItemKind)
    ensures EstimateAll(NAMING, HUGE, TwoNotes(p, kind).inputs) == Pair(p, kind)
  {
  }

  lemma HugePair(p: Profile, kind: ItemKind)
    requires kind.Memory? || kind.History?
    ensures Immune(Pair(p, kind), 0, p.lowPriorityCutoff)
    ensures Tokens(Every, Pair(p, kind)) == Tokens(IsSelected, Pair(p, kind)) == 2 * U32_MAX
  {
    var a, b := HugeNote("a", kind, p.lowPriorityCutoff), HugeNote("b", kind, p.lowPriorityCutoff);
    var items := [a, b];
    assert a.id == a.contentHash == "a" && b.id == b.contentHash == "b" && "a"[0] != "b"[0];
    forall x | x in items ensures x == a || x == b {}
    assert items[1..] == [b] && [b][1..] == [];
    assert Tokens(Every, [b]) == Tokens(IsSelected, [b]) == U32_MAX;
  }

  lemma {:induction false} NoParts(items: seq<ContextItem>, kinds: seq<ItemKind>)
    requires forall k :: k in kinds ==> PartItems(items, k) == []
    ensures Parts(items, kinds) == []
  {
    if kinds != [] {
      assert kinds[0] in kinds;
      forall k | k in kinds[1..] ensures PartItems(items, k) == [] { assert k in kinds; }
      NoParts(items, kinds[1..]);
    }
  }

  lemma NotesHaveNoParts(items: seq<ContextItem>)
    requires forall x :: x in items ==> !IsMandatory(x)
    ensures Parts(items, PARTS) == []
  {
    forall k | k in PARTS ensures PartItems(items, k) == [] {
      FilterNone(OfKind(k), items);
    }
    NoParts(items, PARTS);
  }

  lemma HugeConcluded(p: Profile, request: PlanRequest, pre: seq<ContextItem>, st: State)
    requires IsValid(p) && Tokens(IsSelected, st.items) == 2 * U32_MAX
    ensures var plan := Conclude(request, p, HUGE.version, false, [], pre, st);
      && plan.profile == p && Tokens(Every, plan.selected) == 2 * U32_MAX
      && (IsReady(plan) <==> p.hardLimitTokens == U32_MAX)
      && (!IsReady(plan) ==> plan.unavailable.value.stage == DropsExhausted)
  {
    FinalCheck(request, p, HUGE.version, false, [], pre, st);
    ConcludeShape(request, p, HUGE.version, false, [], pre, st);
    OrderedTokens(st.items);
  }

  /** Two notes of the largest size survive every step; the final check sees only their saturated sum. */
  lemma PairConcluded(p: Profile)
    requires IsValid(p)
    ensures var plan := PlanOf(p, TwoNotes(p, Memory), Pair(p, Memory));
      && plan.profile == p && Tokens(Every, plan.selected) == 2 * U32_MAX
      && (IsReady(plan) <==> p.hardLimitTokens == U32_MAX)
      && (!IsReady(plan) ==> plan.unavailable.value.stage == DropsExhausted)
  {
    var request, items := TwoNotes(p, Memory), Pair(p, Memory);
    HugePair(p, Memory);
    ReducedImmune(request, p, items, NO_OFFLOAD, NO_SUMMARIZER);
    HugeConcluded(p, request, Filter(NotSelected, PruneOptional(items, request.now)),
                  Reduced(request, p, items, NO_OFFLOAD, NO_SUMMARIZER));
  }

  lemma NoEarlyRefusal(p: Profile)
    requires IsValid(p)
    ensures EarlyRefusal(p, []).None?
  {
  }

  lemma NothingMandatory(request: PlanRequest, p: Profile, version: string, fallback: bool, items: seq<ContextItem>,
                         sink: OffloadSink, summarizer: Summarizer)
    requires IsValid(p) && Parts(items, PARTS) == []
    ensures Assemble(request, p, version, fallback, items, sink, summarizer)
         == Conclude(request, p, version, fallback, [], Filter(NotSelected, PruneOptional(items, request.now)),
                     Reduced(request, p, items, sink, summarizer))
  {
    NoEarlyRefusal(p);
  }

  /** What the planner makes of a request without mandatory inputs, in this setup. */
  function PlanOf(p: Profile, request: PlanRequest, items: seq<ContextItem>): Plan {
    Conclude(request, p, HUGE.version, false, [], Filter(NotSelected, PruneOptional(items, request.now)),
             Reduced(request, p, items, NO_OFFLOAD, NO_SUMMARIZER))
  }

  lemma PlannedAs(p: Profile, request: PlanRequest, items: seq<ContextItem>)
    requires IsValid(p) && items == EstimateAll(NAMING, HUGE, request.inputs) && Parts(items, PARTS) == []
    ensures PlanFor(SetupFor(p), request, NO_OFFLOAD, NO_SUMMARIZER, None) == PlanOf(p, request, items)
  {
    PlanAssembles(SetupFor(p), request, NO_OFFLOAD, NO_SUMMARIZER, None);
    NothingMandatory(request, p, HUGE.version, false, items, NO_OFFLOAD, NO_SUMMARIZER);
  }

  /** Under every valid profile two notes of the largest size are refused as exhausted, except under the largest limit:
      there they are sent together. */
  lemma TwoNotesOutcome(p: Profile)
    requires IsValid(p)
    ensures var plan := PlanFor(SetupFor(p), TwoNotes(p, Memory), NO_OFFLOAD, NO_SUMMARIZER, None);
      && plan.profile == p && !Fits(plan)
      && (IsReady(plan) <==> p.hardLimitTokens == U32_MAX)
      && (!IsReady(plan) ==> plan.unavailable.value.stage == DropsExhausted)
  {
    NotesEstimated(p, Memory);
    NotesHaveNoParts(Pair(p, Memory));
    PlannedAs(p, TwoNotes(p, Memory), Pair(p, Memory));
    PairConcluded(p);
  }

  lemma EmptyReduce(request: PlanRequest, p: Profile, items: seq<ContextItem>, sink: OffloadSink,
                    summarizer: Summarizer)
    requires IsValid(p) && |items| == 0
    ensures Reduce(request, p, 0, items, sink, summarizer) == State(items, ReservesTotal(p), NOTHING_DONE)
  {
    var ctx := LadderContext(request, p, 0);
    ReduceCases(request, p, 0, items, sink, summarizer);
    ContextExact(items);
    TargetFits(p);
    if request.forceReduction {
      StopsAtGoal(LEVELS, State(items, ReservesTotal(p), NOTHING_DONE), ctx, sink, summarizer);
    }
  }

  lemma EmptyStart(request: PlanRequest)
    ensures Start(request, []) == []
  {
    PruneOptionalEmpty(request.now);
  }

  lemma ReservesAloneFit(p: Profile, request: PlanRequest, version: string, fallback: bool, pre: seq<ContextItem>,
                         st: State)
    requires IsValid(p) && |st.items| == 0 && st.reserves <= ReservesTotal(p)
    ensures IsReady(Conclude(request, p, version, fallback, [], pre, st))
  {
    FinalCheck(request, p, version, fallback, [], pre, st);
    TargetFits(p);
  }

  lemma EmptyAssembled(request: PlanRequest, p: Profile, version: string, fallback: bool, sink: OffloadSink,
                       summarizer: Summarizer)
    requires IsValid(p)
    ensures IsReady(Assemble(request, p, version, fallback, [], sink, summarizer))
  {
    NotesHaveNoParts([]);
    NothingMandatory(request, p, version, fallback, [], sink, summarizer);
    EmptyStart(request);
    EmptyReduce(request, p, [], sink, summarizer);
    ReservesAloneFit(p, request, version, fallback, Filter(NotSelected, PruneOptional([], request.now)),
                     Reduced(request, p, [], sink, summarizer));
  }

  /** With an estimator and a valid profile a call without inputs is ready, for every artifact store and summarizer. */
  lemma EmptyPlanIsReady(setup: Setup, request: PlanRequest, sink: OffloadSink, summarizer: Summarizer,
                         override: Option<Profile>)
    requires request.inputs == [] && Choose(setup).Some?
    requires IsValid(EffectiveProfile(BaseProfile(setup, request, override), Choose(setup).value.1))
    ensures IsReady(PlanFor(setup, request, sink, summarizer, override))
  {
    var (e, fallback) := Choose(setup).value;
    PlanAssembles(setup, request, sink, summarizer, override);
    EmptyAssembled(request, EffectiveProfile(BaseProfile(setup, request, override), fallback), e.version, fallback,
                   sink, summarizer);
  }

  lemma BelowTopAlwaysFits(p: Profile)
    requires IsValid(p) && p.hardLimitTokens < U32_MAX
    ensures AlwaysFits(p)
  {
    forall setup: Setup, request: PlanRequest, sink: OffloadSink, summarizer: Summarizer, override: Option<Profile> |
      var plan := PlanFor(setup, request, sink, summarizer, override);
      WellPosed(request) && IsReady(plan) && plan.profile == p
      ensures Fits(PlanFor(setup, request, sink, summarizer, override))
    {
      ReadyPlanIsSafe(setup, request, sink, summarizer, override, PlanFor(setup, request, sink, summarizer, override));
    }
  }

  lemma AtTopNotAlways(p: Profile)
    requires IsValid(p) && p.hardLimitTokens == U32_MAX
    ensures !AlwaysFits(p)
  {
    TwoNotesOutcome(p);
    NotesWellPosed(p, Memory);
    if AlwaysFits(p) { FitsHere(p, SetupFor(p), TwoNotes(p, Memory), NO_OFFLOAD, NO_SUMMARIZER, None); }
  }

  lemma FitsHere(p: Profile, setup: Setup, request: PlanRequest, sink: OffloadSink, summarizer: Summarizer,
                 override: Option<Profile>)
    requires AlwaysFits(p) && WellPosed(request)
    requires var plan := PlanFor(setup, request, sink, summarizer, override); IsReady(plan) && plan.profile == p
    ensures Fits(PlanFor(setup, request, sink, summarizer, override))
  {
  }

  lemma NotesWellPosed(p: Profile, kind: ItemKind)
    ensures WellPosed(TwoNotes(p, kind))
  {
    assert "a"[0] != "b"[0];
  }

  /** A valid profile keeps every ready plan within its hard limit exactly if that limit is below the largest u32. */
  lemma FitsBelowTopLimit(p: Profile)
    requires IsValid(p)
    ensures AlwaysFits(p) <==> p.hardLimitTokens < U32_MAX
  {
    if p.hardLimitTokens < U32_MAX { BelowTopAlwaysFits(p); } else { AtTopNotAlways(p); }
  }
}
