/**
 Conservation of items, safety of ready plans, and refusals that are never premature.
 */
module PlannerFacts {
  import opened Machine
  import opened Order
  import opened Items
  import opened Profiles
  import opened Pruning
  import opened Budgeting
  import opened Ladder
  import opened LadderFacts
  import opened LadderRuns
  import opened Planner

  function Cores(s: seq<ContextItem>): seq<ContextItem> {
    Map(Core, s)
  }

  // ----------------------------------------------------------- after the pruning

  /** What pruning made of one estimated item. */
  ghost predicate PrunedFrom(x: ContextItem, y: ContextItem) {
    && Select(y) == x
    && (IsMandatory(x) ==> y.selected)
    && (!y.selected ==>
          y.dropReason == Some(Expired) || y.dropReason == Some(Duplicate) || y.dropReason == Some(Superseded))
  }

  lemma VerdictShape(items: seq<ContextItem>, now: i64, x: ContextItem)
    ensures var y := Verdict(items, now, x);
      y == x || y == Discarded(x, Expired) ||
          (x.selected && (y == Discarded(x, Duplicate) || y == Discarded(x, Superseded)))
  {
  }

  lemma ReadmitShape(x: ContextItem, y: ContextItem)
    requires x.selected && x.dropReason.None?
    requires var h := HoldBack(x);
      y == h || y == Discarded(h, Expired) ||
          (h.selected && (y == Discarded(h, Duplicate) || y == Discarded(h, Superseded)))
    ensures PrunedFrom(x, Readmit(y))
  {
  }

  lemma PruneOptionalAt(items: seq<ContextItem>, now: i64, i: nat)
    requires Fresh(items) && i < |items|
    ensures |PruneOptional(items, now)| == |items| && PrunedFrom(items[i], PruneOptional(items, now)[i])
  {
    var held := Map(HoldBack, items);
    MapDistinct(HoldBack, items);
    PruneExact(held, now, i);
    assert items[i] in items;
    VerdictShape(held, now, held[i]);
    ReadmitShape(items[i], Prune(held, now)[i]);
  }

  ghost predicate AllPruned(items: seq<ContextItem>, pruned: seq<ContextItem>) {
    |items| == |pruned| && forall i :: 0 <= i < |items| ==> PrunedFrom(items[i], pruned[i])
  }

  lemma AllItemsPruned(items: seq<ContextItem>, now: i64)
    requires Fresh(items)
    ensures AllPruned(items, PruneOptional(items, now))
  {
    if items == [] { PruneOptionalEmpty(now); }
    forall i | 0 <= i < |items|
      ensures |PruneOptional(items, now)| == |items| && PrunedFrom(items[i], PruneOptional(items, now)[i])
    {
      PruneOptionalAt(items, now, i);
    }
  }

  lemma SurvivorsWithin(items: seq<ContextItem>, pruned: seq<ContextItem>)
    requires Fresh(items) && AllPruned(items, pruned)
    ensures forall x :: x in Map(Select, Filter(IsSelected, pruned)) ==> x in items
  {
    var kept := Filter(IsSelected, pruned);
    var start := Map(Select, kept);
    FilterMembers(IsSelected, pruned);
    forall x | x in start ensures x in items {
      var k :| 0 <= k < |start| && start[k] == x;
      assert kept[k] in kept;
      var i :| 0 <= i < |pruned| && pruned[i] == kept[k];
      assert PrunedFrom(items[i], pruned[i]);
    }
  }

  lemma MandatorySelected(items: seq<ContextItem>, pruned: seq<ContextItem>, i: nat)
    requires AllPruned(items, pruned) && i < |items| && IsMandatory(items[i])
    ensures items[i] in Map(Select, Filter(IsSelected, pruned))
  {
    var kept := Filter(IsSelected, pruned);
    FilterMembers(IsSelected, pruned);
    assert PrunedFrom(items[i], pruned[i]);
    assert pruned[i] in kept;
    var k :| 0 <= k < |kept| && kept[k] == pruned[i];
    assert Map(Select, kept)[k] == items[i];
  }

  lemma SurvivorsDistinct(items: seq<ContextItem>, pruned: seq<ContextItem>)
    requires DistinctIds(items) && AllPruned(items, pruned)
    ensures DistinctIds(Map(Select, Filter(IsSelected, pruned)))
  {
    forall i, j | 0 <= i < j < |pruned| ensures pruned[i].id != pruned[j].id {
      assert PrunedFrom(items[i], pruned[i]) && PrunedFrom(items[j], pruned[j]);
    }
    FilterDistinct(IsSelected, pruned);
    MapDistinct(Select, Filter(IsSelected, pruned));
  }

  /** The ladder starts from estimated items, unchanged and with nothing mandatory missing. */
  lemma StartFacts(items: seq<ContextItem>, now: i64)
    requires Fresh(items)
    ensures var start := Map(Select, Filter(IsSelected, PruneOptional(items, now)));
      && Fresh(start)
      && (forall x :: x in start ==> x in items)
      && (forall x :: x in items && IsMandatory(x) ==> x in start)
  {
    var pruned := PruneOptional(items, now);
    AllItemsPruned(items, now);
    SurvivorsWithin(items, pruned);
    SurvivorsDistinct(items, pruned);
    forall x | x in items && IsMandatory(x) ensures x in Map(Select, Filter(IsSelected, pruned)) {
      var i :| 0 <= i < |items| && items[i] == x;
      MandatorySelected(items, pruned, i);
    }
  }

  lemma PruneOptionalEmpty(now: i64)
    ensures PruneOptional([], now) == []
  {
  }

  // ------------------------------------------------------------------ partitions

  lemma {:induction false} SelectionPartition(s: seq<ContextItem>)
    ensures multiset(Filter(IsSelected, s)) + multiset(Filter(NotSelected, s)) == multiset(s)
  {
    if s != [] {
      SelectionPartition(s[1..]);
      HeadTail(s);
    }
  }

  lemma {:induction false} KindPartition(s: seq<ContextItem>)
    ensures multiset(Filter(IsMandatory, s)) + multiset(Filter(IsOptional, s)) == multiset(s)
  {
    if s != [] {
      KindPartition(s[1..]);
      HeadTail(s);
    }
  }

  /** Ordering the context loses and adds nothing. */
  lemma ContextOrderPermutes(s: seq<ContextItem>)
    ensures multiset(InContextOrder(s)) == multiset(s)
    ensures |InContextOrder(s)| == |s|
    ensures forall x :: x in InContextOrder(s) <==> x in s
  {
    SortPermutes(By(MandatoryKey), Filter(IsMandatory, s));
    SortPermutes(By(ContextKey), Filter(IsOptional, s));
    KindPartition(s);
    Members(InContextOrder(s), s);
  }

  /** The mandatory parts come first in their fixed order, each oldest first; then the rest by hierarchy level, trust
      and freshness, the highest first. */
  predicate ReadsBefore(x: ContextItem, y: ContextItem) {
    if IsMandatory(x) && IsMandatory(y) then PartsNoLater(x, y)
    else if IsOptional(x) && IsOptional(y) then ReadsNoLater(x, y)
    else IsMandatory(x)
  }

  lemma MandatoryReads(x: ContextItem, y: ContextItem)
    requires Leq(MandatoryKey(x), MandatoryKey(y)) && IsMandatory(x) && IsMandatory(y)
    ensures ReadsBefore(x, y)
  {
    MandatoryKeyMeans(x, y);
  }

  lemma OptionalReads(x: ContextItem, y: ContextItem)
    requires Leq(ContextKey(x), ContextKey(y)) && IsOptional(x) && IsOptional(y)
    ensures ReadsBefore(x, y)
  {
    ContextKeyMeans(x, y);
  }

  lemma SortedMember(key: ContextItem -> Key, p: ContextItem -> bool, s: seq<ContextItem>, i: nat)
    requires i < |SortBy(key, Filter(p, s))|
    ensures p(SortBy(key, Filter(p, s))[i])
  {
    var r := SortBy(key, Filter(p, s));
    SortPermutes(By(key), Filter(p, s));
    FilterMembers(p, s);
    assert r[i] in r;
  }

  lemma SortedKeys(key: ContextItem -> Key, s: seq<ContextItem>, i: nat, j: nat)
    requires i < j < |SortBy(key, s)|
    ensures Leq(key(SortBy(key, s)[i]), key(SortBy(key, s)[j]))
  {
    ByLawful(key);
    SortSorted(By(key), s);
    SortedAt(By(key), SortBy(key, s), i, j);
  }

  lemma MandatoryInOrder(s: seq<ContextItem>, i: nat, j: nat)
    requires i < j < |SortBy(MandatoryKey, Filter(IsMandatory, s))|
    ensures var r := SortBy(MandatoryKey, Filter(IsMandatory, s)); ReadsBefore(r[i], r[j])
  {
    var r := SortBy(MandatoryKey, Filter(IsMandatory, s));
    SortedMember(MandatoryKey, IsMandatory, s, i);
    SortedMember(MandatoryKey, IsMandatory, s, j);
    SortedKeys(MandatoryKey, Filter(IsMandatory, s), i, j);
    MandatoryReads(r[i], r[j]);
  }

  lemma OptionalInOrder(s: seq<ContextItem>, i: nat, j: nat)
    requires i < j < |SortBy(ContextKey, Filter(IsOptional, s))|
    ensures var r := SortBy(ContextKey, Filter(IsOptional, s)); ReadsBefore(r[i], r[j])
  {
    var r := SortBy(ContextKey, Filter(IsOptional, s));
    SortedMember(ContextKey, IsOptional, s, i);
    SortedMember(ContextKey, IsOptional, s, j);
    SortedKeys(ContextKey, Filter(IsOptional, s), i, j);
    OptionalReads(r[i], r[j]);
  }

  /** The assembled context is in reading order. */
  lemma ContextInOrder(s: seq<ContextItem>, i: nat, j: nat)
    requires i < j < |InContextOrder(s)|
    ensures ReadsBefore(InContextOrder(s)[i], InContextOrder(s)[j])
  {
    var a, b := SortBy(MandatoryKey, Filter(IsMandatory, s)), SortBy(ContextKey, Filter(IsOptional, s));
    if j < |a| {
      MandatoryInOrder(s, i, j);
    } else if i >= |a| {
      OptionalInOrder(s, i - |a|, j - |a|);
    } else {
      SortedMember(MandatoryKey, IsMandatory, s, i);
      SortedMember(ContextKey, IsOptional, s, j - |a|);
    }
  }

  lemma CoresConcat(a: seq<ContextItem>, b: seq<ContextItem>)
    ensures Cores(a + b) == Cores(a) + Cores(b)
  {
  }

  lemma CoresSplit(a: seq<ContextItem>, b: seq<ContextItem>, s: seq<ContextItem>)
    requires multiset(a) + multiset(b) == multiset(s)
    ensures multiset(Cores(a)) + multiset(Cores(b)) == multiset(Cores(s))
  {
    MapPermutes(Core, a + b, s);
    CoresConcat(a, b);
  }

  // ----------------------------------------------------------------- conservation

  lemma PruningConserves(items: seq<ContextItem>, now: i64)
    requires Fresh(items)
    ensures var pruned := PruneOptional(items, now);
      multiset(Cores(Map(Select, Filter(IsSelected, pruned)))) + multiset(Cores(Filter(NotSelected, pruned)))
           == multiset(Cores(items))
  {
    var pruned := PruneOptional(items, now);
    var kept, left := Filter(IsSelected, pruned), Filter(NotSelected, pruned);
    PrunedCores(items, now);
    SelectionPartition(pruned);
    CoresSplit(kept, left, pruned);
    SelectKeepsCores(kept);
  }

  lemma PrunedCore(x: ContextItem, y: ContextItem)
    requires PrunedFrom(x, y)
    ensures Core(y) == Core(x)
  {
  }

  lemma PrunedCores(items: seq<ContextItem>, now: i64)
    requires Fresh(items)
    ensures Cores(PruneOptional(items, now)) == Cores(items)
  {
    var pruned := PruneOptional(items, now);
    AllItemsPruned(items, now);
    forall i | 0 <= i < |items| ensures Cores(pruned)[i] == Cores(items)[i] {
      assert PrunedFrom(items[i], pruned[i]);
      PrunedCore(items[i], pruned[i]);
    }
  }

  lemma SelectKeepsCores(s: seq<ContextItem>)
    ensures Cores(Map(Select, s)) == Cores(s)
  {
  }

  /** The summary the ladder appended, if any. */
  ghost function Added(start: seq<ContextItem>, st: State): seq<ContextItem>
    requires |start| <= |st.items|
  {
    st.items[|start|..]
  }

  lemma FrontCores(start: seq<ContextItem>, st: State)
    requires Accounted(start, st)
    ensures Cores(st.items[..|start|]) == Cores(start)
  {
    forall i | 0 <= i < |start| ensures Core(st.items[i]) == Core(start[i]) {
      assert AccountedAs(st.outcome.summaries, start[i], st.items[i]);
    }
  }

  lemma LadderConserves(start: seq<ContextItem>, st: State)
    requires Accounted(start, st)
    ensures multiset(Cores(st.items)) == multiset(Cores(start)) + multiset(Cores(Added(start, st)))
  {
    var front := st.items[..|start|];
    assert st.items == front + Added(start, st);
    CoresConcat(front, Added(start, st));
    FrontCores(start, st);
  }

  lemma ExplainKeepsCores(summaries: seq<SummaryOutcome>, s: seq<ContextItem>)
    ensures Cores(Map(Explain(summaries), s)) == Cores(s)
  {
  }

  lemma ConcludeConserves(preDropped: seq<ContextItem>, st: State)
    ensures multiset(Cores(InContextOrder(Filter(IsSelected, st.items)))) + multiset(Cores(Dropped(preDropped, st)))
         == multiset(Cores(st.items)) + multiset(Cores(preDropped))
  {
    var kept, left := Filter(IsSelected, st.items), Filter(NotSelected, st.items);
    ContextOrderPermutes(kept);
    MapPermutes(Core, InContextOrder(kept), kept);
    SelectionPartition(st.items);
    CoresSplit(kept, left, st.items);
    CoresConcat(preDropped, Map(Explain(st.outcome.summaries), left));
    ExplainKeepsCores(st.outcome.summaries, left);
  }

  // ---------------------------------------------------------------- the reduction

  ghost predicate WellPosed(request: PlanRequest) {
    forall i, j :: 0 <= i < j < |request.inputs| ==> request.inputs[i].item.id != request.inputs[j].item.id
  }

  function Start(request: PlanRequest, items: seq<ContextItem>): seq<ContextItem> {
    Map(Select, Filter(IsSelected, PruneOptional(items, request.now)))
  }

  lemma ReducedKeeps(request: PlanRequest, profile: Profile, items: seq<ContextItem>, sink: OffloadSink,
                     summarizer: Summarizer)
    requires Fresh(items)
    ensures Kept(6, Start(request, items), ReservesTotal(profile), profile,
                 Reduced(request, profile, items, sink, summarizer))
  {
    var start := Start(request, items);
    StartFacts(items, request.now);
    var m := FoldParts(0, Parts(items, PARTS));
    if request.forceReduction || !WithinSoftLimit(profile, ContextTokens(start)) {
      LadderKeeps(start, ReservesTotal(profile), LadderContext(request, profile, m), sink, summarizer);
    } else {
      FreshKept(start, ReservesTotal(profile), profile);
      var st := State(start, ReservesTotal(profile), NOTHING_DONE);
      KeptLater(0, start, ReservesTotal(profile), profile, st);
      KeptLater(1, start, ReservesTotal(profile), profile, st);
      KeptLater(2, start, ReservesTotal(profile), profile, st);
      KeptLater(3, start, ReservesTotal(profile), profile, st);
      KeptLater(4, start, ReservesTotal(profile), profile, st);
      KeptLater(5, start, ReservesTotal(profile), profile, st);
    }
  }

  /** Whether the pipeline got as far as the final budget check. */
  predicate ReachedCheck(plan: Plan) {
    IsReady(plan) || plan.unavailable.value.stage == DropsExhausted
  }

  lemma AssembleReached(request: PlanRequest, profile: Profile, version: string, fallback: bool,
                        items: seq<ContextItem>, sink: OffloadSink, summarizer: Summarizer)
    requires ReachedCheck(Assemble(request, profile, version, fallback, items, sink, summarizer))
    ensures Assemble(request, profile, version, fallback, items, sink, summarizer)
         == Conclude(request, profile, version, fallback, Parts(items, PARTS),
                     Filter(NotSelected, PruneOptional(items, request.now)),
                     Reduced(request, profile, items, sink, summarizer))
    ensures FoldParts(0, Parts(items, PARTS)) <= profile.absoluteMvcMaxLimit
    ensures SatAdd(FoldParts(0, Parts(items, PARTS)), ReservesTotal(profile)) <= profile.hardLimitTokens
  {
    var parts := Parts(items, PARTS);
    EarlyStage(profile, parts);
    AssembleCases(request, profile, version, fallback, items, sink, summarizer);
  }

  lemma AssembleCases(request: PlanRequest, profile: Profile, version: string, fallback: bool,
                      items: seq<ContextItem>, sink: OffloadSink, summarizer: Summarizer)
    ensures var parts := Parts(items, PARTS);
      var early := EarlyRefusal(profile, parts);
      Assemble(request, profile, version, fallback, items, sink, summarizer)
      == if early.Some? then Refuse(request, profile, version, early.value, parts, [], fallback, [])
         else Conclude(request, profile, version, fallback, parts,
                       Filter(NotSelected, PruneOptional(items, request.now)),
                       Reduced(request, profile, items, sink, summarizer))
  {
  }

  lemma EarlyStage(profile: Profile, parts: seq<PartRecord>)
    ensures EarlyRefusal(profile, parts).Some? ==> EarlyRefusal(profile, parts).value.stage == MandatoryOverflow
    ensures EarlyRefusal(profile, parts).None? ==>
              && FoldParts(0, parts) <= profile.absoluteMvcMaxLimit
              && SatAdd(FoldParts(0, parts), ReservesTotal(profile)) <= profile.hardLimitTokens
  {
  }

  lemma EstimatesFresh(hashing: Hashing, e: Estimator, request: PlanRequest)
    requires WellPosed(request)
    ensures Fresh(EstimateAll(hashing, e, request.inputs))
  {
    var items := EstimateAll(hashing, e, request.inputs);
    forall i, j | 0 <= i < j < |items| ensures items[i].id != items[j].id {
      assert items[i].id == request.inputs[i].item.id && items[j].id == request.inputs[j].item.id;
    }
  }

  lemma AssembleProfile(request: PlanRequest, profile: Profile, version: string, fallback: bool,
                        items: seq<ContextItem>, sink: OffloadSink, summarizer: Summarizer)
    ensures Assemble(request, profile, version, fallback, items, sink, summarizer).profile == profile
  {
    ConcludeProfile(request, profile, version, fallback, Parts(items, PARTS),
                    Filter(NotSelected, PruneOptional(items, request.now)),
                    Reduced(request, profile, items, sink, summarizer));
  }

  lemma ConcludeProfile(request: PlanRequest, profile: Profile, version: string, fallback: bool, parts: seq<PartRecord>,
                        pre: seq<ContextItem>, st: State)
    ensures Conclude(request, profile, version, fallback, parts, pre, st).profile == profile
  {
  }

  lemma PlanIsAssembly(setup: Setup, request: PlanRequest, sink: OffloadSink, summarizer: Summarizer,
                       override: Option<Profile>)
    requires ReachedCheck(PlanFor(setup, request, sink, summarizer, override))
    ensures Choose(setup).Some?
    ensures var (e, fallback) := Choose(setup).value;
      var profile := EffectiveProfile(BaseProfile(setup, request, override), fallback);
      && IsValid(profile)
      && PlanFor(setup, request, sink, summarizer, override)
         == Assemble(request, profile, e.version, fallback, EstimateAll(setup.hashing, e, request.inputs), sink,
                     summarizer)
  {
  }

  /** Past the estimator and the profile checks a plan is an assembly of the estimated inputs. */
  lemma PlanReached(setup: Setup, request: PlanRequest, sink: OffloadSink, summarizer: Summarizer,
                    override: Option<Profile>, plan: Plan)
    returns (e: Estimator, fallback: bool, items: seq<ContextItem>)
    requires plan == PlanFor(setup, request, sink, summarizer, override) && ReachedCheck(plan) && WellPosed(request)
    ensures Choose(setup) == Some((e, fallback))
    ensures items == EstimateAll(setup.hashing, e, request.inputs) && Fresh(items)
    ensures IsValid(plan.profile)
    ensures plan == Assemble(request, plan.profile, e.version, fallback, items, sink, summarizer)
  {
    PlanIsAssembly(setup, request, sink, summarizer, override);
    e, fallback := Choose(setup).value.0, Choose(setup).value.1;
    items := EstimateAll(setup.hashing, e, request.inputs);
    EstimatesFresh(setup.hashing, e, request);
    AssembleProfile(request, EffectiveProfile(BaseProfile(setup, request, override), fallback), e.version, fallback,
                    items, sink, summarizer);
  }

  // ------------------------------------------------------------ main theorem: conservation

  ghost predicate Conserves(plan: Plan, items: seq<ContextItem>, added: seq<ContextItem>,
                            summaries: seq<SummaryOutcome>)
  {
    && multiset(Cores(plan.selected)) + multiset(Cores(plan.dropped)) == multiset(Cores(items)) + multiset(Cores(added))
    && |added| == |summaries| <= 1
    && (forall k :: 0 <= k < |added| ==> IsSummaryOf(summaries[k], added[k]) && added[k] in plan.selected)
    && (IsReady(plan) ==> plan.ledger.compression == summaries)
    && (forall x :: x in plan.dropped ==> IsAccountedDrop(summaries, x))
  }

  /** A dropped item says why, or is a source of a recorded summary; the catch-all reason is never needed. */
  predicate IsAccountedDrop(summaries: seq<SummaryOutcome>, x: ContextItem) {
    !x.selected && x.dropReason != Some(OverBudget) && (x.dropReason.None? ==> IsSource(summaries, x.id))
  }

  lemma PrunedDropExplained(items: seq<ContextItem>, pruned: seq<ContextItem>, summaries: seq<SummaryOutcome>,
                            x: ContextItem)
    requires AllPruned(items, pruned) && x in Filter(NotSelected, pruned)
    ensures IsAccountedDrop(summaries, x)
  {
    FilterMembers(NotSelected, pruned);
    var i :| 0 <= i < |pruned| && pruned[i] == x;
    assert PrunedFrom(items[i], pruned[i]);
  }

  lemma PreDroppedExplained(items: seq<ContextItem>, now: i64, summaries: seq<SummaryOutcome>, x: ContextItem)
    requires Fresh(items) && x in Filter(NotSelected, PruneOptional(items, now))
    ensures IsAccountedDrop(summaries, x)
  {
    AllItemsPruned(items, now);
    PrunedDropExplained(items, PruneOptional(items, now), summaries, x);
  }

  lemma LadderDropExplained(start: seq<ContextItem>, st: State, x: ContextItem)
    requires Accounted(start, st) && x in st.items && !x.selected
    ensures IsAccountedDrop(st.outcome.summaries, Explain(st.outcome.summaries)(x))
  {
    var i :| 0 <= i < |st.items| && st.items[i] == x;
    assert i < |start|;
    assert AccountedAs(st.outcome.summaries, start[i], st.items[i]);
  }

  lemma DroppedExplained(items: seq<ContextItem>, now: i64, start: seq<ContextItem>, st: State, x: ContextItem)
    requires Fresh(items) && Accounted(start, st) && x in Dropped(Filter(NotSelected, PruneOptional(items, now)), st)
    ensures IsAccountedDrop(st.outcome.summaries, x)
  {
    var pre, left := Filter(NotSelected, PruneOptional(items, now)), Filter(NotSelected, st.items);
    var explained := Map(Explain(st.outcome.summaries), left);
    if x in pre {
      PreDroppedExplained(items, now, st.outcome.summaries, x);
    } else {
      assert x in explained;
      var k :| 0 <= k < |left| && explained[k] == x;
      assert left[k] in left;
      FilterMembers(NotSelected, st.items);
      LadderDropExplained(start, st, left[k]);
    }
  }

  lemma SelectedInContext(items: seq<ContextItem>, i: nat)
    requires i < |items| && items[i].selected
    ensures items[i] in InContextOrder(Filter(IsSelected, items))
  {
    FilterMembers(IsSelected, items);
    ContextOrderPermutes(Filter(IsSelected, items));
    assert items[i] in items;
  }

  lemma AddedIsSelected(start: seq<ContextItem>, st: State)
    requires Accounted(start, st)
    ensures |Added(start, st)| == |st.outcome.summaries| <= 1
    ensures forall k :: 0 <= k < |Added(start, st)| ==>
              && IsSummaryOf(st.outcome.summaries[k], Added(start, st)[k])
              && Added(start, st)[k] in InContextOrder(Filter(IsSelected, st.items))
  {
    if |st.outcome.summaries| == 1 {
      var x := Added(start, st)[0];
      assert x == st.items[|start|];
      SelectedInContext(st.items, |start|);
    }
  }

  lemma ConcludeShape(request: PlanRequest, profile: Profile, version: string, fallback: bool, parts: seq<PartRecord>,
                      preDropped: seq<ContextItem>, st: State)
    ensures var plan := Conclude(request, profile, version, fallback, parts, preDropped, st);
      && plan.profile == profile
      && plan.selected == InContextOrder(Filter(IsSelected, st.items))
      && plan.dropped == Dropped(preDropped, st)
      && (IsReady(plan) ==> plan.ledger.compression == st.outcome.summaries && plan.reserves == st.reserves)
      && plan.ledger.levelsApplied == st.outcome.levelsApplied
  {
  }

  lemma CoresBalance(request: PlanRequest, items: seq<ContextItem>, start: seq<ContextItem>, st: State)
    requires Fresh(items) && start == Start(request, items) && Accounted(start, st)
    ensures var pre := Filter(NotSelected, PruneOptional(items, request.now));
      multiset(Cores(InContextOrder(Filter(IsSelected, st.items)))) + multiset(Cores(Dropped(pre, st)))
      == multiset(Cores(items)) + multiset(Cores(Added(start, st)))
  {
    var pre := Filter(NotSelected, PruneOptional(items, request.now));
    PruningConserves(items, request.now);
    LadderConserves(start, st);
    ConcludeConserves(pre, st);
    Balance(multiset(Cores(InContextOrder(Filter(IsSelected, st.items)))), multiset(Cores(Dropped(pre, st))),
            multiset(Cores(st.items)),
            multiset(Cores(pre)), multiset(Cores(start)), multiset(Cores(items)), multiset(Cores(Added(start, st))));
  }

  lemma Balance<T>(selected: multiset<T>, dropped: multiset<T>, after: multiset<T>, pre: multiset<T>,
                   start: multiset<T>, items: multiset<T>, added: multiset<T>)
    requires selected + dropped == after + pre && after == start + added && start + pre == items
    ensures selected + dropped == items + added
  {
  }

  lemma ConcludeConserved(request: PlanRequest, profile: Profile, items: seq<ContextItem>, plan: Plan,
                          start: seq<ContextItem>, st: State)
    requires Fresh(items) && start == Start(request, items) && Accounted(start, st)
    requires plan.selected == InContextOrder(Filter(IsSelected, st.items))
    requires plan.dropped == Dropped(Filter(NotSelected, PruneOptional(items, request.now)), st)
    requires IsReady(plan) ==> plan.ledger.compression == st.outcome.summaries
    ensures Conserves(plan, items, Added(start, st), st.outcome.summaries)
  {
    CoresBalance(request, items, start, st);
    AddedIsSelected(start, st);
    forall x | x in plan.dropped ensures IsAccountedDrop(st.outcome.summaries, x) {
      DroppedExplained(items, request.now, start, st, x);
    }
  }

  /** Nothing is lost and nothing appears: selected and dropped items together are the inputs, each once,
      plus at most one summary; and every dropped item says why, or is a source of that summary. */
  lemma Conservation(setup: Setup, request: PlanRequest, sink: OffloadSink, summarizer: Summarizer,
                     override: Option<Profile>, plan: Plan)
    returns (e: Estimator, added: seq<ContextItem>, summaries: seq<SummaryOutcome>)
    requires plan == PlanFor(setup, request, sink, summarizer, override) && ReachedCheck(plan)
    requires WellPosed(request)
    ensures Choose(setup).Some? && e == Choose(setup).value.0
    ensures Conserves(plan, EstimateAll(setup.hashing, e, request.inputs), added, summaries)
  {
    var fallback, items;
    e, fallback, items := PlanReached(setup, request, sink, summarizer, override, plan);
    var profile := plan.profile;
    AssembleReached(request, profile, e.version, fallback, items, sink, summarizer);
    ReducedKeeps(request, profile, items, sink, summarizer);
    var start, st := Start(request, items), Reduced(request, profile, items, sink, summarizer);
    ConcludeShape(request, profile, e.version, fallback, Parts(items, PARTS),
                  Filter(NotSelected, PruneOptional(items, request.now)), st);
    added, summaries := Added(start, st), st.outcome.summaries;
    ConcludeConserved(request, profile, items, plan, start, st);
  }

  // ------------------------------------------------------------- exact final budget

  lemma {:induction false} AllSplit(s: seq<ContextItem>)
    ensures Tokens(Every, s) == Tokens(IsMandatory, s) + Tokens(IsOptional, s)
  {
    if s != [] { AllSplit(s[1..]); }
  }

  lemma FoldExact(p: ContextItem -> bool, s: seq<ContextItem>)
    ensures FoldTokens(0, p, s) == Saturate(Tokens(p, s))
  {
    FoldSaturates(0, p, s);
  }

  lemma OrderedExact(ordered: seq<ContextItem>)
    ensures SatAdd(FoldTokens(0, IsMandatory, ordered), FoldTokens(0, IsOptional, ordered))
         == Saturate(Tokens(Every, ordered))
  {
    FoldExact(IsMandatory, ordered);
    FoldExact(IsOptional, ordered);
    AllSplit(ordered);
    SaturateAdds(Tokens(IsMandatory, ordered), Tokens(IsOptional, ordered));
  }

  lemma OrderedTokens(items: seq<ContextItem>)
    ensures Tokens(Every, InContextOrder(Filter(IsSelected, items))) == Tokens(IsSelected, items)
  {
    var kept := Filter(IsSelected, items);
    ContextOrderPermutes(kept);
    TokensForgetOrder(Every, InContextOrder(kept), kept);
    TokensOfKind(IsSelected, items);
  }

  /** The outcome of the final check. */
  predicate Checked(plan: Plan, size: nat, limit: u32) {
    && (IsReady(plan) <==> Saturate(size) <= limit)
    && (!IsReady(plan) ==> plan.unavailable.value.stage == DropsExhausted)
  }

  lemma DeliverCheck(request: PlanRequest, profile: Profile, version: string, fallback: bool, parts: seq<PartRecord>,
                     ordered: seq<ContextItem>, dropped: seq<ContextItem>, reserves: u32, outcome: Outcome)
    ensures Checked(Deliver(request, profile, version, fallback, parts, ordered, dropped, reserves, outcome),
                    Tokens(Every, ordered) + reserves, profile.hardLimitTokens)
  {
    OrderedExact(ordered);
    SaturateAdds(Tokens(Every, ordered), reserves);
  }

  lemma ConcludeDelivers(request: PlanRequest, profile: Profile, version: string, fallback: bool,
                         parts: seq<PartRecord>, preDropped: seq<ContextItem>, st: State)
    ensures Conclude(request, profile, version, fallback, parts, preDropped, st)
         == Deliver(request, profile, version, fallback, parts, InContextOrder(Filter(IsSelected, st.items)),
                    Dropped(preDropped, st), st.reserves, st.outcome)
  {
  }

  /** The final check compares the exact size with the hard limit, up to saturation. */
  lemma FinalCheck(request: PlanRequest, profile: Profile, version: string, fallback: bool, parts: seq<PartRecord>,
                   preDropped: seq<ContextItem>, st: State)
    ensures Checked(Conclude(request, profile, version, fallback, parts, preDropped, st),
                    Tokens(IsSelected, st.items) + st.reserves, profile.hardLimitTokens)
  {
    OrderedTokens(st.items);
    ConcludeDelivers(request, profile, version, fallback, parts, preDropped, st);
    DeliverCheck(request, profile, version, fallback, parts, InContextOrder(Filter(IsSelected, st.items)),
                 Dropped(preDropped, st), st.reserves, st.outcome);
  }

  /** What a plan that got as far as the final check is made of. */
  ghost predicate MadeOf(plan: Plan, st: State) {
    && plan.selected == InContextOrder(Filter(IsSelected, st.items))
    && (IsReady(plan) ==> plan.ledger.compression == st.outcome.summaries && plan.reserves == st.reserves)
    && plan.ledger.levelsApplied == st.outcome.levelsApplied
    && Checked(plan, Tokens(IsSelected, st.items) + st.reserves, plan.profile.hardLimitTokens)
  }

  lemma AssembledPlan(request: PlanRequest, profile: Profile, version: string, fallback: bool,
                      items: seq<ContextItem>, sink: OffloadSink, summarizer: Summarizer)
    requires ReachedCheck(Assemble(request, profile, version, fallback, items, sink, summarizer))
    ensures MadeOf(Assemble(request, profile, version, fallback, items, sink, summarizer),
                   Reduced(request, profile, items, sink, summarizer))
  {
    var parts, pre := Parts(items, PARTS), Filter(NotSelected, PruneOptional(items, request.now));
    var st := Reduced(request, profile, items, sink, summarizer);
    AssembleReached(request, profile, version, fallback, items, sink, summarizer);
    ConcludeShape(request, profile, version, fallback, parts, pre, st);
    FinalCheck(request, profile, version, fallback, parts, pre, st);
  }

  // ------------------------------------------------------------- main theorem: safety

  /** What a caller may rely on when a plan is ready. */
  ghost predicate Safe(plan: Plan, items: seq<ContextItem>) {
    && (forall x :: x in items && IsMandatory(x) ==> (x in plan.selected <==> !IsSource(plan.ledger.compression, x.id)))
    && Tokens(Every, plan.selected) + plan.reserves <= plan.profile.hardLimitTokens <= plan.profile.maxContextTokens
    && plan.reserves >= plan.profile.toolCallReserve + plan.profile.finalAnswerReserve
  }

  lemma InContext(items: seq<ContextItem>, x: ContextItem)
    ensures x in InContextOrder(Filter(IsSelected, items)) <==> x in items && x.selected
  {
    FilterMembers(IsSelected, items);
    ContextOrderPermutes(Filter(IsSelected, items));
  }

  /** Where a mandatory item can turn up after the ladder. */
  lemma OnlyInPlace(start: seq<ContextItem>, st: State, i: nat, j: nat)
    requires Accounted(start, st) && DistinctIds(start) && i < |start| && IsMandatory(start[i])
    requires j < |st.items| && st.items[j] == start[i]
    ensures j == i
  {
    if j < |start| {
      assert AccountedAs(st.outcome.summaries, start[j], st.items[j]);
      assert st.items[j].id == start[j].id;
    }
  }

  /** A mandatory item reaches the context exactly if no recorded summary claims to stand for it. */
  lemma MandatoryStays(start: seq<ContextItem>, st: State, x: ContextItem)
    requires Accounted(start, st) && DistinctIds(start) && x in start && IsMandatory(x) && x.selected
    ensures x in InContextOrder(Filter(IsSelected, st.items)) <==> !IsSource(st.outcome.summaries, x.id)
  {
    var i :| 0 <= i < |start| && start[i] == x;
    assert AccountedAs(st.outcome.summaries, start[i], st.items[i]);
    InContext(st.items, x);
    if x in st.items {
      var j :| 0 <= j < |st.items| && st.items[j] == x;
      OnlyInPlace(start, st, i, j);
    }
  }

  lemma ProtectedFits(profile: Profile)
    requires IsValid(profile)
    ensures ReservesTotal(profile) >= ProtectedReserves(profile)
    ensures ProtectedReserves(profile) == profile.toolCallReserve + profile.finalAnswerReserve
  {
    ValidMeans(profile);
  }

  lemma ConcludeSafe(profile: Profile, items: seq<ContextItem>, plan: Plan, start: seq<ContextItem>, st: State)
    requires IsValid(profile) && profile.hardLimitTokens < U32_MAX && plan.profile == profile
    requires IsReady(plan) && MadeOf(plan, st)
    requires Kept(6, start, ReservesTotal(profile), profile, st) && DistinctIds(start)
    requires forall x :: x in items && IsMandatory(x) ==> x in start && x.selected
    ensures Safe(plan, items)
  {
    OrderedTokens(st.items);
    forall x | x in items && IsMandatory(x)
      ensures x in plan.selected <==> !IsSource(plan.ledger.compression, x.id)
    {
      MandatoryStays(start, st, x);
    }
    ProtectedFits(profile);
    ValidMeans(profile);
  }

  /** Every ready plan is safe, for any artifact store and any summarizer: a mandatory input is in it, unchanged,
      exactly if no recorded summary claims to stand for it; its exact size with the reserves fits the hard limit and
      the window; and the answer and a tool call keep their reserves. */
  lemma ReadyPlanIsSafe(setup: Setup, request: PlanRequest, sink: OffloadSink, summarizer: Summarizer,
                        override: Option<Profile>, plan: Plan)
    requires plan == PlanFor(setup, request, sink, summarizer, override) && IsReady(plan)
    requires WellPosed(request)
    requires plan.profile.hardLimitTokens < U32_MAX
    ensures Choose(setup).Some?
    ensures Safe(plan, EstimateAll(setup.hashing, Choose(setup).value.0, request.inputs))
  {
    var e, fallback, items := PlanReached(setup, request, sink, summarizer, override, plan);
    var profile := plan.profile;
    AssembledPlan(request, profile, e.version, fallback, items, sink, summarizer);
    ReducedKeeps(request, profile, items, sink, summarizer);
    StartFacts(items, request.now);
    ConcludeSafe(profile, items, plan, Start(request, items), Reduced(request, profile, items, sink, summarizer));
  }

  lemma HonestReduction(request: PlanRequest, profile: Profile, items: seq<ContextItem>, sink: OffloadSink,
                        summarizer: Summarizer, x: ContextItem)
    requires Fresh(items) && Honest(summarizer) && x in items && IsMandatory(x)
    ensures !IsSource(Reduced(request, profile, items, sink, summarizer).outcome.summaries, x.id)
  {
    var start, m := Start(request, items), FoldParts(0, Parts(items, PARTS));
    StartFacts(items, request.now);
    ReduceCases(request, profile, m, start, sink, summarizer);
    if ClimbsLadder(request, profile, start) {
      HonestSparesMandatory(start, ReservesTotal(profile), LadderContext(request, profile, m), sink, summarizer, x);
    }
  }

  /** Behind a summarizer that names only what it was given, every mandatory input is in the plan, unchanged. */
  lemma HonestPlanKeepsMandatory(setup: Setup, request: PlanRequest, sink: OffloadSink, summarizer: Summarizer,
                                 override: Option<Profile>, plan: Plan)
    requires plan == PlanFor(setup, request, sink, summarizer, override) && IsReady(plan)
    requires WellPosed(request) && Honest(summarizer)
    ensures Choose(setup).Some?
    ensures forall x :: x in EstimateAll(setup.hashing, Choose(setup).value.0, request.inputs) && IsMandatory(x) ==>
              x in plan.selected
  {
    var e, fallback, items := PlanReached(setup, request, sink, summarizer, override, plan);
    AssembledPlan(request, plan.profile, e.version, fallback, items, sink, summarizer);
    ReducedKeeps(request, plan.profile, items, sink, summarizer);
    StartFacts(items, request.now);
    var start, st := Start(request, items), Reduced(request, plan.profile, items, sink, summarizer);
    forall x | x in items && IsMandatory(x) ensures x in plan.selected {
      HonestReduction(request, plan.profile, items, sink, summarizer, x);
      MandatoryStays(start, st, x);
    }
  }

  // -------------------------------------------------- main theorem: refusals are not premature

  lemma Room(tokens: nat, left: nat, goal: u32, reserves: u32, limit: u32)
    requires Saturate(tokens) <= goal && left <= reserves && SatAdd(goal, reserves) <= limit
    ensures Saturate(tokens + left) <= limit
  {
  }

  /** A goal that fits with the reserves leaves a selection that fits. */
  lemma GoalGivesRoom(items: seq<ContextItem>, left: u32, goal: u32, reserves: u32, limit: u32)
    requires GoalMet(items, goal) && left <= reserves && SatAdd(goal, reserves) <= limit
    ensures Saturate(Tokens(IsSelected, items) + left) <= limit
  {
    ContextExact(items);
    Room(Tokens(IsSelected, items), left, goal, reserves, limit);
  }

  lemma TargetFits(profile: Profile)
    requires IsValid(profile)
    ensures SatAdd(profile.targetTokens, ReservesTotal(profile)) <= profile.softLimitTokens < profile.hardLimitTokens
  {
  }

  /** Whether the ladder is asked at all. */
  predicate ClimbsLadder(request: PlanRequest, profile: Profile, start: seq<ContextItem>) {
    request.forceReduction || !WithinSoftLimit(profile, ContextTokens(start))
  }

  lemma ReduceCases(request: PlanRequest, profile: Profile, m: u32, start: seq<ContextItem>, sink: OffloadSink,
                    summarizer: Summarizer)
    ensures Reduce(request, profile, m, start, sink, summarizer)
         == if ClimbsLadder(request, profile, start)
            then RunLadder(start, ReservesTotal(profile), LadderContext(request, profile, m), sink, summarizer)
            else State(start, ReservesTotal(profile), NOTHING_DONE)
  {
  }

  /** A reduction that still does not fit ran the ladder and missed its goal. */
  lemma MisfitMissedGoal(request: PlanRequest, profile: Profile, m: u32, start: seq<ContextItem>, st: State)
    requires IsValid(profile) && st.reserves <= ReservesTotal(profile)
    requires SatAdd(m, ReservesTotal(profile)) <= profile.hardLimitTokens
    requires Saturate(Tokens(IsSelected, st.items) + st.reserves) > profile.hardLimitTokens
    ensures !GoalMet(st.items, LadderContext(request, profile, m).goal)
    ensures st == State(start, ReservesTotal(profile), NOTHING_DONE) ==> ClimbsLadder(request, profile, start)
  {
    TargetFits(profile);
    var goal, reserves := LadderContext(request, profile, m).goal, ReservesTotal(profile);
    if GoalMet(st.items, goal) { GoalGivesRoom(st.items, st.reserves, goal, reserves, profile.hardLimitTokens); }
    if WithinSoftLimit(profile, ContextTokens(start)) {
      GoalGivesRoom(start, reserves, ContextTokens(start), reserves, profile.hardLimitTokens);
    }
  }

  lemma LeftoversUndroppable(start: seq<ContextItem>, st: State, now: i64, cutoff: u8, x: ContextItem)
    requires |start| <= |st.items| && Exhausted(st.items, |start|, now, cutoff)
    requires x in InContextOrder(Filter(IsSelected, st.items)) && !IsMandatory(x) && x !in Added(start, st)
    ensures !Droppable(x, now, cutoff)
  {
    ContextOrderPermutes(Filter(IsSelected, st.items));
    FilterMembers(IsSelected, st.items);
    var i :| 0 <= i < |st.items| && st.items[i] == x;
    assert i < |start|;
  }

  /** What a refusal for exhausted drops guarantees about the run that led to it. */
  ghost predicate RanDry(plan: Plan, request: PlanRequest, start: seq<ContextItem>, st: State) {
    && |start| <= |st.items| <= |start| + 1
    && plan.selected == InContextOrder(Filter(IsSelected, st.items))
    && plan.ledger.levelsApplied == st.outcome.levelsApplied
    && (forall x :: x in st.items[|start|..] ==> x.kind.Summary?)
    && (forall x :: x in plan.selected && !IsMandatory(x) && x !in st.items[|start|..] ==>
          !Droppable(x, request.now, plan.profile.lowPriorityCutoff))
  }

  lemma DryLadder(plan: Plan, request: PlanRequest, start: seq<ContextItem>, st: State)
    requires Accounted(start, st) && plan.selected == InContextOrder(Filter(IsSelected, st.items))
    requires plan.ledger.levelsApplied == st.outcome.levelsApplied
    requires Exhausted(st.items, |start|, request.now, plan.profile.lowPriorityCutoff)
    ensures RanDry(plan, request, start, st)
  {
    AddedIsSelected(start, st);
    forall x | x in plan.selected && !IsMandatory(x) && x !in Added(start, st)
      ensures !Droppable(x, request.now, plan.profile.lowPriorityCutoff)
    {
      LeftoversUndroppable(start, st, request.now, plan.profile.lowPriorityCutoff, x);
    }
  }

  /** A `DropsExhausted` refusal is never premature: the ladder ran over what pruning left of the inputs, missed its
      goal at every level, and of the items still selected none but an added summary has expired, is below the cutoff,
      or is a completed tool result. */
  lemma RefusalNotPremature(setup: Setup, request: PlanRequest, sink: OffloadSink, summarizer: Summarizer,
                            override: Option<Profile>, plan: Plan)
    returns (items: seq<ContextItem>, ctx: Context)
    requires plan == PlanFor(setup, request, sink, summarizer, override)
    requires plan.unavailable.Some? && plan.unavailable.value.stage == DropsExhausted
    requires WellPosed(request)
    ensures Choose(setup).Some? && items == EstimateAll(setup.hashing, Choose(setup).value.0, request.inputs)
    ensures ctx == LadderContext(request, plan.profile, FoldParts(0, Parts(items, PARTS)))
    ensures var start, reserves := Start(request, items), ReservesTotal(plan.profile);
      && EveryLevelTried(State(start, reserves, NOTHING_DONE), ctx, sink, summarizer)
      && RanDry(plan, request, start, RunLadder(start, reserves, ctx, sink, summarizer))
  {
    var e, fallback;
    e, fallback, items := PlanReached(setup, request, sink, summarizer, override, plan);
    var profile, m := plan.profile, FoldParts(0, Parts(items, PARTS));
    AssembleReached(request, profile, e.version, fallback, items, sink, summarizer);
    AssembledPlan(request, profile, e.version, fallback, items, sink, summarizer);
    ctx := LadderContext(request, profile, m);
    var start, st := Start(request, items), Reduced(request, profile, items, sink, summarizer);
    StartFacts(items, request.now);
    ReducedKeeps(request, profile, items, sink, summarizer);
    ReduceCases(request, profile, m, start, sink, summarizer);
    Misfits(plan, st);
    MisfitMissedGoal(request, profile, m, start, st);
    ReducedDry(request, start, sink, summarizer, ctx, plan, st);
  }

  lemma Misfits(plan: Plan, st: State)
    requires !IsReady(plan) && MadeOf(plan, st)
    ensures Saturate(Tokens(IsSelected, st.items) + st.reserves) > plan.profile.hardLimitTokens
    ensures plan.selected == InContextOrder(Filter(IsSelected, st.items))
    ensures plan.ledger.levelsApplied == st.outcome.levelsApplied
  {
  }

  lemma ReducedDry(request: PlanRequest, start: seq<ContextItem>, sink: OffloadSink, summarizer: Summarizer,
                   ctx: Context, plan: Plan, st: State)
    requires Fresh(start) && ctx.now == request.now && ctx.profile == plan.profile
    requires st == RunLadder(start, ReservesTotal(plan.profile), ctx, sink, summarizer) && !GoalMet(st.items, ctx.goal)
    requires Accounted(start, st) && plan.selected == InContextOrder(Filter(IsSelected, st.items))
    requires plan.ledger.levelsApplied == st.outcome.levelsApplied
    ensures EveryLevelTried(State(start, ReservesTotal(plan.profile), NOTHING_DONE), ctx, sink, summarizer)
    ensures RanDry(plan, request, start, st)
  {
    MissedGoalExhausts(start, ReservesTotal(plan.profile), ctx, sink, summarizer);
    MissedThroughout(start, ReservesTotal(plan.profile), ctx, sink, summarizer);
    DryLadder(plan, request, start, st);
  }

  // ------------------------------------------------- when the mandatory part is refused

  /** Under a valid profile only the limit on the mandatory part can refuse it: the check against the hard limit never
      fires. */
  lemma OnlyMandatoryLimitRefuses(profile: Profile, items: seq<ContextItem>)
    requires IsValid(profile)
    ensures EarlyRefusal(profile, Parts(items, PARTS)).Some? <==>
              profile.absoluteMvcMaxLimit < U32_MAX && Tokens(IsMandatory, items) > profile.absoluteMvcMaxLimit
  {
    MinimumExact(items);
  }

  /** With an estimator and a valid profile, a plan is refused for its mandatory part exactly if that part exceeds its
      limit. */
  lemma MandatoryRefusedExactly(setup: Setup, request: PlanRequest, sink: OffloadSink, summarizer: Summarizer,
                                override: Option<Profile>, e: Estimator, fallback: bool)
    requires Choose(setup) == Some((e, fallback))
    requires IsValid(EffectiveProfile(BaseProfile(setup, request, override), fallback))
    ensures var plan, limit := PlanFor(setup, request, sink, summarizer, override),
                               EffectiveProfile(BaseProfile(setup, request, override), fallback).absoluteMvcMaxLimit;
      plan.unavailable.Some? && plan.unavailable.value.stage == MandatoryOverflow <==>
      limit < U32_MAX && Tokens(IsMandatory, EstimateAll(setup.hashing, e, request.inputs)) > limit
  {
    var profile := EffectiveProfile(BaseProfile(setup, request, override), fallback);
    var items := EstimateAll(setup.hashing, e, request.inputs);
    OnlyMandatoryLimitRefuses(profile, items);
    AssembledStage(request, profile, e.version, fallback, items, sink, summarizer);
  }

  lemma AssembledStage(request: PlanRequest, profile: Profile, version: string, fallback: bool, items: seq<ContextItem>,
                       sink: OffloadSink, summarizer: Summarizer)
    ensures var plan := Assemble(request, profile, version, fallback, items, sink, summarizer);
      plan.unavailable.Some? && plan.unavailable.value.stage == MandatoryOverflow <==>
      EarlyRefusal(profile, Parts(items, PARTS)).Some?
  {
    ConcludedStage(request, profile, version, fallback, Parts(items, PARTS),
                   Filter(NotSelected, PruneOptional(items, request.now)),
                   Reduced(request, profile, items, sink, summarizer));
    EarlyStage(profile, Parts(items, PARTS));
  }

  lemma ConcludedStage(request: PlanRequest, profile: Profile, version: string, fallback: bool, parts: seq<PartRecord>,
                       pre: seq<ContextItem>, st: State)
    ensures var plan := Conclude(request, profile, version, fallback, parts, pre, st);
      plan.unavailable.Some? ==> plan.unavailable.value.stage == DropsExhausted
  {
  }
}
