/**
 Exactly when a summary lets the order of the inputs show in the plan.
 */
module SummaryOrder {
  import opened Machine
  import opened Order
  import opened Items
  import opened Profiles
  import opened Pruning
  import opened Budgeting
  import opened Ladder
  import opened LadderFacts
  import opened LadderOrder
  import LadderRuns
  import opened Planner
  import opened PlannerFacts
  import opened PlannerOrder
  import opened PlannerLimit

  // ----------------------------------------------------------------- what a summary copies

  /** What a summary item takes from the source it is made from. */
  function Imprint(x: ContextItem): ContextItem {
    x.(id := "", kind := Summary, estimatedTokens := 0, selected := true, dropReason := None, pinned := false)
  }

  lemma ImprintShows(x: ContextItem, y: ContextItem, summary: SummaryOutcome)
    ensures SummaryItem(x, summary) == SummaryItem(y, summary) <==> Imprint(x) == Imprint(y)
  {
  }

  /** The summarizer answers alike in whatever order it is given its candidates. */
  ghost predicate Unordered(s: Summarizer) {
    forall cs, ds :: SameItems(cs, ds) ==> s.summarize(cs) == s.summarize(ds)
  }

  function Compressible(st: State): seq<ContextItem> {
    Filter(IsCompressible, st.items)
  }

  /** L5 takes the summary it is offered. */
  predicate Accepts(st: State, summarizer: Summarizer) {
    var cs := Compressible(st);
    && summarizer.available && |cs| >= 2 && summarizer.summarize(cs).Ok?
    && var summary := summarizer.summarize(cs).value;
       summary.summaryTokens < FoldTokens(0, Among(summary.sourceIds), cs)
  }

  function Proposed(st: State, summarizer: Summarizer): SummaryOutcome
    requires Accepts(st, summarizer)
  {
    summarizer.summarize(Compressible(st)).value
  }

  ghost predicate IsNamed(st: State, summarizer: Summarizer, x: ContextItem)
    requires Accepts(st, summarizer)
  {
    x in Compressible(st) && x.id in Proposed(st, summarizer).sourceIds
  }

  /** An accepted summary names two sources that would leave different marks on it. */
  ghost predicate Disputed(st: State, summarizer: Summarizer) {
    && Accepts(st, summarizer)
    && exists x, y :: IsNamed(st, summarizer, x) && IsNamed(st, summarizer, y) && Imprint(x) != Imprint(y)
  }

  /** An accepted summary stands for two of the items it was offered for. */
  ghost predicate Merges(st: State, summarizer: Summarizer) {
    Accepts(st, summarizer) && exists x, y :: IsNamed(st, summarizer, x) && IsNamed(st, summarizer, y) && x != y
  }

  ghost predicate ContentsDiffer(items: seq<ContextItem>) {
    forall i, j :: 0 <= i < j < |items| && IsOptionalSelected(items[i]) && IsOptionalSelected(items[j]) ==>
      items[i].contentHash != items[j].contentHash
  }

  /** Among different contents any two sources are in dispute, because a summary copies the content hash. */
  lemma MergesDisputed(st: State, summarizer: Summarizer)
    requires ContentsDiffer(st.items)
    ensures Merges(st, summarizer) <==> Disputed(st, summarizer)
  {
    FilterMembers(IsCompressible, st.items);
    if Merges(st, summarizer) {
      var x, y :| IsNamed(st, summarizer, x) && IsNamed(st, summarizer, y) && x != y;
      var i :| 0 <= i < |st.items| && st.items[i] == x;
      var j :| 0 <= j < |st.items| && st.items[j] == y;
      assert Imprint(x).contentHash != Imprint(y).contentHash;
    }
  }

  // --------------------------------------------------------------------------------- L5

  function FirstNamed(st: State, summarizer: Summarizer): Option<ContextItem>
    requires Accepts(st, summarizer)
  {
    Template(Compressible(st), Proposed(st, summarizer).sourceIds)
  }

  /** An accepted summary is made from one of its sources. */
  lemma AcceptedHasSource(st: State, summarizer: Summarizer)
    requires Accepts(st, summarizer)
    ensures FirstNamed(st, summarizer).Some? && IsNamed(st, summarizer, FirstNamed(st, summarizer).value)
  {
    var cs, ids := Compressible(st), Proposed(st, summarizer).sourceIds;
    FoldSaturates(0, Among(ids), cs);
    TemplateExists(cs, ids);
  }

  lemma OfferForgetsOrder(a: State, b: State, summarizer: Summarizer)
    requires SameState(a, b) && Unordered(summarizer)
    ensures summarizer.summarize(Compressible(a)) == summarizer.summarize(Compressible(b))
    ensures Accepts(a, summarizer) <==> Accepts(b, summarizer)
    ensures multiset(Compressible(a)) == multiset(Compressible(b)) && |Compressible(a)| == |Compressible(b)|
    ensures Accepts(a, summarizer) ==> Proposed(a, summarizer) == Proposed(b, summarizer)
  {
    var ca, cb := Compressible(a), Compressible(b);
    FilterKeepsSame(IsCompressible, a.items, b.items);
    Members(ca, cb);
    assert summarizer.summarize(ca) == summarizer.summarize(cb);
    if summarizer.summarize(ca).Ok? {
      var among := Among(summarizer.summarize(ca).value.sourceIds);
      FoldSaturates(0, among, ca);
      FoldSaturates(0, among, cb);
      TokensForgetOrder(among, ca, cb);
    }
  }

  lemma NamedForgetsOrder(a: State, b: State, summarizer: Summarizer, x: ContextItem)
    requires SameState(a, b) && Unordered(summarizer) && Accepts(a, summarizer) && Accepts(b, summarizer)
    ensures IsNamed(a, summarizer, x) <==> IsNamed(b, summarizer, x)
  {
    OfferForgetsOrder(a, b, summarizer);
    Members(Compressible(a), Compressible(b));
  }

  lemma AbsorbKeepsSame(a: seq<ContextItem>, b: seq<ContextItem>, ids: seq<string>)
    requires SameItems(a, b)
    ensures SameItems(AbsorbAll(a, ids), AbsorbAll(b, ids))
  {
    AbsorbAllIsMap(a, ids);
    AbsorbAllIsMap(b, ids);
    MapPermutes(AbsorbIf(ids), a, b);
    MapDistinct(AbsorbIf(ids), a);
    MapDistinct(AbsorbIf(ids), b);
  }

  /** What an accepted summary makes of the items. */
  lemma L5Accepted(st: State, summarizer: Summarizer)
    requires Accepts(st, summarizer)
    ensures FirstNamed(st, summarizer).Some?
    ensures var summary := Proposed(st, summarizer);
      L5(st, summarizer) == st.(
        items := AbsorbAll(st.items, summary.sourceIds) + [SummaryItem(FirstNamed(st, summarizer).value, summary)],
        outcome := st.outcome.(summaries := st.outcome.summaries + [summary]))
  {
    AcceptedHasSource(st, summarizer);
  }

  /** Without an accepted summary L5 leaves the items alone and says why. */
  lemma L5Declined(a: State, b: State, summarizer: Summarizer)
    requires SameState(a, b) && Unordered(summarizer) && !Accepts(a, summarizer)
    ensures SameState(L5(a, summarizer), L5(b, summarizer))
    ensures L5(a, summarizer).items == a.items && L5(b, summarizer).items == b.items
  {
    OfferForgetsOrder(a, b, summarizer);
  }

  function Appended(st: State, summarizer: Summarizer): seq<ContextItem> {
    if Accepts(st, summarizer) && FirstNamed(st, summarizer).Some?
    then [SummaryItem(FirstNamed(st, summarizer).value, Proposed(st, summarizer))] else []
  }

  lemma AppendedAlike(a: State, b: State, summarizer: Summarizer)
    requires SameState(a, b) && Unordered(summarizer) && Accepts(a, summarizer) && !Disputed(a, summarizer)
    ensures Appended(a, summarizer) == Appended(b, summarizer)
  {
    OfferForgetsOrder(a, b, summarizer);
    AcceptedHasSource(a, summarizer);
    AcceptedHasSource(b, summarizer);
    NamedForgetsOrder(a, b, summarizer, FirstNamed(b, summarizer).value);
    ImprintShows(FirstNamed(a, summarizer).value, FirstNamed(b, summarizer).value, Proposed(a, summarizer));
  }

  lemma SplitTail(s: seq<ContextItem>, tail: seq<ContextItem>)
    ensures (s + tail)[..|s + tail| - |tail|] == s && (s + tail)[|s + tail| - |tail|..] == tail
  {
  }

  /** Undisputed, L5 works alike on two arrangements. */
  lemma L5ForgetsOrder(a: State, b: State, summarizer: Summarizer)
    requires SameState(a, b) && Unordered(summarizer) && !Disputed(a, summarizer)
    ensures Alike(L5(a, summarizer), L5(b, summarizer), Appended(a, summarizer))
  {
    OfferForgetsOrder(a, b, summarizer);
    if Accepts(a, summarizer) {
      L5Accepted(a, summarizer);
      L5Accepted(b, summarizer);
      AppendedAlike(a, b, summarizer);
      var ids, tail := Proposed(a, summarizer).sourceIds, Appended(a, summarizer);
      AbsorbKeepsSame(a.items, b.items, ids);
      SplitTail(AbsorbAll(a.items, ids), tail);
      SplitTail(AbsorbAll(b.items, ids), tail);
    } else {
      L5Declined(a, b, summarizer);
      SameIsAlike(L5(a, summarizer), L5(b, summarizer));
    }
  }

  // ----------------------------------------------------------------------- the last levels

  lemma AlikeTotals(a: State, b: State, tail: seq<ContextItem>)
    requires Alike(a, b, tail)
    ensures multiset(a.items) == multiset(b.items)
    ensures ContextTokens(a.items) == ContextTokens(b.items)
    ensures LadderTotal(a.items, a.reserves) == LadderTotal(b.items, b.reserves)
  {
    AlikePermutes(a, b, tail);
    TotalsForgetOrder(a.items, b.items, a.reserves);
  }

  function Mark(level: LadderLevel, before: State, after: State): State {
    if LadderTotal(after.items, after.reserves) < LadderTotal(before.items, before.reserves)
    then after.(outcome := after.outcome.(levelsApplied := after.outcome.levelsApplied + [level])) else after
  }

  lemma RecordAlike(a: State, b: State, tail: seq<ContextItem>, outcome: Outcome)
    requires Alike(a, b, tail)
    ensures Alike(a.(outcome := outcome), b.(outcome := outcome), tail)
  {
  }

  lemma MarkAlike(level: LadderLevel, a: State, b: State, a': State, b': State, tail: seq<ContextItem>)
    requires LadderTotal(a.items, a.reserves) == LadderTotal(b.items, b.reserves) && Alike(a', b', tail)
    ensures Alike(Mark(level, a, a'), Mark(level, b, b'), tail)
  {
    AlikeTotals(a', b', tail);
    RecordAlike(a', b', tail, a'.outcome.(levelsApplied := a'.outcome.levelsApplied + [level]));
  }

  lemma CompressionAlike(a: State, b: State, ctx: Context, sink: OffloadSink, summarizer: Summarizer)
    requires SameState(a, b) && Unordered(summarizer) && (GoalMet(a.items, ctx.goal) || !Disputed(a, summarizer))
    ensures Alike(Next(CompressHistory, a, ctx, sink, summarizer), Next(CompressHistory, b, ctx, sink, summarizer),
                  if GoalMet(a.items, ctx.goal) then [] else Appended(a, summarizer))
  {
    TotalsForgetOrder(a.items, b.items, a.reserves);
    NextCompress(a, ctx, sink, summarizer);
    NextCompress(b, ctx, sink, summarizer);
    if GoalMet(a.items, ctx.goal) {
      SameIsAlike(a, b);
    } else {
      L5ForgetsOrder(a, b, summarizer);
      MarkAlike(CompressHistory, a, b, L5(a, summarizer), L5(b, summarizer), Appended(a, summarizer));
    }
  }

  lemma NextCompress(st: State, ctx: Context, sink: OffloadSink, summarizer: Summarizer)
    ensures Next(CompressHistory, st, ctx, sink, summarizer)
         == if GoalMet(st.items, ctx.goal) then st else Mark(CompressHistory, st, L5(st, summarizer))
  {
  }

  lemma L6Alike(a: State, b: State, p: Profile, tail: seq<ContextItem>)
    requires Alike(a, b, tail)
    ensures Alike(L6(a, p), L6(b, p), tail)
  {
    L6KeepsItems(a, p);
    L6KeepsItems(b, p);
    L6Same(a, b, p);
    TailKept(a, b, L6(a, p), L6(b, p), tail);
  }

  lemma L6KeepsItems(st: State, p: Profile)
    ensures L6(st, p).items == st.items
  {
  }

  lemma L6Same(a: State, b: State, p: Profile)
    requires a.reserves == b.reserves && a.outcome == b.outcome
    ensures L6(a, p).reserves == L6(b, p).reserves && L6(a, p).outcome == L6(b, p).outcome
  {
  }

  lemma TailKept(a: State, b: State, a': State, b': State, tail: seq<ContextItem>)
    requires Alike(a, b, tail) && a'.items == a.items && b'.items == b.items
    requires a'.reserves == b'.reserves && a'.outcome == b'.outcome
    ensures Alike(a', b', tail)
  {
  }

  lemma ReleaseAlike(a: State, b: State, ctx: Context, sink: OffloadSink, summarizer: Summarizer,
                     tail: seq<ContextItem>)
    requires Alike(a, b, tail)
    ensures Alike(Next(ReleaseOptionalReserves, a, ctx, sink, summarizer),
                  Next(ReleaseOptionalReserves, b, ctx, sink, summarizer), tail)
  {
    AlikeTotals(a, b, tail);
    NextRelease(a, ctx, sink, summarizer);
    NextRelease(b, ctx, sink, summarizer);
    if !GoalMet(a.items, ctx.goal) && ctx.allowReserveRelease {
      L6Alike(a, b, ctx.profile, tail);
      MarkAlike(ReleaseOptionalReserves, a, b, L6(a, ctx.profile), L6(b, ctx.profile), tail);
    }
  }

  lemma NextRelease(st: State, ctx: Context, sink: OffloadSink, summarizer: Summarizer)
    ensures Next(ReleaseOptionalReserves, st, ctx, sink, summarizer)
         == if GoalMet(st.items, ctx.goal) || !ctx.allowReserveRelease then st
            else Mark(ReleaseOptionalReserves, st, L6(st, ctx.profile))
  {
  }

  // ----------------------------------------------------------------------- the whole ladder

  lemma {:induction false} EarlyStagesForgetOrder(n: nat, a: State, b: State, ctx: Context, sink: OffloadSink,
      summarizer: Summarizer)
    requires n <= 4 && SameState(a, b)
    ensures SameState(LadderRuns.Stage(n, a, ctx, sink, summarizer), LadderRuns.Stage(n, b, ctx, sink, summarizer))
  {
    if n > 0 {
      EarlyStagesForgetOrder(n - 1, a, b, ctx, sink, summarizer);
      EarlyNextForgetsOrder(n - 1, LadderRuns.Stage(n - 1, a, ctx, sink, summarizer),
                            LadderRuns.Stage(n - 1, b, ctx, sink, summarizer), ctx, sink, summarizer);
    }
  }

  lemma EarlyNextForgetsOrder(n: nat, a: State, b: State, ctx: Context, sink: OffloadSink, summarizer: Summarizer)
    requires n < 4 && SameState(a, b)
    ensures SameState(Next(LEVELS[n], a, ctx, sink, summarizer), Next(LEVELS[n], b, ctx, sink, summarizer))
  {
    NextForgetsOrder(LEVELS[n], a, b, ctx, sink, summarizer);
  }

  lemma LastStages(items: seq<ContextItem>, reserves: u32, ctx: Context, sink: OffloadSink, summarizer: Summarizer)
    ensures var s4 := LadderRuns.Stage(4, State(items, reserves, NOTHING_DONE), ctx, sink, summarizer);
      RunLadder(items, reserves, ctx, sink, summarizer)
      == Next(ReleaseOptionalReserves, Next(CompressHistory, s4, ctx, sink, summarizer), ctx, sink, summarizer)
  {
    var st := State(items, reserves, NOTHING_DONE);
    LadderRuns.RunIsLastStage(items, reserves, ctx, sink, summarizer);
    assert LEVELS[5] == ReleaseOptionalReserves && LEVELS[4] == CompressHistory;
    assert LadderRuns.Stage(6, st, ctx, sink, summarizer)
        == Next(LEVELS[5], LadderRuns.Stage(5, st, ctx, sink, summarizer), ctx, sink, summarizer);
    assert LadderRuns.Stage(5, st, ctx, sink, summarizer)
        == Next(LEVELS[4], LadderRuns.Stage(4, st, ctx, sink, summarizer), ctx, sink, summarizer);
  }

  function Tail(s4: State, ctx: Context, summarizer: Summarizer): seq<ContextItem> {
    if GoalMet(s4.items, ctx.goal) then [] else Appended(s4, summarizer)
  }

  lemma LadderAlike(a: seq<ContextItem>, b: seq<ContextItem>, reserves: u32, ctx: Context, sink: OffloadSink,
                    summarizer: Summarizer)
    requires SameItems(a, b) && Unordered(summarizer)
    requires var s4 := LadderRuns.Stage(4, State(a, reserves, NOTHING_DONE), ctx, sink, summarizer);
      GoalMet(s4.items, ctx.goal) || !Disputed(s4, summarizer)
    ensures var s4 := LadderRuns.Stage(4, State(a, reserves, NOTHING_DONE), ctx, sink, summarizer);
      Alike(RunLadder(a, reserves, ctx, sink, summarizer), RunLadder(b, reserves, ctx, sink, summarizer),
            Tail(s4, ctx, summarizer))
  {
    var a0, b0 := State(a, reserves, NOTHING_DONE), State(b, reserves, NOTHING_DONE);
    EarlyStagesForgetOrder(4, a0, b0, ctx, sink, summarizer);
    LastStages(a, reserves, ctx, sink, summarizer);
    LastStages(b, reserves, ctx, sink, summarizer);
    var a4, b4 := LadderRuns.Stage(4, a0, ctx, sink, summarizer), LadderRuns.Stage(4, b0, ctx, sink, summarizer);
    CompressionAlike(a4, b4, ctx, sink, summarizer);
    ReleaseAlike(Next(CompressHistory, a4, ctx, sink, summarizer), Next(CompressHistory, b4, ctx, sink, summarizer),
                 ctx, sink, summarizer, Tail(a4, ctx, summarizer));
  }

  // ------------------------------------------------------------------ the fifth level of a plan

  /** The state after the first four levels. */
  ghost function Fourth(request: PlanRequest, profile: Profile, m: u32, start: seq<ContextItem>, sink: OffloadSink,
                        summarizer: Summarizer): State {
    LadderRuns.Stage(4, State(start, ReservesTotal(profile), NOTHING_DONE), LadderContext(request, profile, m), sink,
                     summarizer)
  }

  /** The state on which the ladder tries to compress, if it gets that far. */
  ghost function FifthFrom(request: PlanRequest, profile: Profile, m: u32, start: seq<ContextItem>, sink: OffloadSink,
                           summarizer: Summarizer): Option<State> {
    var s4 := Fourth(request, profile, m, start, sink, summarizer);
    if ClimbsLadder(request, profile, start) && !GoalMet(s4.items, LadderContext(request, profile, m).goal)
        then Some(s4) else None
  }

  ghost function Fifth(request: PlanRequest, profile: Profile, items: seq<ContextItem>, sink: OffloadSink,
                       summarizer: Summarizer): Option<State> {
    if EarlyRefusal(profile, Parts(items, PARTS)).Some? then None
    else FifthFrom(request, profile, FoldParts(0, Parts(items, PARTS)), Start(request, items), sink, summarizer)
  }

  ghost predicate Settles(request: PlanRequest, profile: Profile, items: seq<ContextItem>, sink: OffloadSink,
                          summarizer: Summarizer) {
    var fifth := Fifth(request, profile, items, sink, summarizer);
    fifth.Some? ==> !Disputed(fifth.value, summarizer)
  }

  lemma ReduceAlike(request: PlanRequest, other: PlanRequest, profile: Profile, m: u32, sa: seq<ContextItem>,
                    sb: seq<ContextItem>, sink: OffloadSink, summarizer: Summarizer) returns (tail: seq<ContextItem>)
    requires other == request.(inputs := other.inputs) && SameItems(sa, sb) && Unordered(summarizer)
    requires var fifth := FifthFrom(request, profile, m, sa, sink, summarizer); fifth.Some? ==>
        !Disputed(fifth.value, summarizer)
    ensures Alike(Reduce(request, profile, m, sa, sink, summarizer), Reduce(other, profile, m, sb, sink, summarizer),
                  tail)
  {
    ReduceCases(request, profile, m, sa, sink, summarizer);
    ReduceCases(other, profile, m, sb, sink, summarizer);
    TotalsForgetOrder(sa, sb, 0);
    var ctx, reserves := LadderContext(request, profile, m), ReservesTotal(profile);
    if ClimbsLadder(request, profile, sa) {
      LadderAlike(sa, sb, reserves, ctx, sink, summarizer);
      tail := Tail(Fourth(request, profile, m, sa, sink, summarizer), ctx, summarizer);
    } else {
      SameIsAlike(State(sa, reserves, NOTHING_DONE), State(sb, reserves, NOTHING_DONE));
      tail := [];
    }
  }

  lemma ReducedAlike(request: PlanRequest, other: PlanRequest, profile: Profile, a: seq<ContextItem>,
                     b: seq<ContextItem>, sink: OffloadSink, summarizer: Summarizer) returns (tail: seq<ContextItem>)
    requires other == request.(inputs := other.inputs) && SameItems(a, b) && Unordered(summarizer)
    requires EarlyRefusal(profile, Parts(a, PARTS)).None? && Settles(request, profile, a, sink, summarizer)
    ensures Alike(Reduced(request, profile, a, sink, summarizer), Reduced(other, profile, b, sink, summarizer), tail)
  {
    StartsForgetOrder(request, other, a, b);
    SettlesFrom(request, profile, a, sink, summarizer);
    tail := ReduceAlike(request, other, profile, FoldParts(0, Parts(a, PARTS)), Start(request, a), Start(other, b),
                        sink, summarizer);
  }

  lemma SettlesFrom(request: PlanRequest, profile: Profile, a: seq<ContextItem>, sink: OffloadSink,
                    summarizer: Summarizer)
    requires EarlyRefusal(profile, Parts(a, PARTS)).None? && Settles(request, profile, a, sink, summarizer)
    ensures var fifth := FifthFrom(request, profile, FoldParts(0, Parts(a, PARTS)), Start(request, a), sink,
                                   summarizer);
      fifth.Some? ==> !Disputed(fifth.value, summarizer)
  {
    FifthUnfolds(request, profile, a, sink, summarizer);
  }

  lemma FifthUnfolds(request: PlanRequest, profile: Profile, a: seq<ContextItem>, sink: OffloadSink,
                     summarizer: Summarizer)
    requires EarlyRefusal(profile, Parts(a, PARTS)).None?
    ensures Fifth(request, profile, a, sink, summarizer)
         == FifthFrom(request, profile, FoldParts(0, Parts(a, PARTS)), Start(request, a), sink, summarizer)
  {
  }

  lemma AssembleSettled(request: PlanRequest, other: PlanRequest, profile: Profile, version: string, fallback: bool,
                        a: seq<ContextItem>, b: seq<ContextItem>, sink: OffloadSink, summarizer: Summarizer)
    requires other == request.(inputs := other.inputs) && SameItems(a, b) && Unordered(summarizer)
    requires Settles(request, profile, a, sink, summarizer)
    ensures SamePlan(Assemble(request, profile, version, fallback, a, sink, summarizer),
                     Assemble(other, profile, version, fallback, b, sink, summarizer))
  {
    var tail := [];
    if EarlyRefusal(profile, Parts(a, PARTS)).None? {
      tail := ReducedAlike(request, other, profile, a, b, sink, summarizer);
    }
    AssembleForgetsOrder(request, other, profile, version, fallback, a, b, sink, summarizer, tail);
  }

  // --------------------------------------------------------------------- the other direction

  lemma DropsKeepIds(a: seq<ContextItem>, b: seq<ContextItem>)
    requires DistinctIds(a) && (OnlyDrops(a, b) || OnlyOffloads(a, b))
    ensures DistinctIds(b) && Ids(b) == Ids(a)
  {
    forall i | 0 <= i < |a| ensures b[i].id == a[i].id {}
  }

  lemma NextKeepsIds(n: nat, st: State, ctx: Context, sink: OffloadSink, summarizer: Summarizer)
    requires n < 4 && DistinctIds(st.items)
    ensures var s := Next(LEVELS[n], st, ctx, sink, summarizer); DistinctIds(s.items) && Ids(s.items) == Ids(st.items)
  {
    LadderRuns.EarlyLevelDrops(n, st, ctx, sink, summarizer);
    DropsKeepIds(st.items, Apply(LEVELS[n], st, ctx, sink, summarizer).items);
  }

  /** The first four levels keep every item in its place. */
  lemma {:induction false} EarlyStagesKeepIds(n: nat, st: State, ctx: Context, sink: OffloadSink,
          summarizer: Summarizer)
    requires n <= 4 && DistinctIds(st.items)
    ensures var s := LadderRuns.Stage(n, st, ctx, sink, summarizer);
      DistinctIds(s.items) && Ids(s.items) == Ids(st.items)
  {
    if n > 0 {
      EarlyStagesKeepIds(n - 1, st, ctx, sink, summarizer);
      NextKeepsIds(n - 1, LadderRuns.Stage(n - 1, st, ctx, sink, summarizer), ctx, sink, summarizer);
    }
  }

  lemma DropsKeepContents(a: seq<ContextItem>, b: seq<ContextItem>)
    requires ContentsDiffer(a) && (OnlyDrops(a, b) || OnlyOffloads(a, b))
    ensures ContentsDiffer(b)
  {
    forall i | 0 <= i < |b| && IsOptionalSelected(b[i])
      ensures IsOptionalSelected(a[i]) && a[i].contentHash == b[i].contentHash {}
  }

  lemma FirstStageContents(st: State, ctx: Context, sink: OffloadSink, summarizer: Summarizer)
    requires DistinctIds(st.items) && !GoalMet(st.items, ctx.goal)
    requires !GoalMet(LadderRuns.Stage(1, st, ctx, sink, summarizer).items, ctx.goal)
    ensures ContentsDiffer(LadderRuns.Stage(1, st, ctx, sink, summarizer).items)
  {
    LadderRuns.DropStage(1, st, ctx, sink, summarizer);
    var after := L1(st.items, ctx.now, ctx.goal);
    L1Leaves(st.items, ctx.now, ctx.goal);
    EarlyStagesKeepIds(1, st, ctx, sink, summarizer);
    var left := Filter(IsOptionalSelected, after);
    FilterMembers(IsOptionalSelected, after);
    forall i, j | 0 <= i < j < |after| && IsOptionalSelected(after[i]) && IsOptionalSelected(after[j])
      ensures after[i].contentHash != after[j].contentHash
    {
      assert after[i] in left && after[j] in left;
    }
  }

  /** The goal is missed before and after each of the first `n` levels. */
  ghost predicate MissedUpTo(n: nat, st: State, ctx: Context, sink: OffloadSink, summarizer: Summarizer)
    requires n <= 4
  {
    forall k :: 0 <= k <= n ==> !GoalMet(LadderRuns.Stage(k, st, ctx, sink, summarizer).items, ctx.goal)
  }

  lemma MissedBefore(n: nat, st: State, ctx: Context, sink: OffloadSink, summarizer: Summarizer)
    requires n <= 4 && !GoalMet(LadderRuns.Stage(n, st, ctx, sink, summarizer).items, ctx.goal)
    ensures MissedUpTo(n, st, ctx, sink, summarizer)
  {
    forall k | 0 <= k <= n ensures !GoalMet(LadderRuns.Stage(k, st, ctx, sink, summarizer).items, ctx.goal) {
      LadderRuns.NeverMet(k, n, st, ctx, sink, summarizer);
    }
  }

  /** While the goal is missed, the optional items from the second level on differ in their contents. */
  lemma {:induction false} StageContents(n: nat, st: State, ctx: Context, sink: OffloadSink, summarizer: Summarizer)
    requires 1 <= n <= 4 && DistinctIds(st.items) && MissedUpTo(n, st, ctx, sink, summarizer)
    ensures ContentsDiffer(LadderRuns.Stage(n, st, ctx, sink, summarizer).items)
  {
    if n == 1 {
      assert LadderRuns.Stage(0, st, ctx, sink, summarizer) == st;
      FirstStageContents(st, ctx, sink, summarizer);
    } else {
      StageContents(n - 1, st, ctx, sink, summarizer);
      EarlyStagesKeepIds(n - 1, st, ctx, sink, summarizer);
      NextContents(n - 1, LadderRuns.Stage(n - 1, st, ctx, sink, summarizer), ctx, sink, summarizer);
    }
  }

  lemma NextContents(n: nat, st: State, ctx: Context, sink: OffloadSink, summarizer: Summarizer)
    requires n < 4 && DistinctIds(st.items) && ContentsDiffer(st.items) && !GoalMet(st.items, ctx.goal)
    ensures ContentsDiffer(Next(LEVELS[n], st, ctx, sink, summarizer).items)
  {
    LadderRuns.EarlyLevelDrops(n, st, ctx, sink, summarizer);
    LadderRuns.NextItems(LEVELS[n], st, ctx, sink, summarizer);
    DropsKeepContents(st.items, Apply(LEVELS[n], st, ctx, sink, summarizer).items);
  }

  /** On the fifth level of any plan a summary is in dispute exactly if it merges two items. */
  lemma FifthDisputed(request: PlanRequest, profile: Profile, items: seq<ContextItem>, sink: OffloadSink,
                      summarizer: Summarizer)
    requires LadderRuns.Fresh(items) && Fifth(request, profile, items, sink, summarizer).Some?
    ensures var st := Fifth(request, profile, items, sink, summarizer).value;
      Merges(st, summarizer) <==> Disputed(st, summarizer)
  {
    StartFacts(items, request.now);
    var m, start := FoldParts(0, Parts(items, PARTS)), Start(request, items);
    var st, ctx := State(start, ReservesTotal(profile), NOTHING_DONE), LadderContext(request, profile, m);
    MissedBefore(4, st, ctx, sink, summarizer);
    StageContents(4, st, ctx, sink, summarizer);
    MergesDisputed(Fourth(request, profile, m, start, sink, summarizer), summarizer);
  }

  /** One of the sources of a disputed summary leaves another mark than the one it was made from. */
  lemma DisputedRival(st: State, summarizer: Summarizer) returns (z: ContextItem)
    requires Disputed(st, summarizer)
    ensures IsNamed(st, summarizer, z) && FirstNamed(st, summarizer).Some?
    ensures Imprint(z) != Imprint(FirstNamed(st, summarizer).value)
  {
    AcceptedHasSource(st, summarizer);
    var x, y :| IsNamed(st, summarizer, x) && IsNamed(st, summarizer, y) && Imprint(x) != Imprint(y);
    z := if Imprint(x) != Imprint(FirstNamed(st, summarizer).value) then x else y;
  }

  /** A source that stands first is the one the summary is made from. */
  lemma FirstIsTemplate(st: State, summarizer: Summarizer, z: ContextItem)
    requires Accepts(st, summarizer) && IsNamed(st, summarizer, z) && st.items != [] && st.items[0] == z
    ensures FirstNamed(st, summarizer) == Some(z)
  {
    FilterMembers(IsCompressible, st.items);
    assert Compressible(st)[0] == z;
  }

  lemma BagDiffers(a: seq<ContextItem>, b: seq<ContextItem>, x: ContextItem, y: ContextItem)
    requires multiset(a) == multiset(b) && x != y
    ensures multiset(a + [x]) != multiset(b + [y])
  {
    assert multiset(a + [x])[x] == multiset(a)[x] + 1;
    assert multiset(b + [y])[x] == multiset(b)[x];
  }

  lemma SelectedAppended(s: seq<ContextItem>, x: ContextItem)
    requires x.selected
    ensures Filter(IsSelected, s + [x]) == Filter(IsSelected, s) + [x]
  {
    FilterConcat(IsSelected, s, [x]);
    assert [x][1..] == [];
  }

  /** Contexts in which only the appended item differs are different. */
  lemma ContextDiffers(a: seq<ContextItem>, b: seq<ContextItem>, x: ContextItem, y: ContextItem)
    requires multiset(a) == multiset(b) && x != y && x.selected && y.selected
    ensures InContextOrder(Filter(IsSelected, a + [x])) != InContextOrder(Filter(IsSelected, b + [y]))
  {
    SelectedAppended(a, x);
    SelectedAppended(b, y);
    FilterPermutes(IsSelected, a, b);
    var p, q := Filter(IsSelected, a) + [x], Filter(IsSelected, b) + [y];
    BagDiffers(Filter(IsSelected, a), Filter(IsSelected, b), x, y);
    ContextOrderPermutes(p);
    ContextOrderPermutes(q);
    assert multiset(InContextOrder(p)) != multiset(InContextOrder(q));
  }

  lemma LastItems(s4: State, ctx: Context, sink: OffloadSink, summarizer: Summarizer)
    requires Accepts(s4, summarizer) && !GoalMet(s4.items, ctx.goal)
    ensures FirstNamed(s4, summarizer).Some?
    ensures var summary := Proposed(s4, summarizer);
      Next(ReleaseOptionalReserves, Next(CompressHistory, s4, ctx, sink, summarizer), ctx, sink, summarizer).items
      == AbsorbAll(s4.items, summary.sourceIds) + [SummaryItem(FirstNamed(s4, summarizer).value, summary)]
  {
    L5Accepted(s4, summarizer);
  }

  lemma DisputeShows(a4: State, b4: State, ctx: Context, sink: OffloadSink, summarizer: Summarizer, z: ContextItem)
    requires SameState(a4, b4) && Unordered(summarizer) && !GoalMet(a4.items, ctx.goal) && Accepts(a4, summarizer)
    requires IsNamed(a4, summarizer, z) && FirstNamed(a4, summarizer).Some?
    requires Imprint(z) != Imprint(FirstNamed(a4, summarizer).value)
    requires b4.items != [] && b4.items[0] == z
    ensures var a := Next(ReleaseOptionalReserves, Next(CompressHistory, a4, ctx, sink, summarizer), ctx, sink,
                          summarizer);
      var b := Next(ReleaseOptionalReserves, Next(CompressHistory, b4, ctx, sink, summarizer), ctx, sink, summarizer);
      InContextOrder(Filter(IsSelected, a.items)) != InContextOrder(Filter(IsSelected, b.items))
  {
    OfferForgetsOrder(a4, b4, summarizer);
    NamedForgetsOrder(a4, b4, summarizer, z);
    FirstIsTemplate(b4, summarizer, z);
    TotalsForgetOrder(a4.items, b4.items, 0);
    LastItems(a4, ctx, sink, summarizer);
    LastItems(b4, ctx, sink, summarizer);
    var summary, t := Proposed(a4, summarizer), FirstNamed(a4, summarizer).value;
    ImprintShows(t, z, summary);
    AbsorbKeepsSame(a4.items, b4.items, summary.sourceIds);
    ContextDiffers(AbsorbAll(a4.items, summary.sourceIds), AbsorbAll(b4.items, summary.sourceIds),
                   SummaryItem(t, summary), SummaryItem(z, summary));
  }

  lemma PruneOptionalIds(items: seq<ContextItem>, now: i64)
    requires LadderRuns.Fresh(items)
    ensures |PruneOptional(items, now)| == |items|
    ensures forall i :: 0 <= i < |items| ==> PruneOptional(items, now)[i].id == items[i].id
  {
    if items == [] { PruneOptionalEmpty(now); }
    forall i | 0 <= i < |items|
      ensures |PruneOptional(items, now)| == |items| && PruneOptional(items, now)[i].id == items[i].id
    {
      PruneOptionalAt(items, now, i);
    }
  }

  lemma FilterHead<T>(p: T -> bool, s: seq<T>)
    requires s != [] && p(s[0])
    ensures Filter(p, s) != [] && Filter(p, s)[0] == s[0]
  {
  }

  /** An item that stands first and is selected somewhere is selected in front. */
  lemma SelectedInFront(pruned: seq<ContextItem>, id: string)
    requires pruned != [] && DistinctIds(pruned) && pruned[0].id == id
    requires id in Ids(Map(Select, Filter(IsSelected, pruned)))
    ensures Map(Select, Filter(IsSelected, pruned))[0].id == id
  {
    var kept := Filter(IsSelected, pruned);
    FilterMembers(IsSelected, pruned);
    var k :| 0 <= k < |kept| && kept[k].id == id;
    assert kept[k] in kept && kept[k] in pruned;
    SameId(pruned, kept[k], pruned[0]);
    FilterHead(IsSelected, pruned);
  }

  /** An input that stands first and survives the pruning stands first on the ladder. */
  lemma FirstStaysFirst(request: PlanRequest, items: seq<ContextItem>, id: string)
    requires LadderRuns.Fresh(items) && items != [] && items[0].id == id && id in Ids(Start(request, items))
    ensures Start(request, items)[0].id == id
  {
    PruneOptionalIds(items, request.now);
    SelectedInFront(PruneOptional(items, request.now), id);
  }

  lemma SameFront(s: seq<ContextItem>, start: seq<ContextItem>, z: ContextItem)
    requires DistinctIds(s) && Ids(s) == Ids(start) && z in s && start != [] && start[0].id == z.id
    ensures s != [] && s[0] == z
  {
    var i :| 0 <= i < |s| && s[i] == z;
    assert Ids(s)[0] == Ids(start)[0] == z.id;
  }

  /** A ladder that starts with the rival in front ends in another context. */
  lemma RivalShows(request: PlanRequest, other: PlanRequest, profile: Profile, m: u32, sa: seq<ContextItem>,
                   sb: seq<ContextItem>, sink: OffloadSink, summarizer: Summarizer, a4: State, z: ContextItem)
    requires other == request.(inputs := other.inputs) && SameItems(sa, sb) && Unordered(summarizer)
    requires ClimbsLadder(request, profile, sa)
    requires a4 == Fourth(request, profile, m, sa, sink, summarizer)
    requires !GoalMet(a4.items, LadderContext(request, profile, m).goal) && Accepts(a4, summarizer)
    requires IsNamed(a4, summarizer, z)
    requires FirstNamed(a4, summarizer).Some? && Imprint(z) != Imprint(FirstNamed(a4, summarizer).value)
    requires sb != [] && sb[0].id == z.id
    ensures InContextOrder(Filter(IsSelected, Reduce(request, profile, m, sa, sink, summarizer).items))
         != InContextOrder(Filter(IsSelected, Reduce(other, profile, m, sb, sink, summarizer).items))
  {
    var b4 := Fourth(other, profile, m, sb, sink, summarizer);
    FourthForgetsOrder(request, other, profile, m, sa, sb, sink, summarizer);
    FourthKeepsIds(other, profile, m, sb, sink, summarizer);
    NamedIsFront(a4, b4, sb, summarizer, z);
    DisputeShows(a4, b4, LadderContext(request, profile, m), sink, summarizer, z);
    TotalsForgetOrder(sa, sb, 0);
    ReduceClimbs(request, profile, m, sa, sink, summarizer);
    ReduceClimbs(other, profile, m, sb, sink, summarizer);
  }

  lemma NamedIsFront(a4: State, b4: State, sb: seq<ContextItem>, summarizer: Summarizer, z: ContextItem)
    requires SameState(a4, b4) && Accepts(a4, summarizer) && IsNamed(a4, summarizer, z)
    requires Ids(b4.items) == Ids(sb) && sb != [] && sb[0].id == z.id
    ensures b4.items != [] && b4.items[0] == z
  {
    FilterMembers(IsCompressible, a4.items);
    Members(a4.items, b4.items);
    SameFront(b4.items, sb, z);
  }

  lemma FourthForgetsOrder(request: PlanRequest, other: PlanRequest, profile: Profile, m: u32, sa: seq<ContextItem>,
                           sb: seq<ContextItem>, sink: OffloadSink, summarizer: Summarizer)
    requires other == request.(inputs := other.inputs) && SameItems(sa, sb)
    ensures SameState(Fourth(request, profile, m, sa, sink, summarizer),
                      Fourth(other, profile, m, sb, sink, summarizer))
  {
    var reserves := ReservesTotal(profile);
    EarlyStagesForgetOrder(4, State(sa, reserves, NOTHING_DONE), State(sb, reserves, NOTHING_DONE),
                           LadderContext(request, profile, m),
                           sink, summarizer);
  }

  lemma ReduceClimbs(request: PlanRequest, profile: Profile, m: u32, start: seq<ContextItem>, sink: OffloadSink,
                     summarizer: Summarizer)
    requires ClimbsLadder(request, profile, start)
    ensures var ctx := LadderContext(request, profile, m);
      Reduce(request, profile, m, start, sink, summarizer)
      == Next(ReleaseOptionalReserves,
              Next(CompressHistory, Fourth(request, profile, m, start, sink, summarizer), ctx, sink, summarizer),
              ctx, sink, summarizer)
  {
    ReduceCases(request, profile, m, start, sink, summarizer);
    LastStages(start, ReservesTotal(profile), LadderContext(request, profile, m), sink, summarizer);
  }

  /** Bringing the rival to the front changes the context. */
  lemma RivalFirstShows(request: PlanRequest, other: PlanRequest, profile: Profile, a: seq<ContextItem>,
                        b: seq<ContextItem>, sink: OffloadSink, summarizer: Summarizer, z: ContextItem)
    requires other == request.(inputs := other.inputs) && SameItems(a, b) && LadderRuns.Fresh(b)
    requires Unordered(summarizer)
    requires var fifth := Fifth(request, profile, a, sink, summarizer);
      && fifth.Some? && Accepts(fifth.value, summarizer) && IsNamed(fifth.value, summarizer, z)
      && FirstNamed(fifth.value, summarizer).Some? && Imprint(z) != Imprint(FirstNamed(fifth.value, summarizer).value)
    requires b != [] && b[0].id == z.id && z.id in Ids(Start(request, a))
    ensures InContextOrder(Filter(IsSelected, Reduced(request, profile, a, sink, summarizer).items))
         != InContextOrder(Filter(IsSelected, Reduced(other, profile, b, sink, summarizer).items))
  {
    StartsForgetOrder(request, other, a, b);
    var sa, sb := Start(request, a), Start(other, b);
    IdsForgetOrder(sa, sb, z.id);
    FirstStaysFirst(other, b, z.id);
    RivalShows(request, other, profile, FoldParts(0, Parts(a, PARTS)), sa, sb, sink, summarizer,
               Fifth(request, profile, a, sink, summarizer).value, z);
  }

  lemma IdsForgetOrder(a: seq<ContextItem>, b: seq<ContextItem>, id: string)
    requires SameItems(a, b) && id in Ids(a)
    ensures id in Ids(b)
  {
    Members(a, b);
    var i :| 0 <= i < |a| && a[i].id == id;
    assert a[i] in b;
    var j :| 0 <= j < |b| && b[j] == a[i];
    assert Ids(b)[j] == id;
  }

  // ------------------------------------------------------------------------- the exact theorem

  /** The same inputs in another order. */
  ghost predicate Rearranges(request: PlanRequest, other: PlanRequest) {
    other == request.(inputs := other.inputs) && multiset(request.inputs) == multiset(other.inputs)
  }

  /** Every arrangement of the inputs gives the same plan, up to the order in which dropped items are listed. */
  ghost predicate OrderForgotten(setup: Setup, request: PlanRequest, sink: OffloadSink, summarizer: Summarizer,
                                 override: Option<Profile>) {
    forall other :: Rearranges(request, other) ==>
      SamePlan(PlanFor(setup, request, sink, summarizer, override), PlanFor(setup, other, sink, summarizer, override))
  }

  /** No summary is accepted that absorbs two items. */
  ghost predicate NothingMerged(setup: Setup, request: PlanRequest, sink: OffloadSink, summarizer: Summarizer,
                                override: Option<Profile>) {
    var choice := Choose(setup);
    choice.Some? ==>
      var profile := EffectiveProfile(BaseProfile(setup, request, override), choice.value.1);
      IsValid(profile) ==>
        MergesNothing(request, profile, EstimateAll(setup.hashing, choice.value.0, request.inputs), sink, summarizer)
  }

  ghost predicate MergesNothing(request: PlanRequest, profile: Profile, items: seq<ContextItem>, sink: OffloadSink,
                                summarizer: Summarizer) {
    var fifth := Fifth(request, profile, items, sink, summarizer);
    fifth.Some? ==> !Merges(fifth.value, summarizer)
  }

  lemma MergesNothingSettles(request: PlanRequest, profile: Profile, items: seq<ContextItem>, sink: OffloadSink,
                             summarizer: Summarizer)
    requires LadderRuns.Fresh(items)
    ensures MergesNothing(request, profile, items, sink, summarizer) <==>
              Settles(request, profile, items, sink, summarizer)
  {
    if Fifth(request, profile, items, sink, summarizer).Some? {
      FifthDisputed(request, profile, items, sink, summarizer);
    }
  }

  lemma UnmergedForgets(setup: Setup, request: PlanRequest, other: PlanRequest, sink: OffloadSink,
                        summarizer: Summarizer, override: Option<Profile>)
    requires WellPosed(request) && Unordered(summarizer) && Rearranges(request, other)
    requires NothingMerged(setup, request, sink, summarizer, override)
    ensures SamePlan(PlanFor(setup, request, sink, summarizer, override),
                     PlanFor(setup, other, sink, summarizer, override))
  {
    var choice, base := Choose(setup), BaseProfile(setup, request, override);
    if choice.Some? && IsValid(EffectiveProfile(base, choice.value.1)) {
      var (e, fallback) := choice.value;
      EstimatesForgetOrder(setup.hashing, e, request, other);
      EstimatesFresh(setup.hashing, e, request);
      MergesNothingSettles(request, EffectiveProfile(base, fallback), EstimateAll(setup.hashing, e, request.inputs),
                           sink, summarizer);
      AssembleSettled(request, other, EffectiveProfile(base, fallback), e.version, fallback,
                      EstimateAll(setup.hashing, e, request.inputs), EstimateAll(setup.hashing, e, other.inputs), sink,
                      summarizer);
      PlanAssembles(setup, request, sink, summarizer, override);
      PlanAssembles(setup, other, sink, summarizer, override);
    } else {
      UnplannedSame(setup, request, other, sink, summarizer, override);
    }
  }

  /** The request with one input brought to the front. */
  function Fronted(request: PlanRequest, k: nat): PlanRequest
    requires k < |request.inputs|
  {
    request.(inputs := [request.inputs[k]] + (request.inputs[..k] + request.inputs[k + 1..]))
  }

  lemma FrontedRearranges(request: PlanRequest, k: nat)
    requires k < |request.inputs|
    ensures Rearranges(request, Fronted(request, k))
  {
    Cut(request.inputs, k);
  }

  lemma FourthKeepsIds(request: PlanRequest, profile: Profile, m: u32, start: seq<ContextItem>, sink: OffloadSink,
                       summarizer: Summarizer)
    requires DistinctIds(start)
    ensures Ids(Fourth(request, profile, m, start, sink, summarizer).items) == Ids(start)
  {
    EarlyStagesKeepIds(4, State(start, ReservesTotal(profile), NOTHING_DONE), LadderContext(request, profile, m), sink,
                       summarizer);
  }

  /** Where an item of the fifth level comes from. */
  lemma CameFrom(request: PlanRequest, items: seq<ContextItem>, s4: seq<ContextItem>, z: ContextItem) returns (k: nat)
    requires LadderRuns.Fresh(items) && Ids(s4) == Ids(Start(request, items)) && z in s4
    ensures k < |items| && items[k].id == z.id && z.id in Ids(Start(request, items))
  {
    var start := Start(request, items);
    StartFacts(items, request.now);
    var i :| 0 <= i < |s4| && s4[i] == z;
    assert Ids(s4)[i] == Ids(start)[i];
    assert start[i] in items;
    k :| 0 <= k < |items| && items[k] == start[i];
  }

  lemma ConcludesWith(request: PlanRequest, profile: Profile, version: string, fallback: bool, items: seq<ContextItem>,
                      sink: OffloadSink, summarizer: Summarizer)
    requires EarlyRefusal(profile, Parts(items, PARTS)).None?
    ensures Assemble(request, profile, version, fallback, items, sink, summarizer).selected
         == InContextOrder(Filter(IsSelected, Reduced(request, profile, items, sink, summarizer).items))
  {
    ConcludeShape(request, profile, version, fallback, Parts(items, PARTS),
                  Filter(NotSelected, PruneOptional(items, request.now)),
                  Reduced(request, profile, items, sink, summarizer));
  }

  /** A disputed summary has a source whose input, brought to the front, changes the context. */
  lemma RivalInput(request: PlanRequest, profile: Profile, a: seq<ContextItem>, sink: OffloadSink,
                   summarizer: Summarizer)
    returns (k: nat, z: ContextItem)
    requires LadderRuns.Fresh(a) && !Settles(request, profile, a, sink, summarizer)
    ensures k < |a| && a[k].id == z.id && z.id in Ids(Start(request, a))
    ensures var fifth := Fifth(request, profile, a, sink, summarizer);
      && fifth.Some? && Accepts(fifth.value, summarizer) && IsNamed(fifth.value, summarizer, z)
      && FirstNamed(fifth.value, summarizer).Some? && Imprint(z) != Imprint(FirstNamed(fifth.value, summarizer).value)
  {
    var s4 := Fifth(request, profile, a, sink, summarizer).value;
    z := DisputedRival(s4, summarizer);
    FilterMembers(IsCompressible, s4.items);
    StartFacts(a, request.now);
    FourthKeepsIds(request, profile, FoldParts(0, Parts(a, PARTS)), Start(request, a), sink, summarizer);
    k := CameFrom(request, a, s4.items, z);
  }

  lemma FrontedEstimates(hashing: Hashing, e: Estimator, request: PlanRequest, k: nat)
    requires WellPosed(request) && k < |request.inputs|
    ensures var a, b := EstimateAll(hashing, e, request.inputs), EstimateAll(hashing, e, Fronted(request, k).inputs);
      SameItems(a, b) && LadderRuns.Fresh(a) && LadderRuns.Fresh(b) && b[0].id == a[k].id
  {
    FrontedRearranges(request, k);
    EstimatesFresh(hashing, e, request);
    EstimatesForgetOrder(hashing, e, request, Fronted(request, k));
  }

  /** The context that is assembled for the inputs of a request. */
  function Chosen(request: PlanRequest, profile: Profile, hashing: Hashing, e: Estimator, fallback: bool,
                  sink: OffloadSink, summarizer: Summarizer): seq<ContextItem>
  {
    Assemble(request, profile, e.version, fallback, EstimateAll(hashing, e, request.inputs), sink, summarizer).selected
  }

  lemma DisputedShows(request: PlanRequest, profile: Profile, hashing: Hashing, e: Estimator, fallback: bool,
                      sink: OffloadSink, summarizer: Summarizer) returns (other: PlanRequest)
    requires WellPosed(request) && Unordered(summarizer)
    requires !Settles(request, profile, EstimateAll(hashing, e, request.inputs), sink, summarizer)
    ensures Rearranges(request, other)
    ensures Chosen(request, profile, hashing, e, fallback, sink, summarizer)
         != Chosen(other, profile, hashing, e, fallback, sink, summarizer)
  {
    var a := EstimateAll(hashing, e, request.inputs);
    EstimatesFresh(hashing, e, request);
    var k, z := RivalInput(request, profile, a, sink, summarizer);
    other := Fronted(request, k);
    FrontedRearranges(request, k);
    FrontedEstimates(hashing, e, request, k);
    var b := EstimateAll(hashing, e, other.inputs);
    RivalFirstShows(request, other, profile, a, b, sink, summarizer, z);
    PartsForgetOrder(a, b, PARTS);
    ConcludesWith(request, profile, e.version, fallback, a, sink, summarizer);
    ConcludesWith(other, profile, e.version, fallback, b, sink, summarizer);
  }

  /** With a summarizer that does not mind the order of its candidates, all arrangements of the inputs give the same
      plan if and only if no accepted summary absorbs two items. */
  lemma PlanForgetsOrderExactly(setup: Setup, request: PlanRequest, sink: OffloadSink, summarizer: Summarizer,
                                override: Option<Profile>)
    requires WellPosed(request) && Unordered(summarizer)
    ensures OrderForgotten(setup, request, sink, summarizer, override) <==>
              NothingMerged(setup, request, sink, summarizer, override)
  {
    if NothingMerged(setup, request, sink, summarizer, override) {
      forall other | Rearranges(request, other)
        ensures SamePlan(PlanFor(setup, request, sink, summarizer, override),
                         PlanFor(setup, other, sink, summarizer, override))
      {
        UnmergedForgets(setup, request, other, sink, summarizer, override);
      }
    } else {
      var (e, fallback) := Choose(setup).value;
      var profile := EffectiveProfile(BaseProfile(setup, request, override), fallback);
      EstimatesFresh(setup.hashing, e, request);
      MergesNothingSettles(request, profile, EstimateAll(setup.hashing, e, request.inputs), sink, summarizer);
      var other := DisputedShows(request, profile, setup.hashing, e, fallback, sink, summarizer);
      PlanAssembles(setup, request, sink, summarizer, override);
      PlanAssembles(setup, other, sink, summarizer, override);
    }
  }

  // --------------------------------------------------------- a plan in which the order shows

  /** A summarizer that turns the two notes into one, whatever their order. */
  const ABRIDGING: Summarizer :=
    Summarizer(true, (cs: seq<ContextItem>) => Ok(SummaryOutcome("s", ["a", "b"], 1, "v", false, None)))

  /** Nothing but diagnostics has changed. */
  predicate Unmoved(a: State, b: State) {
    b.items == a.items && LadderRuns.SameRecord(a, b)
  }

  lemma NextImmune(n: nat, st: State, ctx: Context, sink: OffloadSink, summarizer: Summarizer)
    requires n < 4 && Immune(st.items, ctx.now, ctx.profile.lowPriorityCutoff) && !sink.available
    ensures Unmoved(st, Next(LEVELS[n], st, ctx, sink, summarizer))
  {
    ApplyImmune(LEVELS[n], st, ctx, sink, summarizer);
    LadderRuns.EarlyLevelDrops(n, st, ctx, sink, summarizer);
  }

  /** The first four levels do nothing to items that nothing can be held against. */
  lemma {:induction false} StageImmune(n: nat, st: State, ctx: Context, sink: OffloadSink, summarizer: Summarizer)
    requires n <= 4 && Immune(st.items, ctx.now, ctx.profile.lowPriorityCutoff) && !sink.available
    ensures Unmoved(st, LadderRuns.Stage(n, st, ctx, sink, summarizer))
  {
    if n > 0 {
      StageImmune(n - 1, st, ctx, sink, summarizer);
      NextImmune(n - 1, LadderRuns.Stage(n - 1, st, ctx, sink, summarizer), ctx, sink, summarizer);
    }
  }

  lemma PairCompressible(p: Profile)
    ensures Filter(IsCompressible, Pair(p, History)) == Pair(p, History)
    ensures Tokens(Among(["a", "b"]), Pair(p, History)) == 2 * U32_MAX
  {
    var a, b := HugeNote("a", History, p.lowPriorityCutoff), HugeNote("b", History, p.lowPriorityCutoff);
    var items := [a, b];
    assert items[1..] == [b] && [b][1..] == [];
    assert Filter(IsCompressible, [b]) == [b];
    assert Tokens(Among(["a", "b"]), [b]) == U32_MAX;
  }

  lemma PairAccepted(p: Profile, st: State)
    requires st.items == Pair(p, History)
    ensures Accepts(st, ABRIDGING) && Proposed(st, ABRIDGING).sourceIds == ["a", "b"]
  {
    PairCompressible(p);
    FoldSaturates(0, Among(["a", "b"]), Pair(p, History));
  }

  lemma PairDisputed(p: Profile, st: State)
    requires st.items == Pair(p, History)
    ensures Disputed(st, ABRIDGING)
  {
    var a, b := HugeNote("a", History, p.lowPriorityCutoff), HugeNote("b", History, p.lowPriorityCutoff);
    PairCompressible(p);
    PairAccepted(p, st);
    assert IsNamed(st, ABRIDGING, a) && IsNamed(st, ABRIDGING, b);
    assert a.contentHash == "a" && b.contentHash == "b" && "a"[0] != "b"[0];
    assert Imprint(a).contentHash != Imprint(b).contentHash;
  }

  /** Items of the largest size are over every target. */
  lemma HugeClimbs(request: PlanRequest, p: Profile, items: seq<ContextItem>)
    requires IsValid(p) && Tokens(IsSelected, items) >= U32_MAX
    ensures ClimbsLadder(request, p, items) && !GoalMet(items, p.targetTokens)
  {
    ContextExact(items);
    TargetFits(p);
  }

  lemma FourthImmune(request: PlanRequest, p: Profile, m: u32, items: seq<ContextItem>, summarizer: Summarizer)
    requires Immune(items, request.now, p.lowPriorityCutoff)
    ensures Unmoved(State(items, ReservesTotal(p), NOTHING_DONE),
                    Fourth(request, p, m, items, NO_OFFLOAD, summarizer))
  {
    StageImmune(4, State(items, ReservesTotal(p), NOTHING_DONE), LadderContext(request, p, m), NO_OFFLOAD, summarizer);
  }

  lemma ImmuneFifthFrom(request: PlanRequest, p: Profile, m: u32, items: seq<ContextItem>, summarizer: Summarizer)
    requires IsValid(p) && !request.forceReduction && Immune(items, request.now, p.lowPriorityCutoff)
    requires Tokens(IsSelected, items) >= U32_MAX
    ensures FifthFrom(request, p, m, items, NO_OFFLOAD, summarizer).Some?
    ensures FifthFrom(request, p, m, items, NO_OFFLOAD, summarizer).value.items == items
  {
    FourthImmune(request, p, m, items, summarizer);
    HugeClimbs(request, p, items);
  }

  lemma FifthIsFrom(request: PlanRequest, p: Profile, items: seq<ContextItem>, sink: OffloadSink,
                    summarizer: Summarizer)
    requires Parts(items, PARTS) == [] && IsValid(p) && Start(request, items) == items
    ensures Fifth(request, p, items, sink, summarizer) == FifthFrom(request, p, 0, items, sink, summarizer)
  {
    NoEarlyRefusal(p);
  }

  /** Optional items of the largest size that nothing can be held against all reach the fifth level. */
  lemma ImmuneReachFifth(request: PlanRequest, p: Profile, items: seq<ContextItem>, summarizer: Summarizer)
    requires IsValid(p) && !request.forceReduction && Immune(items, request.now, p.lowPriorityCutoff)
    requires Tokens(IsSelected, items) >= U32_MAX
    ensures Fifth(request, p, items, NO_OFFLOAD, summarizer).Some?
    ensures Fifth(request, p, items, NO_OFFLOAD, summarizer).value.items == items
  {
    NotesHaveNoParts(items);
    StartImmune(request, items, p.lowPriorityCutoff);
    FifthIsFrom(request, p, items, NO_OFFLOAD, summarizer);
    ImmuneFifthFrom(request, p, 0, items, summarizer);
  }

  lemma PairReachesFifth(p: Profile)
    requires IsValid(p)
    ensures !Settles(TwoNotes(p, History), p, Pair(p, History), NO_OFFLOAD, ABRIDGING)
  {
    var request, items := TwoNotes(p, History), Pair(p, History);
    HugePair(p, History);
    ImmuneReachFifth(request, p, items, ABRIDGING);
    PairDisputed(p, Fifth(request, p, items, NO_OFFLOAD, ABRIDGING).value);
  }

  lemma OnlySwap<T>(x: T, y: T, s: seq<T>)
    requires multiset([x, y]) == multiset(s)
    ensures s == [x, y] || s == [y, x]
  {
    Members([x, y], s);
    assert s == [s[0], s[1]];
    assert multiset([s[0], s[1]]) == multiset{s[0], s[1]};
    assert s[0] in [x, y] && s[1] in [x, y];
    assert x in s && y in s;
  }

  function Swapped(request: PlanRequest): PlanRequest
    requires |request.inputs| == 2
  {
    request.(inputs := [request.inputs[1], request.inputs[0]])
  }

  lemma SwapAssembled(request: PlanRequest, profile: Profile, hashing: Hashing, e: Estimator, sink: OffloadSink,
                      summarizer: Summarizer)
    requires |request.inputs| == 2 && WellPosed(request) && Unordered(summarizer)
    requires !Settles(request, profile, EstimateAll(hashing, e, request.inputs), sink, summarizer)
    ensures Chosen(request, profile, hashing, e, false, sink, summarizer)
         != Chosen(Swapped(request), profile, hashing, e, false, sink, summarizer)
  {
    var other := DisputedShows(request, profile, hashing, e, false, sink, summarizer);
    TwoArrangements(request, other);
  }

  lemma TwoArrangements(request: PlanRequest, other: PlanRequest)
    requires |request.inputs| == 2 && Rearranges(request, other)
    ensures other == request || other == Swapped(request)
  {
    assert request.inputs == [request.inputs[0], request.inputs[1]];
    OnlySwap(request.inputs[0], request.inputs[1], other.inputs);
  }

  /** Under every valid profile, swapping two history notes of the largest size changes the assembled context. */
  lemma SwapShows(p: Profile)
    requires IsValid(p)
    ensures var request := TwoNotes(p, History);
      PlanFor(SetupFor(p), request, NO_OFFLOAD, ABRIDGING, None).selected
      != PlanFor(SetupFor(p), Swapped(request), NO_OFFLOAD, ABRIDGING, None).selected
  {
    var request := TwoNotes(p, History);
    NotesEstimated(p, History);
    NotesWellPosed(p, History);
    PairReachesFifth(p);
    SwapAssembled(request, p, NAMING, HUGE, NO_OFFLOAD, ABRIDGING);
    PlanAssembles(SetupFor(p), request, NO_OFFLOAD, ABRIDGING, None);
    PlanAssembles(SetupFor(p), Swapped(request), NO_OFFLOAD, ABRIDGING, None);
  }
}
