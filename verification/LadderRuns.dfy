/**
 Facts about a whole run of the ladder, from the facts about its levels.
 */
module LadderRuns {
  import opened Machine
  import opened Order
  import opened Items
  import opened Profiles
  import opened Pruning
  import opened Ladder
  import opened LadderFacts

  // -------------------------------------------------------------------- stages

  /** The state after the first `n` levels. */
  ghost function Stage(n: nat, st: State, ctx: Context, sink: OffloadSink, summarizer: Summarizer): State
    requires n <= |LEVELS|
  {
    if n == 0 then st else Next(LEVELS[n - 1], Stage(n - 1, st, ctx, sink, summarizer), ctx, sink, summarizer)
  }

  lemma {:induction false} ClimbReachesStage(n: nat, st: State, ctx: Context, sink: OffloadSink, summarizer: Summarizer)
    requires n <= |LEVELS|
    ensures Climb(LEVELS, st, ctx, sink, summarizer)
         == Climb(LEVELS[n..], Stage(n, st, ctx, sink, summarizer), ctx, sink, summarizer)
  {
    if n == 0 {
      assert LEVELS[0..] == LEVELS;
    } else {
      ClimbReachesStage(n - 1, st, ctx, sink, summarizer);
      assert LEVELS[n - 1..][1..] == LEVELS[n..];
    }
  }

  lemma RunIsLastStage(items: seq<ContextItem>, reserves: u32, ctx: Context, sink: OffloadSink, summarizer: Summarizer)
    ensures RunLadder(items, reserves, ctx, sink, summarizer)
         == Stage(6, State(items, reserves, NOTHING_DONE), ctx, sink, summarizer)
  {
    ClimbReachesStage(6, State(items, reserves, NOTHING_DONE), ctx, sink, summarizer);
    assert LEVELS[6..] == [];
  }

  /** A run that ends short of its goal was short of it at every stage, so no level was skipped. */
  lemma {:induction false} NeverMet(n: nat, m: nat, st: State, ctx: Context, sink: OffloadSink, summarizer: Summarizer)
    requires n <= m <= |LEVELS| && !GoalMet(Stage(m, st, ctx, sink, summarizer).items, ctx.goal)
    ensures !GoalMet(Stage(n, st, ctx, sink, summarizer).items, ctx.goal)
  {
    if n < m { NeverMet(n, m - 1, st, ctx, sink, summarizer); }
  }

  /** The goal was missed before and after every level, so each of them was tried. */
  ghost predicate EveryLevelTried(st: State, ctx: Context, sink: OffloadSink, summarizer: Summarizer) {
    forall n :: 0 <= n <= |LEVELS| ==> !GoalMet(Stage(n, st, ctx, sink, summarizer).items, ctx.goal)
  }

  lemma MissedThroughout(items: seq<ContextItem>, reserves: u32, ctx: Context, sink: OffloadSink,
                         summarizer: Summarizer)
    requires !GoalMet(RunLadder(items, reserves, ctx, sink, summarizer).items, ctx.goal)
    ensures EveryLevelTried(State(items, reserves, NOTHING_DONE), ctx, sink, summarizer)
  {
    var st := State(items, reserves, NOTHING_DONE);
    RunIsLastStage(items, reserves, ctx, sink, summarizer);
    forall n | 0 <= n <= |LEVELS| ensures !GoalMet(Stage(n, st, ctx, sink, summarizer).items, ctx.goal) {
      NeverMet(n, 6, st, ctx, sink, summarizer);
    }
  }

  // ------------------------------------------------------------------ accounting

  /** What any run of the ladder may make of an item. */
  predicate May(x: ContextItem, y: ContextItem) {
    Core(y) == Core(x) && y.estimatedTokens <= x.estimatedTokens && (y.selected ==> x.selected)
  }

  /** A mandatory item changes only if a recorded summary claims to stand for it. */
  predicate Spared(summaries: seq<SummaryOutcome>, x: ContextItem, y: ContextItem) {
    IsMandatory(x) ==> y == if IsSource(summaries, x.id) then Absorb()(x) else x
  }

  /** An item without a drop reason is out of the selection exactly if a recorded summary stands for it. */
  predicate Explained(summaries: seq<SummaryOutcome>, y: ContextItem) {
    && (IsSource(summaries, y.id) <==> !y.selected && y.dropReason.None?)
    && y.dropReason != Some(OverBudget)
  }

  predicate IsSummaryOf(summary: SummaryOutcome, y: ContextItem) {
    && y.kind.Summary? && y.selected && y.dropReason.None?
    && y.id == summary.summaryId && y.estimatedTokens == summary.summaryTokens
  }

  predicate AccountedAs(summaries: seq<SummaryOutcome>, x: ContextItem, y: ContextItem) {
    May(x, y) && Explained(summaries, y) && Spared(summaries, x, y)
  }

  /** Every starting item is still there, changed only as allowed, and at most one summary was added. */
  ghost predicate Accounted(start: seq<ContextItem>, st: State) {
    var summaries := st.outcome.summaries;
    && |summaries| <= 1 && |st.items| == |start| + |summaries|
    && (forall i :: 0 <= i < |start| ==> AccountedAs(summaries, start[i], st.items[i]))
    && (|summaries| == 1 ==> IsSummaryOf(summaries[0], st.items[|start|]))
  }

  lemma DropsAccounted(start: seq<ContextItem>, a: State, b: State)
    requires Accounted(start, a) && a.outcome.summaries == b.outcome.summaries == []
    requires OnlyDrops(a.items, b.items) || OnlyOffloads(a.items, b.items)
    ensures Accounted(start, b)
  {
    forall i | 0 <= i < |start| ensures AccountedAs(b.outcome.summaries, start[i], b.items[i]) {
      assert AccountedAs(a.outcome.summaries, start[i], a.items[i]);
    }
  }

  lemma CompressionAccounted(start: seq<ContextItem>, a: State, b: State)
    requires Accounted(start, a) && a.outcome.summaries == [] && Compresses(a, b)
    requires DistinctIds(a.items)
    ensures Accounted(start, b)
  {
    if b.outcome.summaries != [] {
      var summary: SummaryOutcome, item: ContextItem :|
        && b.outcome.summaries == a.outcome.summaries + [summary]
        && CompressedBy(a.items, b.items, summary, item);
      assert b.outcome.summaries == [summary];
      forall i | 0 <= i < |start| ensures AccountedAs(b.outcome.summaries, start[i], b.items[i]) {
        assert AccountedAs([], start[i], a.items[i]);
        assert !IsSource([], a.items[i].id);
        assert IsSource([summary], a.items[i].id) <==> a.items[i].id in [summary][0].sourceIds;
      }
    }
  }

  // --------------------------------------------------- what holds before each level

  function LevelRank(level: LadderLevel): nat {
    match level
    case ExpiredDuplicateSuperseded => 1
    case LowPriorityOptional => 2
    case StaleToolOutputs => 3
    case OffloadLargeItems => 4
    case CompressHistory => 5
    case ReleaseOptionalReserves => 6
  }

  ghost predicate Ascending(levels: seq<LadderLevel>, bound: nat) {
    && (forall i, j :: 0 <= i < j < |levels| ==> LevelRank(levels[i]) < LevelRank(levels[j]))
    && (forall i :: 0 <= i < |levels| ==> LevelRank(levels[i]) <= bound)
  }

  ghost predicate Kept(n: nat, start: seq<ContextItem>, reserves: u32, p: Profile, st: State) {
    && Accounted(start, st)
    && Ascending(st.outcome.levelsApplied, n)
    && (n < 5 ==> st.outcome.summaries == [] && DistinctIds(st.items))
    && (n < 6 ==> st.reserves == reserves)
    && st.reserves <= reserves
    && (reserves >= ProtectedReserves(p) ==> st.reserves >= ProtectedReserves(p))
  }

  predicate SameRecord(a: State, b: State) {
    && b.reserves == a.reserves
    && b.outcome.levelsApplied == a.outcome.levelsApplied && b.outcome.summaries == a.outcome.summaries
  }

  lemma DropsKeep(n: nat, start: seq<ContextItem>, reserves: u32, p: Profile, a: State, b: State)
    requires n < 4 && Kept(n, start, reserves, p, a) && SameRecord(a, b)
    requires OnlyDrops(a.items, b.items) || OnlyOffloads(a.items, b.items)
    ensures Kept(n + 1, start, reserves, p, b)
  {
    DropsAccounted(start, a, b);
  }

  lemma CompressKeeps(start: seq<ContextItem>, reserves: u32, p: Profile, st: State, summarizer: Summarizer)
    requires Kept(4, start, reserves, p, st)
    ensures Kept(5, start, reserves, p, L5(st, summarizer))
    ensures L5(st, summarizer).outcome.levelsApplied == st.outcome.levelsApplied
  {
    L5Facts(st, summarizer);
    CompressionAccounted(start, st, L5(st, summarizer));
  }

  lemma ReleaseKeeps(start: seq<ContextItem>, reserves: u32, st: State, p: Profile)
    requires Kept(5, start, reserves, p, st)
    ensures Kept(6, start, reserves, p, L6(st, p)) && L6(st, p).outcome.levelsApplied == st.outcome.levelsApplied
  {
    L6Facts(st, p);
  }

  lemma ApplyKeeps(n: nat, start: seq<ContextItem>, reserves: u32, st: State, ctx: Context, sink: OffloadSink,
                   summarizer: Summarizer)
    requires n < 6 && Kept(n, start, reserves, ctx.profile, st)
    ensures var after := Apply(LEVELS[n], st, ctx, sink, summarizer);
      && Kept(n + 1, start, reserves, ctx.profile, after)
      && after.outcome.levelsApplied == st.outcome.levelsApplied
  {
    var after := Apply(LEVELS[n], st, ctx, sink, summarizer);
    if n == 4 {
      CompressKeeps(start, reserves, ctx.profile, st, summarizer);
    } else if n == 5 {
      ReleaseKeeps(start, reserves, st, ctx.profile);
    } else {
      EarlyLevelDrops(n, st, ctx, sink, summarizer);
      DropsKeep(n, start, reserves, ctx.profile, st, after);
    }
  }

  /** The first four levels only drop or only offload. */
  lemma EarlyLevelDrops(n: nat, st: State, ctx: Context, sink: OffloadSink, summarizer: Summarizer)
    requires n < 4 && DistinctIds(st.items)
    ensures var after := Apply(LEVELS[n], st, ctx, sink, summarizer);
      && (OnlyDrops(st.items, after.items) || OnlyOffloads(st.items, after.items))
      && SameRecord(st, after)
  {
    if n == 0 {
      L1Facts(st.items, ctx.now, ctx.goal);
    } else if n == 1 {
      L2Facts(st.items, ctx.profile.lowPriorityCutoff, ctx.goal);
    } else if n == 2 {
      L3Facts(st.items, ctx.goal);
    } else {
      L4Facts(st, ctx, sink);
    }
  }

  lemma KeptLater(n: nat, start: seq<ContextItem>, reserves: u32, p: Profile, st: State)
    requires Kept(n, start, reserves, p, st)
    ensures Kept(n + 1, start, reserves, p, st)
  {
  }

  lemma MarkKeeps(n: nat, start: seq<ContextItem>, reserves: u32, p: Profile, st: State, level: LadderLevel)
    requires Kept(n + 1, start, reserves, p, st) && Ascending(st.outcome.levelsApplied, n) && LevelRank(level) == n + 1
    ensures Kept(n + 1, start, reserves, p,
                 st.(outcome := st.outcome.(levelsApplied := st.outcome.levelsApplied + [level])))
  {
  }

  lemma NextKeeps(n: nat, start: seq<ContextItem>, reserves: u32, st: State, ctx: Context, sink: OffloadSink,
                  summarizer: Summarizer)
    requires n < 6 && Kept(n, start, reserves, ctx.profile, st)
    ensures Kept(n + 1, start, reserves, ctx.profile, Next(LEVELS[n], st, ctx, sink, summarizer))
  {
    var after := Apply(LEVELS[n], st, ctx, sink, summarizer);
    KeptLater(n, start, reserves, ctx.profile, st);
    ApplyKeeps(n, start, reserves, st, ctx, sink, summarizer);
    MarkKeeps(n, start, reserves, ctx.profile, after, LEVELS[n]);
  }

  /** Items as `Selection::new` hands them to the ladder. */
  ghost predicate Fresh(items: seq<ContextItem>) {
    DistinctIds(items) && forall x :: x in items ==> x.selected && x.dropReason.None?
  }

  lemma FreshKept(items: seq<ContextItem>, reserves: u32, p: Profile)
    requires Fresh(items)
    ensures Kept(0, items, reserves, p, State(items, reserves, NOTHING_DONE))
  {
    forall i | 0 <= i < |items| ensures AccountedAs([], items[i], items[i]) {
      assert items[i] in items;
    }
  }

  lemma {:induction false} StageKeeps(n: nat, items: seq<ContextItem>, reserves: u32, ctx: Context, sink: OffloadSink,
                                      summarizer: Summarizer)
    requires n <= 6 && Fresh(items)
    ensures Kept(n, items, reserves, ctx.profile, Stage(n, State(items, reserves, NOTHING_DONE), ctx, sink, summarizer))
  {
    var st := State(items, reserves, NOTHING_DONE);
    if n == 0 {
      FreshKept(items, reserves, ctx.profile);
    } else {
      StageKeeps(n - 1, items, reserves, ctx, sink, summarizer);
      NextKeeps(n - 1, items, reserves, Stage(n - 1, st, ctx, sink, summarizer), ctx, sink, summarizer);
    }
  }

  // ------------------------------------------------------------------- exhaustion

  /** Past the end of its life, below the cutoff, or a completed tool result. A pin lifts the priority to 90, and a
      recovered note counts at most 20. */
  predicate Droppable(x: ContextItem, now: i64, cutoff: u8) {
    || HasEnded(x.createdAt, x.ttlMs, now) || HasEnded(x.createdAt, x.retentionMs, now)
    || (x.priority < cutoff && !(x.pinned && cutoff <= 90)) || (x.scratchpadStatus == Some(Recovered) && cutoff > 20)
    || (x.kind.ToolResult? && x.toolPairComplete)
  }

  lemma DroppableMeans(x: ContextItem, now: i64, cutoff: u8)
    ensures Droppable(x, now, cutoff) <==>
              IsExpired(x, now) || EffectivePriority(x) < cutoff || (x.kind.ToolResult? && x.toolPairComplete)
  {
    ExpiredMeans(x, now);
    PriorityMeans(x, cutoff);
  }

  /** No selected optional item among the first `n` could still be dropped by L1, L2 or L3. */
  ghost predicate Exhausted(items: seq<ContextItem>, n: nat, now: i64, cutoff: u8) {
    forall i :: 0 <= i < n && i < |items| && IsOptionalSelected(items[i]) ==> !Droppable(items[i], now, cutoff)
  }

  lemma DropsKeepExhaustion(a: seq<ContextItem>, b: seq<ContextItem>, n: nat, now: i64, cutoff: u8)
    requires n <= |a| && Exhausted(a, n, now, cutoff)
    requires OnlyDrops(a, b) || OnlyOffloads(a, b)
    ensures Exhausted(b, n, now, cutoff)
  {
  }

  lemma CompressionKeepsExhaustion(a: State, b: State, n: nat, now: i64, cutoff: u8)
    requires n <= |a.items| && Exhausted(a.items, n, now, cutoff) && Compresses(a, b)
    ensures Exhausted(b.items, n, now, cutoff)
  {
    if a.outcome.summaries != b.outcome.summaries {
      var summary: SummaryOutcome, item: ContextItem :| CompressedBy(a.items, b.items, summary, item);
    }
  }

  /** The three drop levels, run to the end of their lists, leave nothing droppable. */
  lemma DropLevelsExhaust(items: seq<ContextItem>, ctx: Context)
    requires DistinctIds(items)
    requires var cutoff := ctx.profile.lowPriorityCutoff;
      var s1 := L1(items, ctx.now, ctx.goal);
      var s2 := L2(s1, cutoff, ctx.goal);
      !GoalMet(s1, ctx.goal) && !GoalMet(s2, ctx.goal) && !GoalMet(L3(s2, ctx.goal), ctx.goal)
    ensures var cutoff := ctx.profile.lowPriorityCutoff;
      Exhausted(L3(L2(L1(items, ctx.now, ctx.goal), cutoff, ctx.goal), ctx.goal), |items|, ctx.now, cutoff)
  {
    var cutoff := ctx.profile.lowPriorityCutoff;
    var s1 := L1(items, ctx.now, ctx.goal);
    L1Facts(items, ctx.now, ctx.goal);
    OnlyDropsDistinct(items, s1);
    var s2 := L2(s1, cutoff, ctx.goal);
    L2Facts(s1, cutoff, ctx.goal);
    OnlyDropsDistinct(s1, s2);
    var s3 := L3(s2, ctx.goal);
    L3Facts(s2, ctx.goal);
    forall i | 0 <= i < |s3| && IsOptionalSelected(s3[i]) ensures !Droppable(s3[i], ctx.now, cutoff) {
      assert s3[i] in s3;
      DroppableMeans(s3[i], ctx.now, cutoff);
    }
  }

  lemma StageThreeExhausts(items: seq<ContextItem>, reserves: u32, ctx: Context, sink: OffloadSink,
                           summarizer: Summarizer)
    requires DistinctIds(items)
    requires !GoalMet(Stage(6, State(items, reserves, NOTHING_DONE), ctx, sink, summarizer).items, ctx.goal)
    ensures Exhausted(Stage(3, State(items, reserves, NOTHING_DONE), ctx, sink, summarizer).items,
                      |items|, ctx.now, ctx.profile.lowPriorityCutoff)
  {
    var st := State(items, reserves, NOTHING_DONE);
    NeverMet(0, 6, st, ctx, sink, summarizer);
    NeverMet(1, 6, st, ctx, sink, summarizer);
    NeverMet(2, 6, st, ctx, sink, summarizer);
    NeverMet(3, 6, st, ctx, sink, summarizer);
    DropStage(1, st, ctx, sink, summarizer);
    DropStage(2, st, ctx, sink, summarizer);
    DropStage(3, st, ctx, sink, summarizer);
    DropLevelsExhaust(items, ctx);
  }

  /** What the first levels make of the items while the goal is missed. */
  lemma DropStage(n: nat, st: State, ctx: Context, sink: OffloadSink, summarizer: Summarizer)
    requires 1 <= n <= 3 && !GoalMet(Stage(n - 1, st, ctx, sink, summarizer).items, ctx.goal)
    ensures var before := Stage(n - 1, st, ctx, sink, summarizer).items;
      var after := Stage(n, st, ctx, sink, summarizer).items;
      after == if n == 1 then L1(before, ctx.now, ctx.goal)
               else if n == 2 then L2(before, ctx.profile.lowPriorityCutoff, ctx.goal)
               else L3(before, ctx.goal)
  {
    NextItems(LEVELS[n - 1], Stage(n - 1, st, ctx, sink, summarizer), ctx, sink, summarizer);
    DropApply(n, Stage(n - 1, st, ctx, sink, summarizer), ctx, sink, summarizer);
  }

  lemma DropApply(n: nat, st: State, ctx: Context, sink: OffloadSink, summarizer: Summarizer)
    requires 1 <= n <= 3
    ensures Apply(LEVELS[n - 1], st, ctx, sink, summarizer).items
         == if n == 1 then L1(st.items, ctx.now, ctx.goal)
            else if n == 2 then L2(st.items, ctx.profile.lowPriorityCutoff, ctx.goal)
            else L3(st.items, ctx.goal)
  {
    assert LEVELS[0] == ExpiredDuplicateSuperseded && LEVELS[1] == LowPriorityOptional && LEVELS[2] == StaleToolOutputs;
  }

  lemma NextItems(level: LadderLevel, st: State, ctx: Context, sink: OffloadSink, summarizer: Summarizer)
    requires !GoalMet(st.items, ctx.goal)
    ensures Next(level, st, ctx, sink, summarizer).items == Apply(level, st, ctx, sink, summarizer).items
  {
  }

  /** A ladder that missed its goal left nothing that the drop levels could still have dropped. */
  lemma MissedGoalExhausts(items: seq<ContextItem>, reserves: u32, ctx: Context, sink: OffloadSink,
                           summarizer: Summarizer)
    requires Fresh(items)
    requires !GoalMet(RunLadder(items, reserves, ctx, sink, summarizer).items, ctx.goal)
    ensures Exhausted(RunLadder(items, reserves, ctx, sink, summarizer).items, |items|, ctx.now,
                      ctx.profile.lowPriorityCutoff)
  {
    var st := State(items, reserves, NOTHING_DONE);
    RunIsLastStage(items, reserves, ctx, sink, summarizer);
    StageThreeExhausts(items, reserves, ctx, sink, summarizer);
    StageKeeps(3, items, reserves, ctx, sink, summarizer);
    StageKeeps(4, items, reserves, ctx, sink, summarizer);
    LateLevelsKeepExhaustion(3, |items|, Stage(3, st, ctx, sink, summarizer), ctx, sink, summarizer);
    LateLevelsKeepExhaustion(4, |items|, Stage(4, st, ctx, sink, summarizer), ctx, sink, summarizer);
    LateLevelsKeepExhaustion(5, |items|, Stage(5, st, ctx, sink, summarizer), ctx, sink, summarizer);
  }

  lemma LateLevelsKeepExhaustion(level: nat, n: nat, st: State, ctx: Context, sink: OffloadSink, summarizer: Summarizer)
    requires 3 <= level < 6 && (level < 5 ==> DistinctIds(st.items) && n <= |st.items|)
    requires Exhausted(st.items, n, ctx.now, ctx.profile.lowPriorityCutoff)
    ensures Exhausted(Next(LEVELS[level], st, ctx, sink, summarizer).items, n, ctx.now, ctx.profile.lowPriorityCutoff)
  {
    if level == 3 {
      L4Facts(st, ctx, sink);
      DropsKeepExhaustion(st.items, L4(st, ctx, sink).items, n, ctx.now, ctx.profile.lowPriorityCutoff);
    } else if level == 4 {
      L5Facts(st, summarizer);
      CompressionKeepsExhaustion(st, L5(st, summarizer), n, ctx.now, ctx.profile.lowPriorityCutoff);
    }
  }

  // --------------------------------------------------------------------- progress

  /** What the summary replaces is at least what leaves the selection. */
  lemma {:induction false} AbsorbedTokens(p: ContextItem -> bool, ids: seq<string>, s: seq<ContextItem>)
    requires forall x :: p(x) ==> x.selected
    requires forall x :: IsCompressible(x) ==> p(x)
    ensures Tokens(p, Map(AbsorbIf(ids), s)) + Tokens(Among(ids), Filter(IsCompressible, s)) <= Tokens(p, s)
  {
    if s != [] {
      AbsorbedTokens(p, ids, s[1..]);
      var x := s[0];
      var head := if IsCompressible(x) then [x] else [];
      TokensConcat(Among(ids), head, Filter(IsCompressible, s[1..]));
      assert Map(AbsorbIf(ids), s) == [AbsorbIf(ids)(x)] + Map(AbsorbIf(ids), s[1..]);
      TokensConcat(p, [AbsorbIf(ids)(x)], Map(AbsorbIf(ids), s[1..]));
      assert Tokens(Among(ids), head) == if IsCompressible(x) && x.id in ids then x.estimatedTokens else 0;
      assert Tokens(p, [AbsorbIf(ids)(x)]) == if p(AbsorbIf(ids)(x)) then x.estimatedTokens else 0;
    }
  }

  lemma CompressProgress(p: ContextItem -> bool, st: State, summarizer: Summarizer)
    requires DistinctIds(st.items)
    requires forall x :: p(x) ==> x.selected
    requires forall x :: IsCompressible(x) ==> p(x)
    ensures Tokens(p, L5(st, summarizer).items) <= Tokens(p, st.items)
    ensures L5(st, summarizer).outcome.summaries != st.outcome.summaries ==>
              Tokens(p, L5(st, summarizer).items) < Tokens(p, st.items)
  {
    var cs := Filter(IsCompressible, st.items);
    if summarizer.available && |cs| >= 2 && summarizer.summarize(cs).Ok? {
      var summary := summarizer.summarize(cs).value;
      var ids := summary.sourceIds;
      FoldSaturates(0, Among(ids), cs);
      if summary.summaryTokens < FoldTokens(0, Among(ids), cs) {
        TemplateExists(cs, ids);
        AbsorbAllIsMap(st.items, ids);
        AbsorbedTokens(p, ids, st.items);
        var item := SummaryItem(Template(cs, ids).value, summary);
        TokensConcat(p, AbsorbAll(st.items, ids), [item]);
        assert Tokens(p, [item]) <= summary.summaryTokens;
      }
    }
  }

  lemma LevelTokens(n: nat, st: State, ctx: Context, sink: OffloadSink, summarizer: Summarizer)
    requires n < 6 && DistinctIds(st.items)
    ensures var after := Apply(LEVELS[n], st, ctx, sink, summarizer);
      && Tokens(IsSelected, after.items) <= Tokens(IsSelected, st.items)
      && Tokens(IsOptionalSelected, after.items) <= Tokens(IsOptionalSelected, st.items)
      && after.reserves <= st.reserves
      && (after.outcome.summaries != st.outcome.summaries ==>
          Tokens(IsSelected, after.items) < Tokens(IsSelected, st.items))
  {
    if n < 4 {
      EarlyLevelDrops(n, st, ctx, sink, summarizer);
      SameShape(st.items, Apply(LEVELS[n], st, ctx, sink, summarizer).items);
    } else if n == 4 {
      CompressProgress(IsSelected, st, summarizer);
      CompressProgress(IsOptionalSelected, st, summarizer);
    } else {
      L6Facts(st, ctx.profile);
    }
  }

  /** No level ever increases the context or the optional total, for any store and any summarizer;
      and a compression that is recorded strictly shrinks both. */
  lemma LevelProgress(n: nat, st: State, ctx: Context, sink: OffloadSink, summarizer: Summarizer)
    requires n < 6 && DistinctIds(st.items)
    ensures var after := Apply(LEVELS[n], st, ctx, sink, summarizer);
      && Tokens(IsSelected, after.items) <= Tokens(IsSelected, st.items)
      && Tokens(IsOptionalSelected, after.items) + after.reserves <= Tokens(IsOptionalSelected, st.items) + st.reserves
      && (after.outcome.summaries != st.outcome.summaries ==>
          Tokens(IsSelected, after.items) < Tokens(IsSelected, st.items))
      && ContextTokens(after.items) <= ContextTokens(st.items)
      && LadderTotal(after.items, after.reserves) <= LadderTotal(st.items, st.reserves)
  {
    var after := Apply(LEVELS[n], st, ctx, sink, summarizer);
    LevelTokens(n, st, ctx, sink, summarizer);
    ContextExact(st.items);
    ContextExact(after.items);
    LadderTotalExact(st.items, st.reserves);
    LadderTotalExact(after.items, after.reserves);
  }

  lemma SameShape(a: seq<ContextItem>, b: seq<ContextItem>)
    requires OnlyDrops(a, b) || OnlyOffloads(a, b)
    ensures Tokens(IsSelected, b) <= Tokens(IsSelected, a)
    ensures Tokens(IsOptionalSelected, b) <= Tokens(IsOptionalSelected, a)
  {
    TokensShrink(IsSelected, a, b);
    TokensShrink(IsOptionalSelected, a, b);
  }

  // -------------------------------------------------------------- the run as a whole

  /** For any artifact store and any summarizer: every item is accounted for, mandatory items are untouched unless a
      summary claims them, the protected reserves survive and the levels that helped are recorded in ascending order. */
  lemma LadderKeeps(items: seq<ContextItem>, reserves: u32, ctx: Context, sink: OffloadSink, summarizer: Summarizer)
    requires Fresh(items)
    ensures Kept(6, items, reserves, ctx.profile, RunLadder(items, reserves, ctx, sink, summarizer))
  {
    RunIsLastStage(items, reserves, ctx, sink, summarizer);
    StageKeeps(6, items, reserves, ctx, sink, summarizer);
  }

  lemma NextSummaries(n: nat, st: State, ctx: Context, sink: OffloadSink, summarizer: Summarizer)
    requires n == 4 || n == 5
    ensures var after := Next(LEVELS[n], st, ctx, sink, summarizer).outcome.summaries;
      after == st.outcome.summaries || (n == 4 && after == L5(st, summarizer).outcome.summaries)
  {
    assert LEVELS[4] == CompressHistory && LEVELS[5] == ReleaseOptionalReserves;
  }

  /** The summaries of a run are those its fifth level found or made. */
  lemma RunSummaries(items: seq<ContextItem>, reserves: u32, ctx: Context, sink: OffloadSink, summarizer: Summarizer)
    ensures var s4 := Stage(4, State(items, reserves, NOTHING_DONE), ctx, sink, summarizer);
      var summaries := RunLadder(items, reserves, ctx, sink, summarizer).outcome.summaries;
      summaries == s4.outcome.summaries || summaries == L5(s4, summarizer).outcome.summaries
  {
    var st := State(items, reserves, NOTHING_DONE);
    RunIsLastStage(items, reserves, ctx, sink, summarizer);
    NextSummaries(4, Stage(4, st, ctx, sink, summarizer), ctx, sink, summarizer);
    NextSummaries(5, Stage(5, st, ctx, sink, summarizer), ctx, sink, summarizer);
  }

  lemma OptionalSources(start: seq<ContextItem>, a: State, b: State, x: ContextItem)
    requires Accounted(start, a) && a.outcome.summaries == [] && NamesOptional(a, b) && x in start && IsMandatory(x)
    ensures !IsSource(b.outcome.summaries, x.id)
  {
    var i :| 0 <= i < |start| && start[i] == x;
    assert AccountedAs([], start[i], a.items[i]);
    assert a.items[i] in a.items;
  }

  /** A summarizer that names only what it was given claims nothing mandatory. */
  lemma HonestSparesMandatory(items: seq<ContextItem>, reserves: u32, ctx: Context, sink: OffloadSink,
                              summarizer: Summarizer, x: ContextItem)
    requires Honest(summarizer) && Fresh(items) && x in items && IsMandatory(x)
    ensures !IsSource(RunLadder(items, reserves, ctx, sink, summarizer).outcome.summaries, x.id)
  {
    var s4 := Stage(4, State(items, reserves, NOTHING_DONE), ctx, sink, summarizer);
    StageKeeps(4, items, reserves, ctx, sink, summarizer);
    RunSummaries(items, reserves, ctx, sink, summarizer);
    HonestNamesOptional(s4, summarizer);
    OptionalSources(items, s4, L5(s4, summarizer), x);
  }
}
