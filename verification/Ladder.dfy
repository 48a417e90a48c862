/**
 The reduction ladder over a mutable selection (crates/context-budget/src/ladder.rs).

 Each level is stated as a function on the items, and the methods of `Selection`,
 which change `items` and `reserves` in place, are proved to compute it.
 */
module Ladder {
  import opened Machine
  import opened Order
  import opened Items
  import opened Profiles
  import opened Pruning

  datatype LadderLevel =
    | ExpiredDuplicateSuperseded | LowPriorityOptional | StaleToolOutputs
    | OffloadLargeItems | CompressHistory | ReleaseOptionalReserves

  const LEVELS: seq<LadderLevel> :=
    [ExpiredDuplicateSuperseded, LowPriorityOptional, StaleToolOutputs,
     OffloadLargeItems, CompressHistory, ReleaseOptionalReserves]

  datatype OffloadOutcome = OffloadOutcome(locator: string, summaryTokens: u32, offloadedBytes: u64)

  /** Any artifact store: its answer may depend on how often it was called. */
  datatype OffloadSink = OffloadSink(available: bool, offload: (nat, ContextItem) -> Result<OffloadOutcome, string>)

  datatype SummaryOutcome = SummaryOutcome(
    summaryId: string, sourceIds: seq<string>, summaryTokens: u32,
    summarizerVersion: string, fallback: bool, fallbackReason: Option<string>)

  /** Any summarizer; the ladder consults it at most once. */
  datatype Summarizer = Summarizer(available: bool, summarize: seq<ContextItem> -> Result<SummaryOutcome, string>)

  datatype Diagnostic = Diagnostic(level: LadderLevel, code: string)

  datatype Outcome = Outcome(
    levelsApplied: seq<LadderLevel>, diagnostics: seq<Diagnostic>, summaries: seq<SummaryOutcome>,
    offloadedBytes: u64, reservesReleased: u32)

  const NOTHING_DONE: Outcome := Outcome([], [], [], 0, 0)

  datatype Context = Context(now: i64, profile: Profile, goal: u32, allowReserveRelease: bool)

  /** Items, remaining reserves and the outcome gathered so far. */
  datatype State = State(items: seq<ContextItem>, reserves: u32, outcome: Outcome)

  // ------------------------------------------------------------------ totals

  predicate IsMandatorySelected(x: ContextItem) {
    x.selected && IsMandatory(x)
  }

  function MandatoryTokens(items: seq<ContextItem>): u32 {
    FoldTokens(0, IsMandatorySelected, items)
  }

  function OptionalTokens(items: seq<ContextItem>): u32 {
    FoldTokens(0, IsOptionalSelected, items)
  }

  function ContextTokens(items: seq<ContextItem>): u32 {
    SatAdd(MandatoryTokens(items), OptionalTokens(items))
  }

  function LadderTotal(items: seq<ContextItem>, reserves: u32): u32 {
    SatAdd(OptionalTokens(items), reserves)
  }

  predicate GoalMet(items: seq<ContextItem>, goal: u32) {
    ContextTokens(items) <= goal
  }

  // ----------------------------------------------------------- drop levels L1-L3

  function Candidate(eligible: ContextItem -> bool): ContextItem -> bool {
    (x: ContextItem) => IsOptionalSelected(x) && eligible(x)
  }

  /** `ordered_candidates`: eligible optional items in drop order. */
  function OrderedCandidates(items: seq<ContextItem>, eligible: ContextItem -> bool): seq<string> {
    Ids(SortBy(DropKey, Filter(Candidate(eligible), items)))
  }

  function Drop(reason: DropReason): ContextItem -> ContextItem {
    (x: ContextItem) => Discarded(x, reason)
  }

  /** One visit of a drop loop. */
  function Visit(items: seq<ContextItem>, id: string, decide: ContextItem -> Option<DropReason>): seq<ContextItem> {
    var found := Find(items, id);
    if found.None? || decide(found.value).None? then items
    else UpdateFirst(items, id, Drop(decide(found.value).value))
  }

  /** Visits `ids` in order until the goal is met. */
  function DropLoop(items: seq<ContextItem>, ids: seq<string>, decide: ContextItem -> Option<DropReason>, goal: u32)
    : seq<ContextItem>
    decreases |ids|
  {
    if ids == [] || GoalMet(items, goal) then items
    else DropLoop(Visit(items, ids[0], decide), ids[1..], decide, goal)
  }

  function MandatoryHashes(items: seq<ContextItem>): set<string> {
    set x | x in items && IsMandatory(x) :: x.contentHash
  }

  /** Ids whose content hash was seen before them. */
  function DuplicateIds(items: seq<ContextItem>, ids: seq<string>, seen: set<string>): seq<string>
    decreases |ids|
  {
    if ids == [] then []
    else
      var found := Find(items, ids[0]);
      if found.None? then DuplicateIds(items, ids[1..], seen)
      else if found.value.contentHash in seen then [ids[0]] + DuplicateIds(items, ids[1..], seen)
      else DuplicateIds(items, ids[1..], seen + {found.value.contentHash})
  }

  function Reversed<T>(s: seq<T>): seq<T> {
    if s == [] then [] else Reversed(s[1..]) + [s[0]]
  }

  predicate Anything(x: ContextItem) {
    true
  }

  function RedundancyReason(now: i64, duplicates: seq<string>, newest: map<string, Revision>)
    : ContextItem -> Option<DropReason>
  {
    (x: ContextItem) =>
      if !x.selected then None
      else if IsExpired(x, now) then Some(Expired)
      else if x.id in duplicates then Some(Duplicate)
      else if Outdated(newest, x) then Some(Superseded)
      else None
  }

  function L1Reason(items: seq<ContextItem>, now: i64): ContextItem -> Option<DropReason> {
    var ordered := OrderedCandidates(items, Anything);
    RedundancyReason(now, DuplicateIds(items, Reversed(ordered), MandatoryHashes(items)), NewestRevisions(items))
  }

  function L1(items: seq<ContextItem>, now: i64, goal: u32): seq<ContextItem> {
    DropLoop(items, OrderedCandidates(items, Anything), L1Reason(items, now), goal)
  }

  function BelowCutoff(cutoff: u8): ContextItem -> bool {
    (x: ContextItem) => EffectivePriority(x) < cutoff
  }

  function Always(reason: DropReason): ContextItem -> Option<DropReason> {
    (x: ContextItem) => Some(reason)
  }

  function L2(items: seq<ContextItem>, cutoff: u8, goal: u32): seq<ContextItem> {
    DropLoop(items, OrderedCandidates(items, BelowCutoff(cutoff)), Always(LowPriority), goal)
  }

  predicate IsStaleTool(x: ContextItem) {
    IsOptionalSelected(x) && x.kind.ToolResult? && x.toolPairComplete
  }

  function StaleCandidates(items: seq<ContextItem>): seq<string> {
    Ids(SortBy(StaleKey, Filter(IsStaleTool, items)))
  }

  function L3(items: seq<ContextItem>, goal: u32): seq<ContextItem> {
    DropLoop(items, StaleCandidates(items), Always(StaleToolOutput), goal)
  }

  // --------------------------------------------------------- offload level L4

  function Offloadable(threshold: u64): ContextItem -> bool {
    (x: ContextItem) => x.bytes > threshold && AllowsOffload(x.privacy) && x.artifactLocator.None?
  }

  function Replace(outcome: OffloadOutcome): ContextItem -> ContextItem {
    (x: ContextItem) => x.(estimatedTokens := outcome.summaryTokens,
                           artifactLocator := Some(outcome.locator),
                           dropReason := Some(Offloaded))
  }

  function OffloadLoop(st: State, ids: seq<string>, goal: u32, sink: OffloadSink, calls: nat): State
    decreases |ids|
  {
    if ids == [] || GoalMet(st.items, goal) then st
    else
      var found := Find(st.items, ids[0]);
      if found.None? then OffloadLoop(st, ids[1..], goal, sink, calls)
      else match sink.offload(calls, found.value)
        case Err(_) =>
          st.(outcome := AddDiagnostic(st.outcome, OffloadLargeItems, "artifact_write_failed"))
        case Ok(result) =>
          if result.summaryTokens >= found.value.estimatedTokens then OffloadLoop(st, ids[1..], goal, sink, calls + 1)
          else
            var bytes := SatAdd64(st.outcome.offloadedBytes, result.offloadedBytes);
            OffloadLoop(st.(items := UpdateFirst(st.items, ids[0], Replace(result)),
                            outcome := st.outcome.(offloadedBytes := bytes)),
                        ids[1..], goal, sink, calls + 1)
  }

  function AddDiagnostic(outcome: Outcome, level: LadderLevel, code: string): Outcome {
    outcome.(diagnostics := outcome.diagnostics + [Diagnostic(level, code)])
  }

  function L4(st: State, ctx: Context, sink: OffloadSink): State {
    if !sink.available then
      st.(outcome := AddDiagnostic(st.outcome, OffloadLargeItems, "artifact_store_unavailable"))
    else
      OffloadLoop(st, OrderedCandidates(st.items, Offloadable(ctx.profile.offloadThresholdBytes)), ctx.goal, sink, 0)
  }

  // ----------------------------------------------------- compression level L5

  predicate IsCompressible(x: ContextItem) {
    IsOptionalSelected(x) && (x.kind.History? || x.kind.ToolResult?)
  }

  function Among(ids: seq<string>): ContextItem -> bool {
    (x: ContextItem) => x.id in ids
  }

  function Absorb(): ContextItem -> ContextItem {
    (x: ContextItem) => x.(selected := false, dropReason := None)
  }

  function AbsorbAll(items: seq<ContextItem>, ids: seq<string>): seq<ContextItem>
    decreases |ids|
  {
    if ids == [] then items else AbsorbAll(UpdateFirst(items, ids[0], Absorb()), ids[1..])
  }

  /** The first candidate that went into the summary. */
  function Template(candidates: seq<ContextItem>, ids: seq<string>): Option<ContextItem> {
    if candidates == [] then None
    else if candidates[0].id in ids then Some(candidates[0])
    else Template(candidates[1..], ids)
  }

  function SummaryItem(template: ContextItem, summary: SummaryOutcome): ContextItem {
    template.(id := summary.summaryId, kind := Summary, estimatedTokens := summary.summaryTokens,
              selected := true, dropReason := None, pinned := false)
  }

  function Compress(items: seq<ContextItem>, candidates: seq<ContextItem>, summary: SummaryOutcome): seq<ContextItem> {
    var template := Template(candidates, summary.sourceIds);
    AbsorbAll(items, summary.sourceIds) + (if template.Some? then [SummaryItem(template.value, summary)] else [])
  }

  function L5(st: State, summarizer: Summarizer): State {
    var candidates := Filter(IsCompressible, st.items);
    if !summarizer.available then
      st.(outcome := AddDiagnostic(st.outcome, CompressHistory, "summarizer_unavailable"))
    else if |candidates| < 2 then
      st.(outcome := AddDiagnostic(st.outcome, CompressHistory, "summarizer_input_too_small"))
    else match summarizer.summarize(candidates)
      case Err(_) => st.(outcome := AddDiagnostic(st.outcome, CompressHistory, "summarizer_failed"))
      case Ok(summary) =>
        if summary.summaryTokens >= FoldTokens(0, Among(summary.sourceIds), candidates) then
          st.(outcome := AddDiagnostic(st.outcome, CompressHistory, "summary_not_smaller"))
        else
          st.(items := Compress(st.items, candidates, summary),
              outcome := st.outcome.(summaries := st.outcome.summaries + [summary]))
  }

  /** Whether a recorded summary stands for the item. */
  predicate IsSource(summaries: seq<SummaryOutcome>, id: string) {
    exists k :: 0 <= k < |summaries| && id in summaries[k].sourceIds
  }

  // --------------------------------------------------------- reserve level L6

  function ProtectedReserves(p: Profile): u32 {
    SatAdd(p.toolCallReserve, p.finalAnswerReserve)
  }

  function Releasable(reserves: u32, p: Profile): u32 {
    Min(SatAdd(SatAdd(p.retryReserve, p.streamingReserve), p.toolSchemaReserve),
        SatSub(reserves, ProtectedReserves(p)))
  }

  /** The first `n` optional reserves in the order they are given up. */
  function Offered(p: Profile, n: nat): nat {
    var retry: nat, streaming: nat, schema: nat := p.retryReserve, p.streamingReserve, p.toolSchemaReserve;
    (if n > 0 then retry else 0) + (if n > 1 then streaming else 0) + (if n > 2 then schema else 0)
  }

  /** Releases every optional reserve at once, never the protected ones. */
  function L6(st: State, p: Profile): State {
    var releasable := Releasable(st.reserves, p);
    if releasable == 0 then st
    else st.(reserves := st.reserves - releasable, outcome := st.outcome.(reservesReleased := releasable))
  }

  // ------------------------------------------------------------ the whole ladder

  function Apply(level: LadderLevel, st: State, ctx: Context, sink: OffloadSink, summarizer: Summarizer): State {
    match level
    case ExpiredDuplicateSuperseded => st.(items := L1(st.items, ctx.now, ctx.goal))
    case LowPriorityOptional => st.(items := L2(st.items, ctx.profile.lowPriorityCutoff, ctx.goal))
    case StaleToolOutputs => st.(items := L3(st.items, ctx.goal))
    case OffloadLargeItems => L4(st, ctx, sink)
    case CompressHistory => L5(st, summarizer)
    case ReleaseOptionalReserves => if ctx.allowReserveRelease then L6(st, ctx.profile) else st
  }

  /** One round of the ladder: skipped once the goal is met, recorded if it shrank the total. */
  function Next(level: LadderLevel, st: State, ctx: Context, sink: OffloadSink, summarizer: Summarizer): State {
    if GoalMet(st.items, ctx.goal) then st
    else
      var after := Apply(level, st, ctx, sink, summarizer);
      if LadderTotal(after.items, after.reserves) < LadderTotal(st.items, st.reserves)
      then after.(outcome := after.outcome.(levelsApplied := after.outcome.levelsApplied + [level]))
      else after
  }

  function Climb(levels: seq<LadderLevel>, st: State, ctx: Context, sink: OffloadSink, summarizer: Summarizer): State
    decreases |levels|
  {
    if levels == [] then st else Climb(levels[1..], Next(levels[0], st, ctx, sink, summarizer), ctx, sink, summarizer)
  }

  /** `run_ladder`. */
  function RunLadder(items: seq<ContextItem>, reserves: u32, ctx: Context, sink: OffloadSink,
                     summarizer: Summarizer): State
  {
    Climb(LEVELS, State(items, reserves, NOTHING_DONE), ctx, sink, summarizer)
  }

  // ------------------------------------------------------ the mutable selection

  function Select(x: ContextItem): ContextItem {
    x.(selected := true, dropReason := None)
  }

  class Selection {
    var items: seq<ContextItem>
    var reserves: u32

    /** Selects every item it is given. */
    constructor (items: seq<ContextItem>, reserves: u32)
      ensures this.items == Map(Select, items) && this.reserves == reserves
    {
      this.items := Map(Select, items);
      this.reserves := reserves;
    }

    method DropItem(id: string, reason: DropReason)
      modifies this`items
      ensures items == UpdateFirst(old(items), id, Drop(reason))
    {
      var i := 0;
      while i < |items| && items[i].id != id
        invariant 0 <= i <= |items| && items == old(items)
        invariant UpdateFirst(items, id, Drop(reason)) == items[..i] + UpdateFirst(items[i..], id, Drop(reason))
      {
        i := i + 1;
      }
      if i < |items| {
        items := items[i := Discarded(items[i], reason)];
      }
    }

    /** The common loop of L1, L2 and L3. */
    method DropUntilGoal(ids: seq<string>, decide: ContextItem -> Option<DropReason>, goal: u32)
      modifies this`items
      ensures items == DropLoop(old(items), ids, decide, goal)
    {
      var i := 0;
      while i < |ids| && !GoalMet(items, goal)
        invariant 0 <= i <= |ids|
        invariant DropLoop(old(items), ids, decide, goal) == DropLoop(items, ids[i..], decide, goal)
      {
        var found := Find(items, ids[i]);
        if found.Some? && decide(found.value).Some? {
          DropItem(ids[i], decide(found.value).value);
        }
        i := i + 1;
      }
    }

    /** Walks the candidates from most to least valuable and collects repeated contents. */
    method CollectDuplicates(order: seq<string>) returns (duplicates: seq<string>)
      ensures duplicates == DuplicateIds(items, order, MandatoryHashes(items))
    {
      var seen := MandatoryHashes(items);
      duplicates := [];
      for i := 0 to |order|
        invariant duplicates + DuplicateIds(items, order[i..], seen)
             == DuplicateIds(items, order, MandatoryHashes(items))
      {
        var found := Find(items, order[i]);
        if found.Some? {
          if found.value.contentHash in seen {
            duplicates := duplicates + [order[i]];
          } else {
            seen := seen + {found.value.contentHash};
          }
        }
      }
    }

    method ApplyL1(ctx: Context)
      modifies this`items
      ensures items == L1(old(items), ctx.now, ctx.goal)
    {
      var newest := TabulateRevisions(items);
      var ordered := OrderedCandidates(items, Anything);
      var duplicates := CollectDuplicates(Reversed(ordered));
      DropUntilGoal(ordered, RedundancyReason(ctx.now, duplicates, newest), ctx.goal);
    }

    method ApplyL2(ctx: Context)
      modifies this`items
      ensures items == L2(old(items), ctx.profile.lowPriorityCutoff, ctx.goal)
    {
      DropUntilGoal(OrderedCandidates(items, BelowCutoff(ctx.profile.lowPriorityCutoff)), Always(LowPriority),
                    ctx.goal);
    }

    method ApplyL3(ctx: Context)
      modifies this`items
      ensures items == L3(old(items), ctx.goal)
    {
      DropUntilGoal(StaleCandidates(items), Always(StaleToolOutput), ctx.goal);
    }

    method ApplyL4(ctx: Context, sink: OffloadSink, outcome: Outcome) returns (after: Outcome)
      modifies this`items
      ensures State(items, reserves, after) == L4(State(old(items), reserves, outcome), ctx, sink)
    {
      after := outcome;
      if !sink.available {
        return AddDiagnostic(after, OffloadLargeItems, "artifact_store_unavailable");
      }
      var ids := OrderedCandidates(items, Offloadable(ctx.profile.offloadThresholdBytes));
      var i, calls := 0, 0;
      while i < |ids| && !GoalMet(items, ctx.goal)
        invariant 0 <= i <= |ids|
        invariant OffloadLoop(State(items, reserves, after), ids[i..], ctx.goal, sink, calls)
               == OffloadLoop(State(old(items), reserves, outcome), ids, ctx.goal, sink, 0)
      {
        var found := Find(items, ids[i]);
        if found.Some? {
          match sink.offload(calls, found.value) {
            case Err(_) =>
              return AddDiagnostic(after, OffloadLargeItems, "artifact_write_failed");
            case Ok(result) =>
              if result.summaryTokens < found.value.estimatedTokens {
                items := UpdateFirst(items, ids[i], Replace(result));
                after := after.(offloadedBytes := SatAdd64(after.offloadedBytes, result.offloadedBytes));
              }
          }
          calls := calls + 1;
        }
        i := i + 1;
      }
    }

    method ApplyL5(summarizer: Summarizer, outcome: Outcome) returns (after: Outcome)
      modifies this`items
      ensures State(items, reserves, after) == L5(State(old(items), reserves, outcome), summarizer)
    {
      if !summarizer.available {
        return AddDiagnostic(outcome, CompressHistory, "summarizer_unavailable");
      }
      var candidates := Filter(IsCompressible, items);
      if |candidates| < 2 {
        return AddDiagnostic(outcome, CompressHistory, "summarizer_input_too_small");
      }
      var answer := summarizer.summarize(candidates);
      if answer.Err? {
        return AddDiagnostic(outcome, CompressHistory, "summarizer_failed");
      }
      var summary := answer.value;
      if summary.summaryTokens >= FoldTokens(0, Among(summary.sourceIds), candidates) {
        return AddDiagnostic(outcome, CompressHistory, "summary_not_smaller");
      }
      var ids := summary.sourceIds;
      for i := 0 to |ids|
        invariant AbsorbAll(items, ids[i..]) == AbsorbAll(old(items), ids)
      {
        items := UpdateFirst(items, ids[i], Absorb());
      }
      var template := Template(candidates, ids);
      if template.Some? {
        items := items + [SummaryItem(template.value, summary)];
      }
      return outcome.(summaries := outcome.summaries + [summary]);
    }

    /** Gives up retry, streaming and schema reserves, in that order, down to what is protected. */
    method ApplyL6(p: Profile, outcome: Outcome) returns (after: Outcome)
      modifies this`reserves
      ensures State(items, reserves, after) == L6(State(items, old(reserves), outcome), p)
    {
      var releasable := Releasable(reserves, p);
      if releasable == 0 {
        return outcome;
      }
      var order := [p.retryReserve, p.streamingReserve, p.toolSchemaReserve];
      var released: u32 := 0;
      var i := 0;
      while i < 3 && released < releasable
        invariant 0 <= i <= 3
        invariant released <= releasable && reserves == old(reserves) - released
        invariant released == Min(releasable, Offered(p, i))
      {
        var step: u32 := Min(order[i], releasable - released);
        released := released + step;
        reserves := SatSub(reserves, step);
        i := i + 1;
      }
      return outcome.(reservesReleased := released);
    }

    method ApplyLevel(level: LadderLevel, ctx: Context, sink: OffloadSink, summarizer: Summarizer, outcome: Outcome)
      returns (after: Outcome)
      modifies this
      ensures State(items, reserves, after)
           == Apply(level, State(old(items), old(reserves), outcome), ctx, sink, summarizer)
    {
      after := outcome;
      match level
      case ExpiredDuplicateSuperseded => ApplyL1(ctx);
      case LowPriorityOptional => ApplyL2(ctx);
      case StaleToolOutputs => ApplyL3(ctx);
      case OffloadLargeItems => after := ApplyL4(ctx, sink, outcome);
      case CompressHistory => after := ApplyL5(summarizer, outcome);
      case ReleaseOptionalReserves =>
        if ctx.allowReserveRelease { after := ApplyL6(ctx.profile, outcome); }
    }

    method Run(ctx: Context, sink: OffloadSink, summarizer: Summarizer) returns (outcome: Outcome)
      modifies this
      ensures State(items, reserves, outcome) == RunLadder(old(items), old(reserves), ctx, sink, summarizer)
    {
      outcome := NOTHING_DONE;
      var i := 0;
      while i < |LEVELS| && !GoalMet(items, ctx.goal)
        invariant 0 <= i <= |LEVELS|
        invariant Climb(LEVELS[i..], State(items, reserves, outcome), ctx, sink, summarizer)
               == RunLadder(old(items), old(reserves), ctx, sink, summarizer)
      {
        var before := LadderTotal(items, reserves);
        outcome := ApplyLevel(LEVELS[i], ctx, sink, summarizer, outcome);
        if LadderTotal(items, reserves) < before {
          outcome := outcome.(levelsApplied := outcome.levelsApplied + [LEVELS[i]]);
        }
        i := i + 1;
      }
      StopsAtGoal(LEVELS[i..], State(items, reserves, outcome), ctx, sink, summarizer);
    }
  }

  /** Once the goal is met the remaining levels do nothing, which is what leaving the loop does. */
  lemma {:induction false} StopsAtGoal(levels: seq<LadderLevel>, st: State, ctx: Context, sink: OffloadSink,
                                       summarizer: Summarizer)
    requires levels == [] || GoalMet(st.items, ctx.goal)
    ensures Climb(levels, st, ctx, sink, summarizer) == st
    decreases |levels|
  {
    if levels != [] { StopsAtGoal(levels[1..], st, ctx, sink, summarizer); }
  }
}
