/**
 The ladder does not see the order in which its items were given.
 */
module LadderOrder {
  import opened Machine
  import opened Order
  import opened Items
  import opened Pruning
  import opened Ladder
  import opened LadderFacts

  ghost predicate SameState(a: State, b: State) {
    SameItems(a.items, b.items) && a.reserves == b.reserves && a.outcome == b.outcome
  }

  /** The same items in two arrangements, followed by the same appended item, if any. */
  ghost predicate Alike(a: State, b: State, tail: seq<ContextItem>) {
    && a.reserves == b.reserves && a.outcome == b.outcome
    && |tail| <= 1 && (forall x :: x in tail ==> IsOptionalSelected(x))
    && |tail| <= |a.items| && |tail| <= |b.items|
    && var m, n := |a.items| - |tail|, |b.items| - |tail|;
       SameItems(a.items[..m], b.items[..n]) && a.items[m..] == tail && b.items[n..] == tail
  }

  lemma SameIsAlike(a: State, b: State)
    requires SameState(a, b)
    ensures Alike(a, b, [])
  {
    assert a.items[..|a.items|] == a.items && b.items[..|b.items|] == b.items;
  }

  lemma TotalsForgetOrder(a: seq<ContextItem>, b: seq<ContextItem>, reserves: u32)
    requires multiset(a) == multiset(b)
    ensures ContextTokens(a) == ContextTokens(b)
    ensures LadderTotal(a, reserves) == LadderTotal(b, reserves)
  {
    ContextExact(a);
    ContextExact(b);
    LadderTotalExact(a, reserves);
    LadderTotalExact(b, reserves);
    TokensForgetOrder(IsSelected, a, b);
    TokensForgetOrder(IsOptionalSelected, a, b);
  }

  lemma CandidatesForgetOrder(key: ContextItem -> Key, p: ContextItem -> bool, a: seq<ContextItem>, b: seq<ContextItem>)
    requires SameItems(a, b)
    requires forall x, y :: key(x) == key(y) ==> x.id == y.id
    ensures SortBy(key, Filter(p, a)) == SortBy(key, Filter(p, b))
  {
    FilterKeepsSame(p, a, b);
    SortKeepsOne(key, Filter(p, a), Filter(p, b));
  }

  lemma VisitForgetsOrder(a: seq<ContextItem>, b: seq<ContextItem>, id: string,
                          decide: ContextItem -> Option<DropReason>)
    requires SameItems(a, b)
    ensures SameItems(Visit(a, id, decide), Visit(b, id, decide))
  {
    FindForgetsOrder(a, b, id);
    var found := Find(a, id);
    if found.Some? && decide(found.value).Some? { UpdateKeepsSame(a, b, id, Drop(decide(found.value).value)); }
  }

  lemma {:induction false} DropLoopForgetsOrder(a: seq<ContextItem>, b: seq<ContextItem>, ids: seq<string>,
      decide: ContextItem -> Option<DropReason>, goal: u32)
    requires SameItems(a, b)
    ensures SameItems(DropLoop(a, ids, decide, goal), DropLoop(b, ids, decide, goal))
    decreases |ids|
  {
    TotalsForgetOrder(a, b, 0);
    if ids != [] && !GoalMet(a, goal) {
      VisitForgetsOrder(a, b, ids[0], decide);
      DropLoopForgetsOrder(Visit(a, ids[0], decide), Visit(b, ids[0], decide), ids[1..], decide, goal);
    }
  }

  lemma {:induction false} DuplicatesForgetOrder(a: seq<ContextItem>, b: seq<ContextItem>, ids: seq<string>,
      seen: set<string>)
    requires SameItems(a, b)
    ensures DuplicateIds(a, ids, seen) == DuplicateIds(b, ids, seen)
    decreases |ids|
  {
    if ids != [] {
      FindForgetsOrder(a, b, ids[0]);
      var found := Find(a, ids[0]);
      DuplicatesForgetOrder(a, b, ids[1..], seen);
      if found.Some? { DuplicatesForgetOrder(a, b, ids[1..], seen + {found.value.contentHash}); }
    }
  }

  /** The revision table depends on the items, not on their order. */
  lemma RevisionsForgetOrder(a: seq<ContextItem>, b: seq<ContextItem>)
    requires SameItems(a, b)
    ensures NewestRevisions(a) == NewestRevisions(b)
  {
    Members(a, b);
    KeysNameIds();
    var ma, mb := NewestRevisions(a), NewestRevisions(b);
    forall p ensures (p in ma <==> p in mb) && (p in ma && p in mb ==> ma[p] == mb[p]) {
      NewestRanks(a, p);
      NewestRanks(b, p);
      if p in ma && p in mb {
        var w :| Supersedes(a, p, w) && RevisionOf(w) == ma[p];
        var v :| Supersedes(b, p, v) && RevisionOf(v) == mb[p];
        LeqTotal(RevisionKey(w), RevisionKey(v));
        SameId(a, w, v);
      }
    }
    assert ma.Keys == mb.Keys;
  }

  lemma L1ForgetsOrder(a: seq<ContextItem>, b: seq<ContextItem>, now: i64, goal: u32)
    requires SameItems(a, b)
    ensures SameItems(L1(a, now, goal), L1(b, now, goal))
  {
    KeysNameIds();
    CandidatesForgetOrder(DropKey, Candidate(Anything), a, b);
    Members(a, b);
    assert MandatoryHashes(a) == MandatoryHashes(b);
    var ordered := OrderedCandidates(a, Anything);
    DuplicatesForgetOrder(a, b, Reversed(ordered), MandatoryHashes(a));
    RevisionsForgetOrder(a, b);
    DropLoopForgetsOrder(a, b, ordered, L1Reason(a, now), goal);
  }

  lemma {:induction false} OffloadLoopForgetsOrder(a: State, b: State, ids: seq<string>, goal: u32, sink: OffloadSink,
      calls: nat)
    requires SameState(a, b)
    ensures SameState(OffloadLoop(a, ids, goal, sink, calls), OffloadLoop(b, ids, goal, sink, calls))
    decreases |ids|
  {
    TotalsForgetOrder(a.items, b.items, 0);
    if ids != [] && !GoalMet(a.items, goal) {
      FindForgetsOrder(a.items, b.items, ids[0]);
      var found := Find(a.items, ids[0]);
      if found.None? {
        OffloadLoopForgetsOrder(a, b, ids[1..], goal, sink, calls);
      } else {
        var answer := sink.offload(calls, found.value);
        if answer.Ok? {
          OffloadLoopForgetsOrder(a, b, ids[1..], goal, sink, calls + 1);
          UpdateKeepsSame(a.items, b.items, ids[0], Replace(answer.value));
          var outcome := a.outcome.(offloadedBytes := SatAdd64(a.outcome.offloadedBytes, answer.value.offloadedBytes));
          OffloadLoopForgetsOrder(a.(items := UpdateFirst(a.items, ids[0], Replace(answer.value)), outcome := outcome),
                                  b.(items := UpdateFirst(b.items, ids[0], Replace(answer.value)), outcome := outcome),
                                  ids[1..], goal, sink, calls + 1);
        }
      }
    }
  }

  lemma L4ForgetsOrder(a: State, b: State, ctx: Context, sink: OffloadSink)
    requires SameState(a, b)
    ensures SameState(L4(a, ctx, sink), L4(b, ctx, sink))
  {
    KeysNameIds();
    var eligible := Offloadable(ctx.profile.offloadThresholdBytes);
    CandidatesForgetOrder(DropKey, Candidate(eligible), a.items, b.items);
    OffloadLoopForgetsOrder(a, b, OrderedCandidates(a.items, eligible), ctx.goal, sink, 0);
  }

  lemma ApplyForgetsOrder(level: LadderLevel, a: State, b: State, ctx: Context, sink: OffloadSink,
                          summarizer: Summarizer)
    requires SameState(a, b) && (level.CompressHistory? ==> !summarizer.available)
    ensures SameState(Apply(level, a, ctx, sink, summarizer), Apply(level, b, ctx, sink, summarizer))
  {
    KeysNameIds();
    match level {
      case ExpiredDuplicateSuperseded =>
        L1ForgetsOrder(a.items, b.items, ctx.now, ctx.goal);
      case LowPriorityOptional =>
        var cutoff := BelowCutoff(ctx.profile.lowPriorityCutoff);
        CandidatesForgetOrder(DropKey, Candidate(cutoff), a.items, b.items);
        DropLoopForgetsOrder(a.items, b.items, OrderedCandidates(a.items, cutoff), Always(LowPriority), ctx.goal);
      case StaleToolOutputs =>
        CandidatesForgetOrder(StaleKey, IsStaleTool, a.items, b.items);
        DropLoopForgetsOrder(a.items, b.items, StaleCandidates(a.items), Always(StaleToolOutput), ctx.goal);
      case OffloadLargeItems =>
        L4ForgetsOrder(a, b, ctx, sink);
      case CompressHistory =>
      case ReleaseOptionalReserves =>
    }
  }

  lemma NextForgetsOrder(level: LadderLevel, a: State, b: State, ctx: Context, sink: OffloadSink,
                         summarizer: Summarizer)
    requires SameState(a, b) && (level.CompressHistory? ==> !summarizer.available)
    ensures SameState(Next(level, a, ctx, sink, summarizer), Next(level, b, ctx, sink, summarizer))
  {
    var a', b' := Apply(level, a, ctx, sink, summarizer), Apply(level, b, ctx, sink, summarizer);
    ApplyForgetsOrder(level, a, b, ctx, sink, summarizer);
    TotalsForgetOrder(a.items, b.items, a.reserves);
    TotalsForgetOrder(a'.items, b'.items, a'.reserves);
  }

  lemma {:induction false} ClimbForgetsOrder(levels: seq<LadderLevel>, a: State, b: State, ctx: Context,
                                             sink: OffloadSink, summarizer: Summarizer)
    requires SameState(a, b) && !summarizer.available
    ensures SameState(Climb(levels, a, ctx, sink, summarizer), Climb(levels, b, ctx, sink, summarizer))
    decreases |levels|
  {
    if levels != [] {
      NextForgetsOrder(levels[0], a, b, ctx, sink, summarizer);
      ClimbForgetsOrder(levels[1..], Next(levels[0], a, ctx, sink, summarizer),
                        Next(levels[0], b, ctx, sink, summarizer), ctx, sink, summarizer);
    }
  }

  /** Without a summarizer the ladder treats two arrangements of the same items alike, for every artifact store. */
  lemma LadderForgetsOrder(a: seq<ContextItem>, b: seq<ContextItem>, reserves: u32, ctx: Context, sink: OffloadSink,
                           summarizer: Summarizer)
    requires SameItems(a, b) && !summarizer.available
    ensures SameState(RunLadder(a, reserves, ctx, sink, summarizer), RunLadder(b, reserves, ctx, sink, summarizer))
  {
    ClimbForgetsOrder(LEVELS, State(a, reserves, NOTHING_DONE), State(b, reserves, NOTHING_DONE), ctx, sink,
                      summarizer);
  }
}
