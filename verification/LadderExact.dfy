/**
 What each level of the ladder does, item by item and in exact numbers, and what a run may hand to the store.
 */
module LadderExact {
  import opened Machine
  import opened Order
  import opened Items
  import opened Profiles
  import opened Pruning
  import opened Ladder
  import opened LadderFacts
  import opened LadderRuns

  /** The goal is met exactly if the selected tokens are within it; the largest goal is met by anything. */
  lemma GoalExact(items: seq<ContextItem>, goal: u32)
    ensures GoalMet(items, goal) <==> goal == U32_MAX || Tokens(IsSelected, items) <= goal
  {
    ContextExact(items);
  }

  // ------------------------------------------------------------------------- L1

  /** The content is that of a mandatory item, or of another optional one that would be dropped later. */
  ghost predicate Repeats(items: seq<ContextItem>, x: ContextItem) {
    || (exists y :: y in items && IsMandatory(y) && y.contentHash == x.contentHash)
    || (exists y :: y in items && IsOptionalSelected(y) && y != x && y.contentHash == x.contentHash
                    && DropsNoLater(x, y))
  }

  /** Why L1 would drop an optional item. */
  ghost function L1Verdict(items: seq<ContextItem>, now: i64, x: ContextItem): Option<DropReason> {
    if HasEnded(x.createdAt, x.ttlMs, now) || HasEnded(x.createdAt, x.retentionMs, now) then Some(Expired)
    else if Repeats(items, x) then Some(Duplicate)
    else if !IsNewest(items, x) then Some(Superseded)
    else None
  }

  /** A visited item is a duplicate exactly if its content was seen before the walk or earlier in it. */
  lemma {:induction false} DuplicateExactly(items: seq<ContextItem>, ids: seq<string>, seen: set<string>,
                                            x: ContextItem, i: nat)
    requires NoRepeat(ids) && i < |ids| && ids[i] == x.id && Find(items, x.id) == Some(x)
    ensures x.id in DuplicateIds(items, ids, seen) <==>
              || x.contentHash in seen
              || exists j :: 0 <= j < i && Find(items, ids[j]).Some?
                             && Find(items, ids[j]).value.contentHash == x.contentHash
    decreases i
  {
    var found := Find(items, ids[0]);
    var next := if found.Some? then seen + {found.value.contentHash} else seen;
    assert found.Some? && found.value.contentHash in seen ==> next == seen;
    if i == 0 {
      LaterUnlisted(items, ids[1..], next, x.id);
    } else {
      assert ids[0] != x.id;
      DuplicateExactly(items, ids[1..], next, x, i - 1);
      if j :| 0 <= j < i && Find(items, ids[j]).Some? && Find(items, ids[j]).value.contentHash == x.contentHash {
        if j > 0 { assert ids[1..][j - 1] == ids[j]; }
      }
      if j :| 0 <= j < i - 1 && Find(items, ids[1..][j]).Some?
              && Find(items, ids[1..][j]).value.contentHash == x.contentHash {
        assert ids[1..][j] == ids[j + 1];
      }
    }
  }

  lemma {:induction false} LaterUnlisted(items: seq<ContextItem>, ids: seq<string>, seen: set<string>, id: string)
    requires id !in ids
    ensures id !in DuplicateIds(items, ids, seen)
    decreases |ids|
  {
    if ids != [] {
      var found := Find(items, ids[0]);
      var next := if found.Some? then seen + {found.value.contentHash} else seen;
      assert found.Some? && found.value.contentHash in seen ==> next == seen;
      LaterUnlisted(items, ids[1..], next, id);
    }
  }

  lemma NewestOrOutdated(items: seq<ContextItem>, x: ContextItem)
    requires DistinctIds(items) && x in items && x.selected
    ensures Outdated(NewestRevisions(items), x) <==> !IsNewest(items, x)
  {
    if !Outdated(NewestRevisions(items), x) { NotOutdated(items, x); }
    if x.parentId.Some? {
      var p := x.parentId.value;
      NewestRanks(items, p);
      assert Revises(x, p);
      var w :| Supersedes(items, p, w) && RevisionOf(w) == NewestRevisions(items)[p];
      if IsNewest(items, x) {
        LeqTotal(RevisionKey(x), RevisionKey(w));
        KeysNameIds();
      }
    }
  }

  lemma {:induction false} ReversedNoRepeat(ids: seq<string>)
    requires NoRepeat(ids)
    ensures NoRepeat(Reversed(ids))
  {
    ReversedAt(ids);
  }

  /** The ids of the optional items, by their drop keys. */
  ghost predicate IsDropList(items: seq<ContextItem>, ids: seq<string>) {
    && NoRepeat(ids) && (forall x :: x in items ==> (x.id in ids <==> IsOptionalSelected(x)))
    && (forall i :: 0 <= i < |ids| ==> Find(items, ids[i]).Some?)
    && (forall i, j :: 0 <= i < j < |ids| ==>
          Leq(DropKey(Find(items, ids[i]).value), DropKey(Find(items, ids[j]).value)))
  }

  lemma CandidatesAreDropList(items: seq<ContextItem>)
    requires DistinctIds(items)
    ensures IsDropList(items, OrderedCandidates(items, Anything))
  {
    var ids := OrderedCandidates(items, Anything);
    AllCandidates(items);
    forall i | 0 <= i < |ids| ensures Find(items, ids[i]).Some? { FoundAt(items, Candidate(Anything), DropKey, i); }
    forall i, j | 0 <= i < j < |ids|
      ensures Leq(DropKey(Find(items, ids[i]).value), DropKey(Find(items, ids[j]).value))
    {
      CandidateOrder(DropKey, Candidate(Anything), items, i, j);
    }
  }

  lemma SameKeySameItem(items: seq<ContextItem>, x: ContextItem, y: ContextItem)
    requires DistinctIds(items) && x in items && y in items
    requires Leq(DropKey(x), DropKey(y)) && Leq(DropKey(y), DropKey(x))
    ensures x == y
  {
    LeqTotal(DropKey(x), DropKey(y));
    KeysNameIds();
    SameId(items, x, y);
  }

  /** Where two optional items stand in the walk of L1. */
  lemma WalkOrder(items: seq<ContextItem>, ids: seq<string>, x: ContextItem, y: ContextItem, i: nat, j: nat)
    requires DistinctIds(items) && IsDropList(items, ids) && x in items && y in items && x != y
    requires |Reversed(ids)| == |ids| && i < |ids| && j < |ids| && i != j
    requires Reversed(ids)[i] == x.id && Reversed(ids)[j] == y.id
    ensures j < i <==> DropsNoLater(x, y)
  {
    ReversedAt(ids);
    DropKeyMeans(x, y);
    FindUnique(items, x);
    FindUnique(items, y);
    if i < j && Leq(DropKey(x), DropKey(y)) { SameKeySameItem(items, x, y); }
  }

  /** The content was seen before position `i` of the walk. */
  ghost predicate SeenBy(items: seq<ContextItem>, walk: seq<string>, i: nat, hash: string) {
    || hash in MandatoryHashes(items)
    || exists j :: 0 <= j < i && j < |walk| && Find(items, walk[j]).Some?
                   && Find(items, walk[j]).value.contentHash == hash
  }

  lemma RepeatsWalked(items: seq<ContextItem>, ids: seq<string>, x: ContextItem, i: nat)
    requires DistinctIds(items) && IsDropList(items, ids) && x in items && IsOptionalSelected(x)
    requires i < |ids| && |Reversed(ids)| == |ids| && Reversed(ids)[i] == x.id
    ensures Repeats(items, x) <==> SeenBy(items, Reversed(ids), i, x.contentHash)
  {
    var walk := Reversed(ids);
    ReversedAt(ids);
    ReversedNoRepeat(ids);
    if y :| y in items && IsOptionalSelected(y) && y != x && y.contentHash == x.contentHash && DropsNoLater(x, y) {
      var j := ReversedHas(ids, y.id);
      FindUnique(items, y);
      WalkOrder(items, ids, x, y, i, j);
    }
    if j :| 0 <= j < i && Find(items, walk[j]).Some? && Find(items, walk[j]).value.contentHash == x.contentHash {
      var y := Find(items, walk[j]).value;
      FindFinds(items, walk[j]);
      assert y.id == walk[j] != walk[i] && walk[j] in ids;
      WalkOrder(items, ids, x, y, i, j);
    }
  }

  lemma L1ReasonMeans(items: seq<ContextItem>, now: i64, x: ContextItem)
    requires DistinctIds(items) && x in items && IsOptionalSelected(x)
    ensures L1Reason(items, now)(x) == L1Verdict(items, now, x)
  {
    var ids := OrderedCandidates(items, Anything);
    var i := WalkedAt(items, x);
    CandidatesAreDropList(items);
    ReversedAt(ids);
    ReversedNoRepeat(ids);
    DuplicateExactly(items, Reversed(ids), MandatoryHashes(items), x, i);
    RepeatsWalked(items, ids, x, i);
    NewestOrOutdated(items, x);
    ExpiredMeans(x, now);
  }

  /** The items after the first `k` ids have been judged. */
  ghost predicate JudgedBy(items: seq<ContextItem>, after: seq<ContextItem>, ids: seq<string>, now: i64) {
    && |after| == |items|
    && forall i :: 0 <= i < |items| ==>
         after[i] == if items[i].id in ids && L1Verdict(items, now, items[i]).Some?
                     then items[i].(selected := false, dropReason := L1Verdict(items, now, items[i])) else items[i]
  }

  lemma StruckIsJudged(items: seq<ContextItem>, ids: seq<string>, now: i64, k: nat)
    requires DistinctIds(items) && k <= |ids| && forall x :: x in items && x.id in ids ==> IsOptionalSelected(x)
    ensures JudgedBy(items, Map(DropSome(ids[..k], L1Reason(items, now)), items), ids[..k], now)
  {
    forall i | 0 <= i < |items| && items[i].id in ids[..k]
      ensures L1Reason(items, now)(items[i]) == L1Verdict(items, now, items[i])
    {
      assert items[i] in items && items[i].id in ids;
      L1ReasonMeans(items, now, items[i]);
    }
  }

  /** L1 visits every optional item, the least valuable first, and drops exactly those that have expired, repeat a
      content, or are not the newest revision, up to the shortest prefix that reaches the goal. */
  lemma L1Exactly(items: seq<ContextItem>, now: i64, goal: u32) returns (ids: seq<string>, k: nat)
    requires DistinctIds(items)
    ensures NoRepeat(ids) && (forall x :: x in items ==> (x.id in ids <==> IsOptionalSelected(x)))
    ensures Listed(items, ids, DropsNoLater) && k <= |ids|
    ensures JudgedBy(items, L1(items, now, goal), ids[..k], now)
    ensures k < |ids| ==> GoalMet(L1(items, now, goal), goal)
    ensures forall m, s :: 0 <= m < k && JudgedBy(items, s, ids[..m], now) ==> !GoalMet(s, goal)
  {
    ids := OrderedCandidates(items, Anything);
    CandidatesAreDropList(items);
    k := ShortestPrefix(items, ids, L1Reason(items, now), goal);
    StruckIsJudged(items, ids, now, k);
    forall i, j | 0 <= i < j < |ids| ensures DropsNoLater(Find(items, ids[i]).value, Find(items, ids[j]).value) {
      DropKeyMeans(Find(items, ids[i]).value, Find(items, ids[j]).value);
    }
    forall m, s | 0 <= m < k && JudgedBy(items, s, ids[..m], now) ensures !GoalMet(s, goal) {
      StruckIsJudged(items, ids, now, m);
      JudgedOnce(items, s, Map(DropSome(ids[..m], L1Reason(items, now)), items), ids[..m], now);
    }
  }

  lemma JudgedOnce(items: seq<ContextItem>, s: seq<ContextItem>, t: seq<ContextItem>, ids: seq<string>, now: i64)
    requires JudgedBy(items, s, ids, now) && JudgedBy(items, t, ids, now)
    ensures s == t
  {
  }

  // ------------------------------------------------------------------------- L4

  /** What may be handed to the store: optional, selected, not private, not yet stored, and large. */
  predicate MayLeave(x: ContextItem, threshold: u64) {
    && x.selected && !IsMandatory(x) && x.privacy == Workspace && x.artifactLocator.None? && x.bytes > threshold
  }

  lemma OffloadableMeans(x: ContextItem, threshold: u64)
    ensures Candidate(Offloadable(threshold))(x) <==> MayLeave(x, threshold)
  {
    CandidateMeans(Offloadable(threshold), x);
  }

  /** The items to be offered are all there. */
  ghost predicate AllFound(items: seq<ContextItem>, ids: seq<string>) {
    forall j :: 0 <= j < |ids| ==> Find(items, ids[j]).Some?
  }

  /** What the store answers to the `j`-th offer. */
  ghost function AnswerTo(items: seq<ContextItem>, ids: seq<string>, sink: OffloadSink,
                          j: nat): Result<OffloadOutcome, string>
    requires AllFound(items, ids) && j < |ids|
  {
    sink.offload(j, Find(items, ids[j]).value)
  }

  /** The answer takes the place of the item: it is smaller. */
  ghost predicate Shrinks(items: seq<ContextItem>, ids: seq<string>, sink: OffloadSink, j: nat)
    requires AllFound(items, ids) && j < |ids|
  {
    var answer := AnswerTo(items, ids, sink, j);
    answer.Ok? && answer.value.summaryTokens < Find(items, ids[j]).value.estimatedTokens
  }

  /** The items after the first `k` offers. */
  ghost function Offered(items: seq<ContextItem>, ids: seq<string>, sink: OffloadSink, k: nat): seq<ContextItem>
    requires AllFound(items, ids) && k <= |ids|
  {
    if k == 0 then items
    else
      var before := Offered(items, ids, sink, k - 1);
      if Shrinks(items, ids, sink, k - 1)
      then UpdateFirst(before, ids[k - 1], Replace(AnswerTo(items, ids, sink, k - 1).value)) else before
  }

  /** Bytes the store took over in the first `k` offers. */
  ghost function Moved(items: seq<ContextItem>, ids: seq<string>, sink: OffloadSink, k: nat): nat
    requires AllFound(items, ids) && k <= |ids|
  {
    if k == 0 then 0
    else Moved(items, ids, sink, k - 1)
         + if Shrinks(items, ids, sink, k - 1) then AnswerTo(items, ids, sink, k - 1).value.offloadedBytes else 0
  }

  /** What one offer changes. */
  lemma OfferChanges(items: seq<ContextItem>, ids: seq<string>, sink: OffloadSink, k: nat, i: nat)
    requires AllFound(items, ids) && 0 < k <= |ids| && i < |items|
    requires |Offered(items, ids, sink, k - 1)| == |items| && DistinctIds(Offered(items, ids, sink, k - 1))
    ensures |Offered(items, ids, sink, k)| == |items| && DistinctIds(Offered(items, ids, sink, k))
    ensures var x := Offered(items, ids, sink, k - 1)[i];
      Offered(items, ids, sink, k)[i] == (if x.id == ids[k - 1] && Shrinks(items, ids, sink, k - 1)
                                          then Replace(AnswerTo(items, ids, sink, k - 1).value)(x) else x)
  {
    var before := Offered(items, ids, sink, k - 1);
    if Shrinks(items, ids, sink, k - 1) {
      var f := Replace(AnswerTo(items, ids, sink, k - 1).value);
      UpdateFirstAt(before, ids[k - 1], f, i);
      UpdateFirstIsMap(before, ids[k - 1], f);
      MapDistinct(At(ids[k - 1], f), before);
    }
  }

  /** An item that has not been offered is as it was. */
  lemma {:induction false} OfferedKeeps(items: seq<ContextItem>, ids: seq<string>, sink: OffloadSink, k: nat, i: nat)
    requires DistinctIds(items) && AllFound(items, ids) && k <= |ids| && i < |items|
    ensures |Offered(items, ids, sink, k)| == |items| && DistinctIds(Offered(items, ids, sink, k))
    ensures Offered(items, ids, sink, k)[i].id == items[i].id
    ensures items[i].id !in ids[..k] ==> Offered(items, ids, sink, k)[i] == items[i]
  {
    if k > 0 {
      OfferedKeeps(items, ids, sink, k - 1, i);
      OfferChanges(items, ids, sink, k, i);
      assert ids[..k] == ids[..k - 1] + [ids[k - 1]];
    }
  }

  /** The reference that takes the place of an item: size and locator of the answer, and the mark of the store. */
  function Reference(x: ContextItem, answer: OffloadOutcome): ContextItem {
    x.(estimatedTokens := answer.summaryTokens, artifactLocator := Some(answer.locator), dropReason := Some(Offloaded))
  }

  /** An offered item is replaced by a smaller answer. */
  lemma {:induction false} OfferedReplaces(items: seq<ContextItem>, ids: seq<string>, sink: OffloadSink, k: nat,
                                           i: nat, j: nat)
    requires DistinctIds(items) && NoRepeat(ids) && AllFound(items, ids) && j < k <= |ids|
    requires i < |items| && ids[j] == items[i].id
    ensures |Offered(items, ids, sink, k)| == |items|
    ensures Offered(items, ids, sink, k)[i] == (if Shrinks(items, ids, sink, j)
                                                then Reference(items[i], AnswerTo(items, ids, sink, j).value)
                                                else items[i])
  {
    OfferedKeeps(items, ids, sink, k - 1, i);
    OfferChanges(items, ids, sink, k, i);
    if j < k - 1 { OfferedReplaces(items, ids, sink, k - 1, i, j); }
  }

  lemma StillFound(items: seq<ContextItem>, ids: seq<string>, sink: OffloadSink, k: nat)
    requires DistinctIds(items) && NoRepeat(ids) && AllFound(items, ids) && k < |ids|
    ensures Find(Offered(items, ids, sink, k), ids[k]) == Find(items, ids[k])
  {
    var x := Find(items, ids[k]).value;
    FindFinds(items, ids[k]);
    var i :| 0 <= i < |items| && items[i] == x;
    OfferedKeeps(items, ids, sink, k, i);
    assert Offered(items, ids, sink, k)[i] in Offered(items, ids, sink, k);
    FindUnique(Offered(items, ids, sink, k), x);
  }

  function SaturateBytes(n: nat): u64 {
    if n <= U64_MAX then n else U64_MAX
  }

  /** The state after `k` offers. */
  ghost function OfferedState(st: State, ids: seq<string>, sink: OffloadSink, k: nat): State
    requires AllFound(st.items, ids) && k <= |ids|
  {
    st.(items := Offered(st.items, ids, sink, k),
        outcome := st.outcome.(
          offloadedBytes := SaturateBytes(st.outcome.offloadedBytes + Moved(st.items, ids, sink, k))))
  }

  /** Before each of the first `k` offers the goal was missed, and the store took each of them. */
  ghost predicate GoesOn(items: seq<ContextItem>, ids: seq<string>, goal: u32, sink: OffloadSink, k: nat)
    requires AllFound(items, ids) && k <= |ids|
  {
    forall m :: 0 <= m < k ==> !GoalMet(Offered(items, ids, sink, m), goal) && AnswerTo(items, ids, sink, m).Ok?
  }

  /** The loop ends after `k` offers, not before: the goal is met, the store failed, or nothing is left. */
  ghost predicate EndsAfter(st: State, ids: seq<string>, goal: u32, sink: OffloadSink, k: nat, after: State)
    requires AllFound(st.items, ids)
  {
    && k <= |ids| && GoesOn(st.items, ids, goal, sink, k)
    && var reached := OfferedState(st, ids, sink, k);
       if k == |ids| || GoalMet(Offered(st.items, ids, sink, k), goal) then after == reached
       else
         && AnswerTo(st.items, ids, sink, k).Err?
         && after == reached.(outcome := AddDiagnostic(reached.outcome, OffloadLargeItems, "artifact_write_failed"))
  }

  lemma OfferStep(st: State, ids: seq<string>, goal: u32, sink: OffloadSink, k: nat)
    requires DistinctIds(st.items) && NoRepeat(ids) && AllFound(st.items, ids) && k < |ids|
    requires !GoalMet(Offered(st.items, ids, sink, k), goal)
    ensures var answer := AnswerTo(st.items, ids, sink, k);
      OffloadLoop(OfferedState(st, ids, sink, k), ids[k..], goal, sink, k)
      == if answer.Err? then
           var s := OfferedState(st, ids, sink, k);
           s.(outcome := AddDiagnostic(s.outcome, OffloadLargeItems, "artifact_write_failed"))
         else OffloadLoop(OfferedState(st, ids, sink, k + 1), ids[k + 1..], goal, sink, k + 1)
  {
    StillFound(st.items, ids, sink, k);
    assert ids[k..][0] == ids[k] && ids[k..][1..] == ids[k + 1..];
    OffloadTurn(OfferedState(st, ids, sink, k), ids[k..], goal, sink, k);
  }

  lemma GoOn(items: seq<ContextItem>, ids: seq<string>, goal: u32, sink: OffloadSink, k: nat)
    requires AllFound(items, ids) && k < |ids| && GoesOn(items, ids, goal, sink, k)
    requires !GoalMet(Offered(items, ids, sink, k), goal) && AnswerTo(items, ids, sink, k).Ok?
    ensures GoesOn(items, ids, goal, sink, k + 1)
  {
  }

  lemma OfferEnd(st: State, ids: seq<string>, goal: u32, sink: OffloadSink, k: nat)
    requires AllFound(st.items, ids) && k <= |ids|
    requires k == |ids| || GoalMet(Offered(st.items, ids, sink, k), goal)
    ensures OffloadLoop(OfferedState(st, ids, sink, k), ids[k..], goal, sink, k) == OfferedState(st, ids, sink, k)
  {
  }

  lemma EndsHere(st: State, ids: seq<string>, goal: u32, sink: OffloadSink, k: nat, after: State)
    requires AllFound(st.items, ids) && k <= |ids| && GoesOn(st.items, ids, goal, sink, k)
    requires k == |ids| || GoalMet(Offered(st.items, ids, sink, k), goal)
    requires after == OfferedState(st, ids, sink, k)
    ensures EndsAfter(st, ids, goal, sink, k, after)
  {
  }

  lemma FailsHere(st: State, ids: seq<string>, goal: u32, sink: OffloadSink, k: nat, after: State)
    requires AllFound(st.items, ids) && k < |ids| && GoesOn(st.items, ids, goal, sink, k)
    requires !GoalMet(Offered(st.items, ids, sink, k), goal) && AnswerTo(st.items, ids, sink, k).Err?
    requires var reached := OfferedState(st, ids, sink, k);
      after == reached.(outcome := AddDiagnostic(reached.outcome, OffloadLargeItems, "artifact_write_failed"))
    ensures EndsAfter(st, ids, goal, sink, k, after)
  {
  }

  lemma {:induction false} OffloadLoopFrom(st: State, ids: seq<string>, goal: u32, sink: OffloadSink, j: nat,
                                           after: State)
    returns (k: nat)
    requires DistinctIds(st.items) && NoRepeat(ids) && AllFound(st.items, ids) && j <= |ids|
    requires GoesOn(st.items, ids, goal, sink, j)
    requires after == OffloadLoop(OfferedState(st, ids, sink, j), ids[j..], goal, sink, j)
    ensures EndsAfter(st, ids, goal, sink, k, after)
    decreases |ids| - j
  {
    k := j;
    if j == |ids| || GoalMet(Offered(st.items, ids, sink, j), goal) {
      OfferEnd(st, ids, goal, sink, j);
      EndsHere(st, ids, goal, sink, j, after);
    } else {
      OfferStep(st, ids, goal, sink, j);
      if AnswerTo(st.items, ids, sink, j).Err? {
        FailsHere(st, ids, goal, sink, j, after);
      } else {
        GoOn(st.items, ids, goal, sink, j);
        k := OffloadLoopFrom(st, ids, goal, sink, j + 1, after);
      }
    }
  }

  /** L4 offers to the store exactly the items that may leave, the least valuable first, until the goal is met, the
      store fails or nothing is left; a smaller answer takes the place of its item. */
  lemma L4Exactly(st: State, ctx: Context, sink: OffloadSink) returns (ids: seq<string>, k: nat)
    requires DistinctIds(st.items)
    ensures !sink.available ==>
              L4(st, ctx, sink)
              == st.(outcome := AddDiagnostic(st.outcome, OffloadLargeItems, "artifact_store_unavailable"))
    ensures NoRepeat(ids) && Listed(st.items, ids, DropsNoLater)
    ensures forall x :: x in st.items ==> (x.id in ids <==> MayLeave(x, ctx.profile.offloadThresholdBytes))
    ensures sink.available ==> EndsAfter(st, ids, ctx.goal, sink, k, L4(st, ctx, sink))
  {
    var threshold := ctx.profile.offloadThresholdBytes;
    var eligible := Candidate(Offloadable(threshold));
    ids := OrderedCandidates(st.items, Offloadable(threshold));
    SortedIds(DropKey, eligible, st.items);
    forall x ensures eligible(x) <==> MayLeave(x, threshold) { OffloadableMeans(x, threshold); }
    forall i | 0 <= i < |ids| ensures Find(st.items, ids[i]).Some? { FoundAt(st.items, eligible, DropKey, i); }
    forall i, j | 0 <= i < j < |ids|
      ensures DropsNoLater(Find(st.items, ids[i]).value, Find(st.items, ids[j]).value)
    {
      CandidateOrder(DropKey, eligible, st.items, i, j);
      DropKeyMeans(Find(st.items, ids[i]).value, Find(st.items, ids[j]).value);
    }
    k := 0;
    if sink.available {
      assert ids[0..] == ids;
      assert OfferedState(st, ids, sink, 0) == st;
      k := OffloadLoopFrom(st, ids, ctx.goal, sink, 0, L4(st, ctx, sink));
    }
  }

  /** What L4 changed may leave, and was replaced by something smaller. */
  lemma L4Guarded(st: State, ctx: Context, sink: OffloadSink, i: nat)
    requires DistinctIds(st.items) && i < |st.items|
    ensures var x, after := st.items[i], L4(st, ctx, sink).items;
      && |after| == |st.items|
      && (after[i] != x ==>
            && MayLeave(x, ctx.profile.offloadThresholdBytes)
            && after[i].estimatedTokens < x.estimatedTokens && after[i].artifactLocator.Some?
            && after[i] == x.(estimatedTokens := after[i].estimatedTokens, artifactLocator := after[i].artifactLocator,
                              dropReason := Some(Offloaded)))
  {
    var ids, k := L4Exactly(st, ctx, sink);
    if sink.available {
      var x := st.items[i];
      assert x in st.items;
      OfferedKeeps(st.items, ids, sink, k, i);
      if x.id in ids[..k] {
        var j :| 0 <= j < k && ids[j] == x.id;
        OfferedReplaces(st.items, ids, sink, k, i, j);
        FindUnique(st.items, x);
      }
    }
  }

  /** If L4 ends short of its goal without a new diagnostic, everything that may leave was offered, the least valuable
      first, and the store took every offer. */
  lemma L4OffersAll(st: State, ctx: Context, sink: OffloadSink) returns (ids: seq<string>)
    requires DistinctIds(st.items) && !GoalMet(L4(st, ctx, sink).items, ctx.goal)
    requires L4(st, ctx, sink).outcome.diagnostics == st.outcome.diagnostics
    ensures NoRepeat(ids) && Listed(st.items, ids, DropsNoLater)
    ensures forall x :: x in st.items ==> (x.id in ids <==> MayLeave(x, ctx.profile.offloadThresholdBytes))
    ensures forall j :: 0 <= j < |ids| ==> AnswerTo(st.items, ids, sink, j).Ok?
    ensures L4(st, ctx, sink) == OfferedState(st, ids, sink, |ids|)
  {
    var k;
    ids, k := L4Exactly(st, ctx, sink);
    NewDiagnostic(st.outcome, "artifact_store_unavailable");
    NewDiagnostic(st.outcome, "artifact_write_failed");
  }

  lemma NewDiagnostic(outcome: Outcome, code: string)
    ensures AddDiagnostic(outcome, OffloadLargeItems, code).diagnostics != outcome.diagnostics
  {
    assert |AddDiagnostic(outcome, OffloadLargeItems, code).diagnostics| == |outcome.diagnostics| + 1;
  }

  // ------------------------------------------------------------- what a run hands to the store

  /** Untouched but for being dropped, and not by the store. */
  predicate IsPlain(x: ContextItem, y: ContextItem) {
    && y == x.(selected := y.selected, dropReason := y.dropReason) && (y.selected ==> y == x)
    && y.dropReason != Some(Offloaded)
  }

  /** If its size, its locator or the mark of the store changed, the item was one that may leave. */
  predicate IsGuarded(x: ContextItem, y: ContextItem, threshold: u64) {
    y.estimatedTokens != x.estimatedTokens || y.artifactLocator != x.artifactLocator || y.dropReason == Some(Offloaded)
    ==> MayLeave(x, threshold)
  }

  ghost predicate AllPlain(start: seq<ContextItem>, items: seq<ContextItem>) {
    |items| == |start| && forall i :: 0 <= i < |start| ==> IsPlain(start[i], items[i])
  }

  ghost predicate AllGuarded(start: seq<ContextItem>, items: seq<ContextItem>, threshold: u64) {
    |start| <= |items| && forall i :: 0 <= i < |start| ==> IsGuarded(start[i], items[i], threshold)
  }

  lemma DropLevelOnlyDrops(n: nat, st: State, ctx: Context, sink: OffloadSink, summarizer: Summarizer)
    requires n < 3 && DistinctIds(st.items)
    ensures OnlyDrops(st.items, Apply(LEVELS[n], st, ctx, sink, summarizer).items)
  {
    DropApply(n + 1, st, ctx, sink, summarizer);
    if n == 0 {
      L1Facts(st.items, ctx.now, ctx.goal);
    } else if n == 1 {
      L2Facts(st.items, ctx.profile.lowPriorityCutoff, ctx.goal);
    } else {
      L3Facts(st.items, ctx.goal);
    }
  }

  lemma DropsStayPlain(start: seq<ContextItem>, a: seq<ContextItem>, b: seq<ContextItem>)
    requires AllPlain(start, a) && OnlyDrops(a, b)
    ensures AllPlain(start, b)
  {
    forall i | 0 <= i < |start| ensures IsPlain(start[i], b[i]) { assert IsPlain(start[i], a[i]); }
  }

  lemma NextIsApply(n: nat, st: State, ctx: Context, sink: OffloadSink, summarizer: Summarizer)
    requires n < 6
    ensures var after := Next(LEVELS[n], st, ctx, sink, summarizer).items;
      after == st.items || after == Apply(LEVELS[n], st, ctx, sink, summarizer).items
  {
  }

  lemma {:induction false} StagePlain(n: nat, items: seq<ContextItem>, reserves: u32, ctx: Context, sink: OffloadSink,
                                      summarizer: Summarizer)
    requires n <= 3 && Fresh(items)
    ensures AllPlain(items, Stage(n, State(items, reserves, NOTHING_DONE), ctx, sink, summarizer).items)
  {
    if n == 0 {
      forall i | 0 <= i < |items| ensures IsPlain(items[i], items[i]) { assert items[i] in items; }
    } else {
      var before := Stage(n - 1, State(items, reserves, NOTHING_DONE), ctx, sink, summarizer);
      StagePlain(n - 1, items, reserves, ctx, sink, summarizer);
      StageKeeps(n - 1, items, reserves, ctx, sink, summarizer);
      NextIsApply(n - 1, before, ctx, sink, summarizer);
      DropLevelOnlyDrops(n - 1, before, ctx, sink, summarizer);
      DropsStayPlain(items, before.items, Apply(LEVELS[n - 1], before, ctx, sink, summarizer).items);
    }
  }

  lemma OffloadStaysGuarded(start: seq<ContextItem>, st: State, ctx: Context, sink: OffloadSink)
    requires AllPlain(start, st.items) && DistinctIds(st.items)
    ensures AllGuarded(start, st.items, ctx.profile.offloadThresholdBytes)
    ensures AllGuarded(start, L4(st, ctx, sink).items, ctx.profile.offloadThresholdBytes)
  {
    if start == [] { L4Length(st, ctx, sink); }
    forall i | 0 <= i < |start|
      ensures |L4(st, ctx, sink).items| == |start|
      ensures IsGuarded(start[i], L4(st, ctx, sink).items[i], ctx.profile.offloadThresholdBytes)
    {
      assert IsPlain(start[i], st.items[i]);
      L4Guarded(st, ctx, sink, i);
    }
  }

  lemma L4Length(st: State, ctx: Context, sink: OffloadSink)
    requires DistinctIds(st.items)
    ensures |L4(st, ctx, sink).items| == |st.items|
  {
    L4Facts(st, ctx, sink);
  }

  lemma CompressionStaysGuarded(start: seq<ContextItem>, st: State, summarizer: Summarizer, threshold: u64)
    requires AllGuarded(start, st.items, threshold) && DistinctIds(st.items)
    ensures AllGuarded(start, L5(st, summarizer).items, threshold)
  {
    var after := L5(st, summarizer);
    L5Facts(st, summarizer);
    if after.outcome.summaries != st.outcome.summaries {
      var summary: SummaryOutcome, item: ContextItem :| CompressedBy(st.items, after.items, summary, item);
      forall i | 0 <= i < |start| ensures IsGuarded(start[i], after.items[i], threshold) {
        assert IsGuarded(start[i], st.items[i], threshold);
      }
    }
  }

  lemma FourthGuarded(items: seq<ContextItem>, reserves: u32, ctx: Context, sink: OffloadSink, summarizer: Summarizer)
    requires Fresh(items)
    ensures AllGuarded(items, Stage(4, State(items, reserves, NOTHING_DONE), ctx, sink, summarizer).items,
                       ctx.profile.offloadThresholdBytes)
  {
    var before := Stage(3, State(items, reserves, NOTHING_DONE), ctx, sink, summarizer);
    StageKeeps(3, items, reserves, ctx, sink, summarizer);
    StagePlain(3, items, reserves, ctx, sink, summarizer);
    NextIsApply(3, before, ctx, sink, summarizer);
    assert LEVELS[3] == OffloadLargeItems;
    OffloadStaysGuarded(items, before, ctx, sink);
  }

  lemma FifthGuarded(items: seq<ContextItem>, reserves: u32, ctx: Context, sink: OffloadSink, summarizer: Summarizer)
    requires Fresh(items)
    ensures AllGuarded(items, Stage(5, State(items, reserves, NOTHING_DONE), ctx, sink, summarizer).items,
                       ctx.profile.offloadThresholdBytes)
  {
    var before := Stage(4, State(items, reserves, NOTHING_DONE), ctx, sink, summarizer);
    StageKeeps(4, items, reserves, ctx, sink, summarizer);
    FourthGuarded(items, reserves, ctx, sink, summarizer);
    NextIsApply(4, before, ctx, sink, summarizer);
    assert LEVELS[4] == CompressHistory;
    CompressionStaysGuarded(items, before, summarizer, ctx.profile.offloadThresholdBytes);
  }

  lemma ReleaseKeepsItems(st: State, ctx: Context, sink: OffloadSink, summarizer: Summarizer)
    ensures Next(LEVELS[5], st, ctx, sink, summarizer).items == st.items
  {
    NextIsApply(5, st, ctx, sink, summarizer);
    assert LEVELS[5] == ReleaseOptionalReserves;
    L6Facts(st, ctx.profile);
  }

  /** Whatever the store and the summarizer do, a run changes the size, the locator or the mark only of items that were
      optional, selected, of workspace privacy, not yet stored and above the threshold. */
  lemma OnlyWorkspaceLeaves(items: seq<ContextItem>, reserves: u32, ctx: Context, sink: OffloadSink,
                            summarizer: Summarizer)
    requires Fresh(items)
    ensures AllGuarded(items, RunLadder(items, reserves, ctx, sink, summarizer).items,
                       ctx.profile.offloadThresholdBytes)
  {
    RunIsLastStage(items, reserves, ctx, sink, summarizer);
    FifthGuarded(items, reserves, ctx, sink, summarizer);
    ReleaseKeepsItems(Stage(5, State(items, reserves, NOTHING_DONE), ctx, sink, summarizer), ctx, sink, summarizer);
  }

  // ------------------------------------------------------------------------- L5

  /** What a summary may be made of. */
  predicate IsHistoric(x: ContextItem) {
    x.selected && (x.kind.History? || x.kind.ToolResult?)
  }

  lemma {:induction false} HistoricFilter(items: seq<ContextItem>)
    ensures Filter(IsCompressible, items) == Filter(IsHistoric, items)
  {
    if items != [] { HistoricFilter(items[1..]); }
  }

  /** Tokens of the candidates a summary names. */
  ghost function NamedTokens(cs: seq<ContextItem>, ids: seq<string>): nat {
    Tokens(Among(ids), cs)
  }

  /** The first candidate that is named. */
  ghost predicate IsFirstNamed(cs: seq<ContextItem>, ids: seq<string>, k: nat) {
    k < |cs| && cs[k].id in ids && forall j :: 0 <= j < k ==> cs[j].id !in ids
  }

  lemma {:induction false} TemplateIsFirst(cs: seq<ContextItem>, ids: seq<string>) returns (k: nat)
    requires Template(cs, ids).Some?
    ensures IsFirstNamed(cs, ids, k) && Template(cs, ids).value == cs[k]
  {
    if cs[0].id in ids {
      k := 0;
    } else {
      k := TemplateIsFirst(cs[1..], ids);
      k := k + 1;
    }
  }

  /** The summary item: the first named candidate under a new name, kind and size, selected and unpinned. */
  predicate IsMadeFrom(y: ContextItem, x: ContextItem, summary: SummaryOutcome) {
    && y.id == summary.summaryId && y.kind == Summary && y.estimatedTokens == summary.summaryTokens
    && y.selected && y.dropReason.None? && !y.pinned
    && x == y.(id := x.id, kind := x.kind, estimatedTokens := x.estimatedTokens, selected := x.selected,
               dropReason := x.dropReason, pinned := x.pinned)
  }

  /** An accepted summary replaces what it names. */
  ghost predicate Summarizes(st: State, after: State, cs: seq<ContextItem>, summary: SummaryOutcome, k: nat) {
    && IsFirstNamed(cs, summary.sourceIds, k) && |after.items| == |st.items| + 1
    && (forall i :: 0 <= i < |st.items| ==>
          after.items[i] == if st.items[i].id in summary.sourceIds
                            then st.items[i].(selected := false, dropReason := None) else st.items[i])
    && IsMadeFrom(after.items[|st.items|], cs[k], summary)
    && after == st.(items := after.items, outcome := st.outcome.(summaries := st.outcome.summaries + [summary]))
  }

  function Noted(st: State, code: string): State {
    st.(outcome := st.outcome.(diagnostics := st.outcome.diagnostics + [Diagnostic(CompressHistory, code)]))
  }

  /** L5 asks for a summary of the selected history and tool results, if there are two of them, and takes it exactly if
      it is smaller than what it names; otherwise it only says why not. */
  lemma L5Exactly(st: State, summarizer: Summarizer) returns (k: nat)
    requires DistinctIds(st.items)
    ensures var cs, after := Filter(IsHistoric, st.items), L5(st, summarizer);
      if !summarizer.available then after == Noted(st, "summarizer_unavailable")
      else if |cs| < 2 then after == Noted(st, "summarizer_input_too_small")
      else if summarizer.summarize(cs).Err? then after == Noted(st, "summarizer_failed")
      else
        var summary := summarizer.summarize(cs).value;
        if summary.summaryTokens >= Saturate(NamedTokens(cs, summary.sourceIds))
        then after == Noted(st, "summary_not_smaller")
        else Summarizes(st, after, cs, summary, k)
  {
    k := 0;
    var cs := Filter(IsHistoric, st.items);
    HistoricFilter(st.items);
    if summarizer.available && |cs| >= 2 && summarizer.summarize(cs).Ok? {
      var summary := summarizer.summarize(cs).value;
      FoldSaturates(0, Among(summary.sourceIds), cs);
      if summary.summaryTokens < Saturate(NamedTokens(cs, summary.sourceIds)) {
        CompressFacts(st.items, cs, summary);
        k := TemplateIsFirst(cs, summary.sourceIds);
        SummaryMade(cs[k], summary);
      }
    }
  }

  lemma SummaryMade(x: ContextItem, summary: SummaryOutcome)
    ensures IsMadeFrom(SummaryItem(x, summary), x, summary)
  {
  }

  // ------------------------------------------------------------------------- L6

  /** L6 gives up what it can of the retry, streaming and schema reserves, and never touches the rest. */
  lemma L6Exactly(st: State, p: Profile)
    ensures var after := L6(st, p);
      var kept, optional := p.toolCallReserve + p.finalAnswerReserve,
                            p.retryReserve + p.streamingReserve + p.toolSchemaReserve;
      && after.items == st.items
      && after.reserves == (if st.reserves <= kept then st.reserves else Max(kept, st.reserves - optional))
      && after.outcome == (if after.reserves == st.reserves then st.outcome
                           else st.outcome.(reservesReleased := st.reserves - after.reserves))
  {
  }

  // ------------------------------------------------------------------ which levels are recorded

  lemma NextRecords(level: LadderLevel, st: State, ctx: Context, sink: OffloadSink, summarizer: Summarizer)
    requires Apply(level, st, ctx, sink, summarizer).outcome.levelsApplied == st.outcome.levelsApplied
    ensures var after := Next(level, st, ctx, sink, summarizer);
      var lowered := LadderTotal(after.items, after.reserves) < LadderTotal(st.items, st.reserves);
      after.outcome.levelsApplied == st.outcome.levelsApplied + if lowered then [level] else []
  {
  }

  /** The optional tokens and the reserves together are lower than before. */
  predicate Lowers(st: State, after: State) {
    Saturate(Tokens(IsOptionalSelected, after.items) + after.reserves)
    < Saturate(Tokens(IsOptionalSelected, st.items) + st.reserves)
  }

  lemma LowersExact(st: State, after: State)
    ensures LadderTotal(after.items, after.reserves) < LadderTotal(st.items, st.reserves) <==> Lowers(st, after)
  {
    LadderTotalExact(st.items, st.reserves);
    LadderTotalExact(after.items, after.reserves);
  }

  /** A level is recorded exactly if it was tried and lowered the optional tokens and reserves together. */
  lemma RecordedExactly(n: nat, st: State, ctx: Context, sink: OffloadSink, summarizer: Summarizer)
    requires n < 6 && DistinctIds(st.items)
    ensures var after := Next(LEVELS[n], st, ctx, sink, summarizer);
      after.outcome.levelsApplied == st.outcome.levelsApplied + if Lowers(st, after) then [LEVELS[n]] else []
  {
    ApplyKeepsLevels(n, st, ctx, sink, summarizer);
    NextRecords(LEVELS[n], st, ctx, sink, summarizer);
    LowersExact(st, Next(LEVELS[n], st, ctx, sink, summarizer));
  }

  lemma ApplyKeepsLevels(n: nat, st: State, ctx: Context, sink: OffloadSink, summarizer: Summarizer)
    requires n < 6 && DistinctIds(st.items)
    ensures Apply(LEVELS[n], st, ctx, sink, summarizer).outcome.levelsApplied == st.outcome.levelsApplied
  {
    if n < 4 {
      EarlyLevelDrops(n, st, ctx, sink, summarizer);
    } else if n == 4 {
      L5Facts(st, summarizer);
    } else {
      L6Facts(st, ctx.profile);
    }
  }
}
