/**
 What every level of the ladder keeps, and what a ladder that missed its goal has exhausted.
 */
module LadderFacts {
  import opened Machine
  import opened Order
  import opened Items
  import opened Profiles
  import opened Pruning
  import opened Ladder

  // ------------------------------------------------------------------ totals

  lemma {:induction false} TokensSplit(s: seq<ContextItem>)
    ensures Tokens(IsSelected, s) == Tokens(IsMandatorySelected, s) + Tokens(IsOptionalSelected, s)
  {
    if s != [] { TokensSplit(s[1..]); }
  }

  lemma SaturateAdds(a: nat, b: nat)
    ensures SatAdd(Saturate(a), Saturate(b)) == Saturate(a + b)
  {
  }

  lemma PartsExact(items: seq<ContextItem>)
    ensures MandatoryTokens(items) == Saturate(Tokens(IsMandatorySelected, items))
    ensures OptionalTokens(items) == Saturate(Tokens(IsOptionalSelected, items))
  {
    FoldSaturates(0, IsMandatorySelected, items);
    FoldSaturates(0, IsOptionalSelected, items);
  }

  /** The ladder's saturating totals are saturated exact totals. */
  lemma ContextExact(items: seq<ContextItem>)
    ensures ContextTokens(items) == Saturate(Tokens(IsSelected, items))
  {
    PartsExact(items);
    TokensSplit(items);
    SaturateAdds(Tokens(IsMandatorySelected, items), Tokens(IsOptionalSelected, items));
  }

  lemma LadderTotalExact(items: seq<ContextItem>, reserves: u32)
    ensures LadderTotal(items, reserves) == Saturate(Tokens(IsOptionalSelected, items) + reserves)
  {
    PartsExact(items);
    SaturateAdds(Tokens(IsOptionalSelected, items), reserves);
  }

  lemma {:induction false} TokensShrink(p: ContextItem -> bool, a: seq<ContextItem>, b: seq<ContextItem>)
    requires |a| == |b|
    requires forall i :: 0 <= i < |a| && p(b[i]) ==> p(a[i]) && b[i].estimatedTokens <= a[i].estimatedTokens
    ensures Tokens(p, b) <= Tokens(p, a)
  {
    if a != [] { TokensShrink(p, a[1..], b[1..]); }
  }

  // ------------------------------------------------------------- candidate lists

  ghost predicate NoRepeat(ids: seq<string>) {
    forall i, j :: 0 <= i < j < |ids| ==> ids[i] != ids[j]
  }

  lemma {:induction false} PermutedDistinct(a: seq<ContextItem>, b: seq<ContextItem>)
    requires DistinctIds(a) && multiset(a) == multiset(b)
    ensures DistinctIds(b)
  {
    Members(a, b);
    if b != [] {
      var j := PickOut(b, a);
      var rest := a[..j] + a[j + 1..];
      PermutedDistinct(rest, b[1..]);
      Members(rest, b[1..]);
      forall k | 0 < k < |b| ensures b[k].id != b[0].id {
        assert b[k] == b[1..][k - 1];
        assert b[k] in rest;
        var m :| 0 <= m < |rest| && rest[m] == b[k];
        assert rest[m] == a[if m < j then m else m + 1];
      }
      forall i, k | 0 <= i < k < |b| ensures b[i].id != b[k].id {
        if i > 0 { assert b[i] == b[1..][i - 1] && b[k] == b[1..][k - 1]; }
      }
    }
  }

  /** A candidate list names, once each, exactly the items that satisfy the filter. */
  lemma SortedIds(key: ContextItem -> Key, p: ContextItem -> bool, items: seq<ContextItem>)
    requires DistinctIds(items)
    ensures var ids := Ids(SortBy(key, Filter(p, items)));
      NoRepeat(ids) && forall x :: x in items ==> (x.id in ids <==> p(x))
  {
    var kept := Filter(p, items);
    var sorted := SortBy(key, kept);
    var ids := Ids(sorted);
    FilterDistinct(p, items);
    FilterMembers(p, items);
    SortPermutes(By(key), kept);
    PermutedDistinct(kept, sorted);
    forall x | x in items ensures x.id in ids <==> p(x) {
      if p(x) {
        assert x in sorted;
        var i :| 0 <= i < |sorted| && sorted[i] == x;
        assert ids[i] == x.id;
      }
      if x.id in ids {
        var i :| 0 <= i < |ids| && ids[i] == x.id;
        assert sorted[i] in sorted;
        SameId(items, sorted[i], x);
      }
    }
  }

  // ------------------------------------------------------------------ drop loops

  /** Drops the named items for which there is a reason. */
  function DropSome(ids: seq<string>, decide: ContextItem -> Option<DropReason>): ContextItem -> ContextItem {
    (x: ContextItem) => if x.id in ids && decide(x).Some? then Discarded(x, decide(x).value) else x
  }

  lemma VisitAt(now: seq<ContextItem>, id: string, decide: ContextItem -> Option<DropReason>, i: nat)
    requires DistinctIds(now) && i < |now|
    ensures |Visit(now, id, decide)| == |now|
    ensures Visit(now, id, decide)[i] == if now[i].id == id && decide(now[i]).Some?
        then Discarded(now[i], decide(now[i]).value) else now[i]
  {
    FindFinds(now, id);
    if now[i].id == id { FindUnique(now, now[i]); }
    if Find(now, id).Some? && decide(Find(now, id).value).Some? {
      UpdateFirstAt(now, id, Drop(decide(Find(now, id).value).value), i);
    }
  }

  /** An item not yet named is as it was; visiting it is what naming one more does. */
  lemma VisitedOnce(x: ContextItem, ids: seq<string>, decide: ContextItem -> Option<DropReason>, k: nat)
    requires k < |ids| && ids[k] !in ids[..k]
    ensures var y := DropSome(ids[..k], decide)(x);
      DropSome(ids[..k + 1], decide)(x) == if y.id == ids[k] && decide(y).Some? then Discarded(y, decide(y).value)
          else y
  {
    assert ids[..k + 1] == ids[..k] + [ids[k]];
  }

  lemma VisitStep(items: seq<ContextItem>, ids: seq<string>, decide: ContextItem -> Option<DropReason>, k: nat)
    requires DistinctIds(items) && NoRepeat(ids) && k < |ids|
    ensures Visit(Map(DropSome(ids[..k], decide), items), ids[k], decide) == Map(DropSome(ids[..k + 1], decide), items)
  {
    var now := Map(DropSome(ids[..k], decide), items);
    var next := Map(DropSome(ids[..k + 1], decide), items);
    MapDistinct(DropSome(ids[..k], decide), items);
    assert ids[k] !in ids[..k];
    var visited := Visit(now, ids[k], decide);
    if items == [] { assert visited == []; }
    forall i | 0 <= i < |items| ensures |visited| == |next| && visited[i] == next[i] {
      VisitAt(now, ids[k], decide, i);
      VisitedOnce(items[i], ids, decide, k);
    }
  }

  /** The items after the first `k` visits. */
  function Visited(items: seq<ContextItem>, ids: seq<string>, decide: ContextItem -> Option<DropReason>,
                   k: nat): seq<ContextItem>
    requires k <= |ids|
  {
    if k == 0 then items else Visit(Visited(items, ids, decide, k - 1), ids[k - 1], decide)
  }

  /** The loop stops after the first `k` visits, and not before. */
  ghost predicate StopsAfter(items: seq<ContextItem>, ids: seq<string>, decide: ContextItem -> Option<DropReason>,
                             goal: u32, j: nat, k: nat) {
    && j <= k <= |ids|
    && (k < |ids| ==> GoalMet(Visited(items, ids, decide, k), goal))
    && (forall m :: j <= m < k ==> !GoalMet(Visited(items, ids, decide, m), goal))
  }

  lemma DropLoopTurn(now: seq<ContextItem>, ids: seq<string>, decide: ContextItem -> Option<DropReason>, goal: u32,
                     j: nat)
    requires j <= |ids|
    ensures DropLoop(now, ids[j..], decide, goal)
         == if j == |ids| || GoalMet(now, goal) then now
             else DropLoop(Visit(now, ids[j], decide), ids[j + 1..], decide, goal)
  {
    if j < |ids| { assert ids[j..][0] == ids[j] && ids[j..][1..] == ids[j + 1..]; }
  }

  lemma {:induction false} DropLoopFrom(items: seq<ContextItem>, ids: seq<string>,
                                        decide: ContextItem -> Option<DropReason>, goal: u32, j: nat)
    returns (k: nat)
    requires j <= |ids|
    ensures StopsAfter(items, ids, decide, goal, j, k)
    ensures DropLoop(Visited(items, ids, decide, j), ids[j..], decide, goal) == Visited(items, ids, decide, k)
    decreases |ids| - j
  {
    var now := Visited(items, ids, decide, j);
    DropLoopTurn(now, ids, decide, goal, j);
    if j == |ids| || GoalMet(now, goal) {
      k := j;
    } else {
      assert Visited(items, ids, decide, j + 1) == Visit(now, ids[j], decide);
      k := DropLoopFrom(items, ids, decide, goal, j + 1);
    }
  }

  lemma StruckNext(items: seq<ContextItem>, ids: seq<string>, decide: ContextItem -> Option<DropReason>, k: nat,
                   now: seq<ContextItem>)
    requires DistinctIds(items) && NoRepeat(ids) && k < |ids| && now == Map(DropSome(ids[..k], decide), items)
    ensures Visit(now, ids[k], decide) == Map(DropSome(ids[..k + 1], decide), items)
  {
    VisitStep(items, ids, decide, k);
  }

  lemma StruckNone(items: seq<ContextItem>, ids: seq<string>, decide: ContextItem -> Option<DropReason>)
    ensures Map(DropSome(ids[..0], decide), items) == items
  {
    forall i | 0 <= i < |items| ensures Map(DropSome(ids[..0], decide), items)[i] == items[i] {
      assert items[i].id !in ids[..0];
    }
  }

  lemma {:induction false} VisitedIsStruck(items: seq<ContextItem>, ids: seq<string>,
                                           decide: ContextItem -> Option<DropReason>, k: nat)
    requires DistinctIds(items) && NoRepeat(ids) && k <= |ids|
    ensures Visited(items, ids, decide, k) == Map(DropSome(ids[..k], decide), items)
  {
    if k == 0 {
      StruckNone(items, ids, decide);
    } else {
      var j := k - 1;
      var now := Visited(items, ids, decide, j);
      VisitedIsStruck(items, ids, decide, j);
      StruckNext(items, ids, decide, j, now);
      assert Visited(items, ids, decide, k) == Visit(now, ids[j], decide);
    }
  }

  /** A drop loop drops exactly the shortest prefix of its order that reaches the goal, or all of it. */
  lemma ShortestPrefix(items: seq<ContextItem>, ids: seq<string>, decide: ContextItem -> Option<DropReason>, goal: u32)
    returns (k: nat)
    requires DistinctIds(items) && NoRepeat(ids)
    ensures k <= |ids|
    ensures DropLoop(items, ids, decide, goal) == Map(DropSome(ids[..k], decide), items)
    ensures k < |ids| ==> GoalMet(DropLoop(items, ids, decide, goal), goal)
    ensures forall m :: 0 <= m < k ==> !GoalMet(Map(DropSome(ids[..m], decide), items), goal)
  {
    k := DropLoopFrom(items, ids, decide, goal, 0);
    assert ids[0..] == ids;
    VisitedIsStruck(items, ids, decide, k);
    forall m | 0 <= m < k ensures !GoalMet(Map(DropSome(ids[..m], decide), items), goal) {
      VisitedIsStruck(items, ids, decide, m);
      assert !GoalMet(Visited(items, ids, decide, m), goal);
    }
  }

  // ------------------------------------------------------------- the order of the drops

  /** Candidates are listed by their keys. */
  lemma CandidateOrder(key: ContextItem -> Key, p: ContextItem -> bool, items: seq<ContextItem>, i: nat, j: nat)
    requires DistinctIds(items) && i < j < |Ids(SortBy(key, Filter(p, items)))|
    ensures var ids := Ids(SortBy(key, Filter(p, items)));
      Find(items, ids[i]).Some? && Find(items, ids[j]).Some? &&
          Leq(key(Find(items, ids[i]).value), key(Find(items, ids[j]).value))
  {
    FoundAt(items, p, key, i);
    FoundAt(items, p, key, j);
    ByLawful(key);
    SortSorted(By(key), Filter(p, items));
    SortedAt(By(key), SortBy(key, Filter(p, items)), i, j);
  }

  lemma FoundAt(items: seq<ContextItem>, p: ContextItem -> bool, key: ContextItem -> Key, i: nat)
    requires DistinctIds(items) && i < |Ids(SortBy(key, Filter(p, items)))|
    ensures var sorted := SortBy(key, Filter(p, items)); i < |sorted| && Find(items, Ids(sorted)[i]) == Some(sorted[i])
  {
    var sorted := SortBy(key, Filter(p, items));
    SortPermutes(By(key), Filter(p, items));
    FilterMembers(p, items);
    assert sorted[i] in sorted;
    FindUnique(items, sorted[i]);
  }

  /** The outcome of a drop loop: the first `k` ids in order are dropped, and `k` is the least number that reaches the
      goal, or else all of them. */
  ghost predicate DropsShortest(items: seq<ContextItem>, after: seq<ContextItem>, ids: seq<string>, reason: DropReason,
                                goal: u32, k: nat) {
    && k <= |ids| && after == Map(DropSome(ids[..k], Always(reason)), items)
    && (k < |ids| ==> GoalMet(after, goal))
    && (forall m :: 0 <= m < k ==> !GoalMet(Map(DropSome(ids[..m], Always(reason)), items), goal))
  }

  ghost predicate Listed(items: seq<ContextItem>, ids: seq<string>, before: (ContextItem, ContextItem) -> bool) {
    && (forall i :: 0 <= i < |ids| ==> Find(items, ids[i]).Some?)
    && (forall i, j :: 0 <= i < j < |ids| ==> before(Find(items, ids[i]).value, Find(items, ids[j]).value))
  }

  /** L2 visits exactly the optional items below the cutoff, unpinned and least important first, and drops the
      shortest prefix that reaches the goal. */
  lemma L2Shortest(items: seq<ContextItem>, cutoff: u8, goal: u32) returns (ids: seq<string>, k: nat)
    requires DistinctIds(items)
    ensures NoRepeat(ids)
    ensures forall x :: x in items ==> (x.id in ids <==> IsOptionalSelected(x) && EffectivePriority(x) < cutoff)
    ensures DropsShortest(items, L2(items, cutoff, goal), ids, LowPriority, goal, k) && Listed(items, ids, DropsNoLater)
  {
    var eligible := Candidate(BelowCutoff(cutoff));
    ids := OrderedCandidates(items, BelowCutoff(cutoff));
    SortedIds(DropKey, eligible, items);
    k := ShortestPrefix(items, ids, Always(LowPriority), goal);
    forall i | 0 <= i < |ids| ensures Find(items, ids[i]).Some? { FoundAt(items, eligible, DropKey, i); }
    forall i, j | 0 <= i < j < |ids| ensures DropsNoLater(Find(items, ids[i]).value, Find(items, ids[j]).value) {
      CandidateOrder(DropKey, eligible, items, i, j);
      DropKeyMeans(Find(items, ids[i]).value, Find(items, ids[j]).value);
    }
  }

  /** L3 does the same with the completed tool results, oldest first. */
  lemma L3Shortest(items: seq<ContextItem>, goal: u32) returns (ids: seq<string>, k: nat)
    requires DistinctIds(items)
    ensures NoRepeat(ids)
    ensures forall x :: x in items ==>
              (x.id in ids <==> IsOptionalSelected(x) && x.kind.ToolResult? && x.toolPairComplete)
    ensures DropsShortest(items, L3(items, goal), ids, StaleToolOutput, goal, k) && Listed(items, ids, StaleNoLater)
  {
    ids := StaleCandidates(items);
    SortedIds(StaleKey, IsStaleTool, items);
    k := ShortestPrefix(items, ids, Always(StaleToolOutput), goal);
    forall i | 0 <= i < |ids| ensures Find(items, ids[i]).Some? { FoundAt(items, IsStaleTool, StaleKey, i); }
    forall i, j | 0 <= i < j < |ids| ensures StaleNoLater(Find(items, ids[i]).value, Find(items, ids[j]).value) {
      CandidateOrder(StaleKey, IsStaleTool, items, i, j);
      StaleKeyMeans(Find(items, ids[i]).value, Find(items, ids[j]).value);
    }
  }

  // ---------------------------------------------------- what a level may do to an item

  /** Everything about an item that the ladder never touches. */
  function Core(x: ContextItem): ContextItem {
    x.(estimatedTokens := 0, selected := false, dropReason := None, artifactLocator := None)
  }

  /** Not the catch-all reason, and not the mark of the store. */
  predicate IsSpecific(reason: Option<DropReason>) {
    reason != Some(OverBudget) && reason != Some(Offloaded)
  }

  predicate WasDropped(x: ContextItem, y: ContextItem) {
    && IsOptionalSelected(x) && y.dropReason.Some? && IsSpecific(y.dropReason)
    && y == Discarded(x, y.dropReason.value)
  }

  predicate WasOffloaded(x: ContextItem, y: ContextItem) {
    && IsOptionalSelected(x) && y.estimatedTokens < x.estimatedTokens && y.artifactLocator.Some?
    && y == x.(estimatedTokens := y.estimatedTokens, artifactLocator := y.artifactLocator,
               dropReason := Some(Offloaded))
  }

  /** Item by item, `b` is `a` after a level that only drops. */
  ghost predicate OnlyDrops(a: seq<ContextItem>, b: seq<ContextItem>) {
    |a| == |b| && forall i :: 0 <= i < |a| ==> b[i] == a[i] || WasDropped(a[i], b[i])
  }

  ghost predicate OnlyOffloads(a: seq<ContextItem>, b: seq<ContextItem>) {
    |a| == |b| && forall i :: 0 <= i < |a| ==> b[i] == a[i] || WasOffloaded(a[i], b[i])
  }

  /** Reasons a drop loop may give. */
  ghost predicate DropsOptional(items: seq<ContextItem>, ids: seq<string>, decide: ContextItem -> Option<DropReason>) {
    && (forall x :: x in items && x.id in ids ==> IsOptionalSelected(x))
    && (forall x :: IsSpecific(decide(x)))
  }

  lemma DropLoopDrops(items: seq<ContextItem>, ids: seq<string>, decide: ContextItem -> Option<DropReason>, goal: u32)
    requires DistinctIds(items) && NoRepeat(ids) && DropsOptional(items, ids, decide)
    ensures OnlyDrops(items, DropLoop(items, ids, decide, goal))
    ensures !GoalMet(DropLoop(items, ids, decide, goal), goal) ==>
              forall x :: x in DropLoop(items, ids, decide, goal) && x.selected ==>
                  x in items && (x.id in ids ==> decide(x).None?)
  {
    var k := ShortestPrefix(items, ids, decide, goal);
    var r := DropLoop(items, ids, decide, goal);
    forall i | 0 <= i < |items| ensures r[i] == items[i] || WasDropped(items[i], r[i]) {
      assert items[i] in items;
    }
    if k == |ids| {
      assert ids[..k] == ids;
      forall x | x in r && x.selected ensures x in items && (x.id in ids ==> decide(x).None?) {
        var i :| 0 <= i < |r| && r[i] == x;
        assert r[i] == DropSome(ids, decide)(items[i]);
        assert items[i] in items;
      }
    }
  }

  lemma CandidateMeans(eligible: ContextItem -> bool, x: ContextItem)
    ensures Candidate(eligible)(x) <==> IsOptionalSelected(x) && eligible(x)
  {
  }

  /** L1 visits every optional item once. */
  lemma AllCandidates(items: seq<ContextItem>)
    requires DistinctIds(items)
    ensures NoRepeat(OrderedCandidates(items, Anything))
    ensures forall x :: x in items ==> (x.id in OrderedCandidates(items, Anything) <==> IsOptionalSelected(x))
  {
    SortedIds(DropKey, Candidate(Anything), items);
    forall x | x in items ensures x.id in OrderedCandidates(items, Anything) <==> IsOptionalSelected(x) {
      CandidateMeans(Anything, x);
    }
  }

  lemma ReasonIsSpecific(items: seq<ContextItem>, now: i64, x: ContextItem)
    ensures IsSpecific(L1Reason(items, now)(x))
  {
  }

  /** Where the loop of L1 leads: only optional items are dropped, and if the goal is missed those left gave no
      reason. */
  lemma L1Loop(items: seq<ContextItem>, now: i64, goal: u32)
    requires DistinctIds(items)
    ensures OnlyDrops(items, L1(items, now, goal))
    ensures !GoalMet(L1(items, now, goal), goal) ==>
      forall x :: x in L1(items, now, goal) && IsOptionalSelected(x) ==> x in items && L1Reason(items, now)(x).None?
  {
    var ids, decide := OrderedCandidates(items, Anything), L1Reason(items, now);
    AllCandidates(items);
    forall x ensures IsSpecific(decide(x)) { ReasonIsSpecific(items, now, x); }
    DropLoopDrops(items, ids, decide, goal);
  }

  lemma ReasonlessUnexpired(items: seq<ContextItem>, now: i64, x: ContextItem)
    requires x.selected && L1Reason(items, now)(x).None?
    ensures !IsExpired(x, now)
  {
  }

  /** L1 drops optional items only, and if the goal is still missed nothing optional that is left has expired. */
  lemma L1Facts(items: seq<ContextItem>, now: i64, goal: u32)
    requires DistinctIds(items)
    ensures OnlyDrops(items, L1(items, now, goal))
    ensures !GoalMet(L1(items, now, goal), goal) ==>
              forall x :: x in L1(items, now, goal) && IsOptionalSelected(x) ==> !IsExpired(x, now)
  {
    L1Loop(items, now, goal);
    if !GoalMet(L1(items, now, goal), goal) {
      forall x | x in L1(items, now, goal) && IsOptionalSelected(x) ensures !IsExpired(x, now) {
        ReasonlessUnexpired(items, now, x);
      }
    }
  }

  /** A visited item that is no duplicate has a content that was neither seen before the walk nor earlier in it. */
  lemma {:induction false} FirstOfItsContent(items: seq<ContextItem>, ids: seq<string>, seen: set<string>,
                                             x: ContextItem, i: nat)
    requires i < |ids| && ids[i] == x.id && Find(items, x.id) == Some(x) && x.id !in DuplicateIds(items, ids, seen)
    ensures x.contentHash !in seen
    ensures forall j :: 0 <= j < i && Find(items, ids[j]).Some? ==>
              Find(items, ids[j]).value.contentHash != x.contentHash
    decreases i
  {
    if i > 0 {
      var found := Find(items, ids[0]);
      var next := if found.Some? then seen + {found.value.contentHash} else seen;
      assert found.Some? && found.value.contentHash in seen ==> next == seen;
      FirstOfItsContent(items, ids[1..], next, x, i - 1);
      forall j | 0 <= j < i && Find(items, ids[j]).Some?
        ensures Find(items, ids[j]).value.contentHash != x.contentHash
      {
        if j > 0 { assert ids[j] == ids[1..][j - 1]; }
      }
    }
  }

  lemma {:induction false} ReversedAt<T>(s: seq<T>)
    ensures |Reversed(s)| == |s| && forall i :: 0 <= i < |s| ==> Reversed(s)[i] == s[|s| - 1 - i]
  {
    if s != [] { ReversedAt(s[1..]); }
  }

  /** The item is the newest selected revision of its parent. */
  ghost predicate IsNewest(items: seq<ContextItem>, x: ContextItem) {
    x.parentId.Some? ==> Supersedes(items, x.parentId.value, x)
  }

  lemma NotOutdated(items: seq<ContextItem>, x: ContextItem)
    requires DistinctIds(items) && x in items && x.selected && !Outdated(NewestRevisions(items), x)
    ensures IsNewest(items, x)
  {
    if x.parentId.Some? {
      var p := x.parentId.value;
      NewestRanks(items, p);
      assert Revises(x, p);
      var w :| Supersedes(items, p, w) && RevisionOf(w) == NewestRevisions(items)[p];
      SameId(items, w, x);
    }
  }

  /** What L1 has nothing against. */
  ghost predicate Irredundant(items: seq<ContextItem>, now: i64, x: ContextItem) {
    x in items && x.selected && !IsExpired(x, now) && x.contentHash !in MandatoryHashes(items) && IsNewest(items, x)
  }

  lemma ReversedHas<T>(s: seq<T>, x: T) returns (i: nat)
    requires x in s
    ensures i < |Reversed(s)| && Reversed(s)[i] == x
  {
    var k :| 0 <= k < |s| && s[k] == x;
    ReversedAt(s);
    i := |s| - 1 - k;
  }

  /** Where an optional item stands in the walk of L1 for duplicates, which goes from most to least valuable. */
  lemma WalkedAt(items: seq<ContextItem>, x: ContextItem) returns (i: nat)
    requires DistinctIds(items) && x in items && IsOptionalSelected(x)
    ensures i < |Reversed(OrderedCandidates(items, Anything))|
    ensures Reversed(OrderedCandidates(items, Anything))[i] == x.id
    ensures Find(items, x.id) == Some(x)
  {
    AllCandidates(items);
    FindUnique(items, x);
    i := ReversedHas(OrderedCandidates(items, Anything), x.id);
  }

  lemma ReasonlessUnrepeated(items: seq<ContextItem>, now: i64, x: ContextItem)
    requires x.selected && L1Reason(items, now)(x).None?
    ensures x.id !in DuplicateIds(items, Reversed(OrderedCandidates(items, Anything)), MandatoryHashes(items))
    ensures !Outdated(NewestRevisions(items), x)
  {
  }

  lemma ReasonlessIsIrredundant(items: seq<ContextItem>, now: i64, x: ContextItem)
    requires DistinctIds(items) && x in items && IsOptionalSelected(x) && L1Reason(items, now)(x).None?
    ensures Irredundant(items, now, x)
  {
    var i := WalkedAt(items, x);
    ReasonlessUnexpired(items, now, x);
    ReasonlessUnrepeated(items, now, x);
    FirstOfItsContent(items, Reversed(OrderedCandidates(items, Anything)), MandatoryHashes(items), x, i);
    NotOutdated(items, x);
  }

  /** Of two items with one content the one visited later is a duplicate. */
  lemma ReasonlessContents(items: seq<ContextItem>, now: i64, x: ContextItem, y: ContextItem)
    requires DistinctIds(items) && x in items && IsOptionalSelected(x) && L1Reason(items, now)(x).None?
    requires y in items && IsOptionalSelected(y) && L1Reason(items, now)(y).None? && x.contentHash == y.contentHash
    ensures x == y
  {
    var order := Reversed(OrderedCandidates(items, Anything));
    var i := WalkedAt(items, x);
    var j := WalkedAt(items, y);
    ReasonlessUnrepeated(items, now, x);
    ReasonlessUnrepeated(items, now, y);
    FirstOfItsContent(items, order, MandatoryHashes(items), x, i);
    FirstOfItsContent(items, order, MandatoryHashes(items), y, j);
    if i == j { SameId(items, x, y); }
  }

  /** If L1 misses the goal, what is left of the optional items is unexpired, repeats no content, of each other or of
      a mandatory item, and holds the newest revision of each parent. */
  lemma L1Leaves(items: seq<ContextItem>, now: i64, goal: u32)
    requires DistinctIds(items) && !GoalMet(L1(items, now, goal), goal)
    ensures forall x :: x in L1(items, now, goal) && IsOptionalSelected(x) ==> Irredundant(items, now, x)
    ensures var after := Filter(IsOptionalSelected, L1(items, now, goal));
      forall x, y :: x in after && y in after && x.contentHash == y.contentHash ==> x == y
  {
    var after := L1(items, now, goal);
    L1Loop(items, now, goal);
    forall x | x in after && IsOptionalSelected(x)
        ensures Irredundant(items, now, x) { ReasonlessIsIrredundant(items, now, x); }
    var left := Filter(IsOptionalSelected, after);
    FilterMembers(IsOptionalSelected, after);
    forall x, y | x in left && y in left && x.contentHash == y.contentHash ensures x == y {
      ReasonlessContents(items, now, x, y);
    }
  }

  lemma L2Facts(items: seq<ContextItem>, cutoff: u8, goal: u32)
    requires DistinctIds(items)
    ensures OnlyDrops(items, L2(items, cutoff, goal))
    ensures !GoalMet(L2(items, cutoff, goal), goal) ==>
              forall x :: x in L2(items, cutoff, goal) && IsOptionalSelected(x) ==>
                  x in items && EffectivePriority(x) >= cutoff
  {
    SortedIds(DropKey, Candidate(BelowCutoff(cutoff)), items);
    DropLoopDrops(items, OrderedCandidates(items, BelowCutoff(cutoff)), Always(LowPriority), goal);
  }

  lemma L3Facts(items: seq<ContextItem>, goal: u32)
    requires DistinctIds(items)
    ensures OnlyDrops(items, L3(items, goal))
    ensures !GoalMet(L3(items, goal), goal) ==>
              forall x :: x in L3(items, goal) && IsOptionalSelected(x) ==> x in items && !IsStaleTool(x)
  {
    SortedIds(StaleKey, IsStaleTool, items);
    DropLoopDrops(items, StaleCandidates(items), Always(StaleToolOutput), goal);
  }

  lemma OnlyDropsDistinct(a: seq<ContextItem>, b: seq<ContextItem>)
    requires DistinctIds(a) && OnlyDrops(a, b)
    ensures DistinctIds(b)
  {
  }

  // ------------------------------------------------------------------------- L4

  lemma OffloadStep(items: seq<ContextItem>, id: string, result: OffloadOutcome, start: seq<ContextItem>)
    requires DistinctIds(items) && DistinctIds(start) && OnlyOffloads(start, items)
    requires Find(items, id).Some? && result.summaryTokens < Find(items, id).value.estimatedTokens
    requires IsOptionalSelected(Find(items, id).value)
    ensures OnlyOffloads(start, UpdateFirst(items, id, Replace(result)))
    ensures DistinctIds(UpdateFirst(items, id, Replace(result)))
  {
    var next := UpdateFirst(items, id, Replace(result));
    UpdateFirstIsMap(items, id, Replace(result));
    MapDistinct(At(id, Replace(result)), items);
    FindFinds(items, id);
    forall i | 0 <= i < |start| ensures next[i] == start[i] || WasOffloaded(start[i], next[i]) {
      if items[i].id == id {
        assert items[i] in items;
        SameId(items, items[i], Find(items, id).value);
      }
    }
  }

  /** What an offloading loop may have done. */
  ghost predicate Offloading(start: seq<ContextItem>, st: State, after: State) {
    && OnlyOffloads(start, after.items) && DistinctIds(after.items)
    && after.reserves == st.reserves && after.outcome.summaries == st.outcome.summaries
    && after.outcome.levelsApplied == st.outcome.levelsApplied
  }

  /** The state after one answer of the store. */
  function Stored(st: State, id: string, result: OffloadOutcome): State {
    st.(items := UpdateFirst(st.items, id, Replace(result)),
        outcome := st.outcome.(offloadedBytes := SatAdd64(st.outcome.offloadedBytes, result.offloadedBytes)))
  }

  /** One visit of the offloading loop, before the rest of the list is visited. */
  lemma OffloadTurn(st: State, ids: seq<string>, goal: u32, sink: OffloadSink, calls: nat)
    requires ids != [] && !GoalMet(st.items, goal)
    ensures var found := Find(st.items, ids[0]);
      OffloadLoop(st, ids, goal, sink, calls)
      == if found.None? then OffloadLoop(st, ids[1..], goal, sink, calls)
         else var answer := sink.offload(calls, found.value);
           if answer.Err? then st.(outcome := AddDiagnostic(st.outcome, OffloadLargeItems, "artifact_write_failed"))
           else if answer.value.summaryTokens >= found.value.estimatedTokens
               then OffloadLoop(st, ids[1..], goal, sink, calls + 1)
           else OffloadLoop(Stored(st, ids[0], answer.value), ids[1..], goal, sink, calls + 1)
  {
  }

  lemma FoundIsOptional(start: seq<ContextItem>, items: seq<ContextItem>, id: string)
    requires OnlyOffloads(start, items) && Find(items, id).Some?
    requires forall x :: x in start && x.id == id ==> IsOptionalSelected(x)
    ensures IsOptionalSelected(Find(items, id).value)
  {
    FindFinds(items, id);
    var i :| 0 <= i < |items| && items[i] == Find(items, id).value;
    assert start[i] in start;
  }

  lemma {:induction false} OffloadLoopFacts(st: State, ids: seq<string>, goal: u32, sink: OffloadSink, calls: nat,
                                            start: seq<ContextItem>)
    requires DistinctIds(start) && DistinctIds(st.items) && OnlyOffloads(start, st.items)
    requires forall x :: x in start && x.id in ids ==> IsOptionalSelected(x)
    ensures Offloading(start, st, OffloadLoop(st, ids, goal, sink, calls))
    decreases |ids|
  {
    if ids != [] && !GoalMet(st.items, goal) {
      OffloadTurn(st, ids, goal, sink, calls);
      var found := Find(st.items, ids[0]);
      if found.None? {
        OffloadLoopFacts(st, ids[1..], goal, sink, calls, start);
      } else {
        var answer := sink.offload(calls, found.value);
        if answer.Ok? && answer.value.summaryTokens < found.value.estimatedTokens {
          FoundIsOptional(start, st.items, ids[0]);
          OffloadStep(st.items, ids[0], answer.value, start);
          OffloadLoopFacts(Stored(st, ids[0], answer.value), ids[1..], goal, sink, calls + 1, start);
        } else if answer.Ok? {
          OffloadLoopFacts(st, ids[1..], goal, sink, calls + 1, start);
        }
      }
    }
  }

  /** L4 leaves every item selected and only ever makes it smaller, whatever the store answers. */
  lemma L4Facts(st: State, ctx: Context, sink: OffloadSink)
    requires DistinctIds(st.items)
    ensures var after := L4(st, ctx, sink);
      && OnlyOffloads(st.items, after.items) && DistinctIds(after.items)
      && after.reserves == st.reserves && after.outcome.summaries == st.outcome.summaries
      && after.outcome.levelsApplied == st.outcome.levelsApplied
  {
    var eligible := Offloadable(ctx.profile.offloadThresholdBytes);
    SortedIds(DropKey, Candidate(eligible), st.items);
    if sink.available {
      OffloadLoopFacts(st, OrderedCandidates(st.items, eligible), ctx.goal, sink, 0, st.items);
    }
  }

  // ------------------------------------------------------------------------- L5

  /** The summarizer names only items it was given as sources. */
  ghost predicate Honest(s: Summarizer) {
    forall cs :: s.summarize(cs).Ok? ==> forall id :: id in s.summarize(cs).value.sourceIds ==> id in Ids(cs)
  }

  function AbsorbIf(ids: seq<string>): ContextItem -> ContextItem {
    (x: ContextItem) => if x.id in ids then x.(selected := false, dropReason := None) else x
  }

  lemma AbsorbStep(items: seq<ContextItem>, ids: seq<string>)
    requires ids != []
    ensures Map(AbsorbIf(ids[1..]), Map(At(ids[0], Absorb()), items)) == Map(AbsorbIf(ids), items)
  {
    var next := Map(At(ids[0], Absorb()), items);
    forall i | 0 <= i < |items| ensures Map(AbsorbIf(ids[1..]), next)[i] == Map(AbsorbIf(ids), items)[i] {
      assert items[i].id in ids <==> items[i].id == ids[0] || items[i].id in ids[1..];
      assert next[i] == At(ids[0], Absorb())(items[i]);
    }
  }

  lemma {:induction false} AbsorbAllIsMap(items: seq<ContextItem>, ids: seq<string>)
    requires DistinctIds(items)
    ensures AbsorbAll(items, ids) == Map(AbsorbIf(ids), items)
    decreases |ids|
  {
    if ids == [] {
      assert Map(AbsorbIf(ids), items) == items;
    } else {
      var next := UpdateFirst(items, ids[0], Absorb());
      UpdateFirstIsMap(items, ids[0], Absorb());
      MapDistinct(At(ids[0], Absorb()), items);
      AbsorbAllIsMap(next, ids[1..]);
      AbsorbStep(items, ids);
    }
  }

  /** What one compression does: some items are absorbed and at most one summary is appended. */
  ghost predicate Compresses(a: State, b: State) {
    || (b == a.(outcome := b.outcome) && b.outcome.summaries == a.outcome.summaries)
    || (exists summary: SummaryOutcome, item: ContextItem ::
          && b.outcome.summaries == a.outcome.summaries + [summary]
          && CompressedBy(a.items, b.items, summary, item))
  }

  ghost predicate CompressedBy(a: seq<ContextItem>, b: seq<ContextItem>, summary: SummaryOutcome, item: ContextItem) {
    && |b| == |a| + 1 && b[|a|] == item
    && item.kind.Summary? && item.selected && item.dropReason.None?
    && item.id == summary.summaryId && item.estimatedTokens == summary.summaryTokens
    && (forall i :: 0 <= i < |a| ==> b[i] == AbsorbIf(summary.sourceIds)(a[i]))
  }

  lemma {:induction false} TemplateExists(cs: seq<ContextItem>, ids: seq<string>)
    ensures Template(cs, ids).None? ==> Tokens(Among(ids), cs) == 0
    ensures Template(cs, ids).Some? ==> Template(cs, ids).value in cs && Template(cs, ids).value.id in ids
  {
    if cs != [] { TemplateExists(cs[1..], ids); }
  }

  lemma SourcesOptional(items: seq<ContextItem>, ids: seq<string>)
    requires DistinctIds(items) && forall id :: id in ids ==> id in Ids(Filter(IsCompressible, items))
    ensures forall x :: x in items && x.id in ids ==> IsOptionalSelected(x)
  {
    var cs := Filter(IsCompressible, items);
    FilterMembers(IsCompressible, items);
    forall x | x in items && x.id in ids ensures IsOptionalSelected(x) {
      assert x.id in Ids(cs);
      var k :| 0 <= k < |cs| && cs[k].id == x.id;
      assert cs[k] in cs;
      SameId(items, cs[k], x);
    }
  }

  /** A summary smaller than its sources replaces whatever it names by one item. */
  lemma CompressFacts(items: seq<ContextItem>, cs: seq<ContextItem>, summary: SummaryOutcome)
    requires DistinctIds(items) && cs == Filter(IsCompressible, items)
    requires summary.summaryTokens < FoldTokens(0, Among(summary.sourceIds), cs)
    ensures Template(cs, summary.sourceIds).Some?
    ensures CompressedBy(items, Compress(items, cs, summary), summary,
                         SummaryItem(Template(cs, summary.sourceIds).value, summary))
  {
    var ids := summary.sourceIds;
    FoldSaturates(0, Among(ids), cs);
    TemplateExists(cs, ids);
    AbsorbAllIsMap(items, ids);
  }

  /** For any summarizer, L5 absorbs exactly what an accepted summary names and appends one item for it. */
  lemma L5Facts(st: State, summarizer: Summarizer)
    requires DistinctIds(st.items)
    ensures var after := L5(st, summarizer);
      && Compresses(st, after) && after.reserves == st.reserves
      && after.outcome.levelsApplied == st.outcome.levelsApplied
  {
    var cs := Filter(IsCompressible, st.items);
    if summarizer.available && |cs| >= 2 && summarizer.summarize(cs).Ok? {
      var summary := summarizer.summarize(cs).value;
      if summary.summaryTokens < FoldTokens(0, Among(summary.sourceIds), cs) {
        CompressFacts(st.items, cs, summary);
      }
    }
  }

  /** Nothing mandatory is named by the summary that was added. */
  ghost predicate NamesOptional(a: State, b: State) {
    || b.outcome.summaries == a.outcome.summaries
    || exists summary :: b.outcome.summaries == a.outcome.summaries + [summary] &&
         forall x :: x in a.items && x.id in summary.sourceIds ==> IsOptionalSelected(x)
  }

  lemma HonestNamesOptional(st: State, summarizer: Summarizer)
    requires DistinctIds(st.items) && Honest(summarizer)
    ensures NamesOptional(st, L5(st, summarizer))
  {
    var cs := Filter(IsCompressible, st.items);
    if summarizer.available && |cs| >= 2 && summarizer.summarize(cs).Ok? {
      SourcesOptional(st.items, summarizer.summarize(cs).value.sourceIds);
    }
  }

  // ------------------------------------------------------------------------- L6

  lemma L6Facts(st: State, p: Profile)
    ensures var after := L6(st, p);
      && after.items == st.items && after.reserves <= st.reserves
      && (st.reserves >= ProtectedReserves(p) ==> after.reserves >= ProtectedReserves(p))
      && after.outcome.summaries == st.outcome.summaries && after.outcome.levelsApplied == st.outcome.levelsApplied
  {
  }
}
