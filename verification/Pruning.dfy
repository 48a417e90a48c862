/**
 `prune`: expired, duplicate and superseded items leave the selection before the
 reduction ladder (crates/context-budget/src/compression.rs).
 */
module Pruning {
  import opened Machine
  import opened Order
  import opened Items

  /** What the revision table keeps per parent. */
  datatype Revision = Revision(version: u32, createdAt: i64, id: string)

  function RevisionOf(x: ContextItem): Revision {
    Revision(x.version, x.createdAt, x.id)
  }

  predicate Newer(a: Revision, b: Revision) {
    !Leq([I(a.version), I(a.createdAt), S(a.id)], [I(b.version), I(b.createdAt), S(b.id)])
  }

  function Discarded(x: ContextItem, reason: DropReason): ContextItem {
    x.(selected := false, dropReason := Some(reason))
  }

  predicate IsSelected(x: ContextItem) {
    x.selected
  }

  // ---------------------------------------------------------- lookup tables

  /** `winners.entry(hash).or_insert(id)` over a ranked sequence: the first of each hash stays. */
  function FirstByHash(ranked: seq<ContextItem>): map<string, string> {
    if ranked == [] then map[]
    else
      var table := FirstByHash(ranked[..|ranked| - 1]);
      var x := ranked[|ranked| - 1];
      if x.contentHash in table then table else table[x.contentHash := x.id]
  }

  function Ranked(items: seq<ContextItem>): seq<ContextItem> {
    SortBy(RankKey, Filter(IsSelected, items))
  }

  function Winners(items: seq<ContextItem>): map<string, string> {
    FirstByHash(Ranked(items))
  }

  /** The newest revision of every parent among the selected items. */
  function NewestRevisions(items: seq<ContextItem>): map<string, Revision> {
    if items == [] then map[]
    else AddRevision(NewestRevisions(items[..|items| - 1]), items[|items| - 1])
  }

  function AddRevision(table: map<string, Revision>, x: ContextItem): map<string, Revision> {
    if !x.selected || x.parentId.None? then table
    else if x.parentId.value in table && !Newer(RevisionOf(x), table[x.parentId.value]) then table
    else table[x.parentId.value := RevisionOf(x)]
  }

  // ------------------------------------------------------------ the three passes

  function Expire(now: i64): ContextItem -> ContextItem {
    (x: ContextItem) => if IsExpired(x, now) then Discarded(x, Expired) else x
  }

  predicate Outranked(winners: map<string, string>, x: ContextItem) {
    x.contentHash in winners && winners[x.contentHash] != x.id
  }

  function DropDuplicate(winners: map<string, string>): ContextItem -> ContextItem {
    (x: ContextItem) => if x.selected && Outranked(winners, x) then Discarded(x, Duplicate) else x
  }

  predicate Outdated(newest: map<string, Revision>, x: ContextItem) {
    x.parentId.Some? && x.parentId.value in newest && newest[x.parentId.value].id != x.id
  }

  function DropSuperseded(newest: map<string, Revision>): ContextItem -> ContextItem {
    (x: ContextItem) => if x.selected && Outdated(newest, x) then Discarded(x, Superseded) else x
  }

  function Unexpired(items: seq<ContextItem>, now: i64): (r: seq<ContextItem>)
    ensures |r| == |items|
  {
    Map(Expire(now), items)
  }

  function Unduplicated(items: seq<ContextItem>): (r: seq<ContextItem>)
    ensures |r| == |items|
  {
    Map(DropDuplicate(Winners(items)), items)
  }

  function Unsuperseded(items: seq<ContextItem>): (r: seq<ContextItem>)
    ensures |r| == |items|
  {
    Map(DropSuperseded(NewestRevisions(items)), items)
  }

  function Prune(items: seq<ContextItem>, now: i64): (r: seq<ContextItem>)
    ensures |r| == |items|
  {
    Unsuperseded(Unduplicated(Unexpired(items, now)))
  }

  // ------------------------------------------------------- the in-place form

  method MarkExpired(items: array<ContextItem>, now: i64)
    modifies items
    ensures items[..] == Unexpired(old(items[..]), now)
  {
    for i := 0 to items.Length
      invariant forall k :: 0 <= k < i ==> items[k] == Expire(now)(old(items[k]))
      invariant forall k :: i <= k < items.Length ==> items[k] == old(items[k])
    {
      if IsExpired(items[i], now) {
        items[i] := items[i].(selected := false, dropReason := Some(Expired));
      }
    }
  }

  method TabulateWinners(ranked: seq<ContextItem>) returns (winners: map<string, string>)
    ensures winners == FirstByHash(ranked)
  {
    winners := map[];
    for i := 0 to |ranked|
      invariant winners == FirstByHash(ranked[..i])
    {
      assert ranked[..i + 1][..i] == ranked[..i];
      if ranked[i].contentHash !in winners {
        winners := winners[ranked[i].contentHash := ranked[i].id];
      }
    }
    assert ranked[..|ranked|] == ranked;
  }

  method MarkDuplicates(items: array<ContextItem>)
    modifies items
    ensures items[..] == Unduplicated(old(items[..]))
  {
    var winners := TabulateWinners(Ranked(items[..]));
    for i := 0 to items.Length
      invariant forall k :: 0 <= k < i ==> items[k] == DropDuplicate(winners)(old(items[k]))
      invariant forall k :: i <= k < items.Length ==> items[k] == old(items[k])
    {
      if items[i].selected && Outranked(winners, items[i]) {
        items[i] := items[i].(selected := false, dropReason := Some(Duplicate));
      }
    }
  }

  method TabulateRevisions(items: seq<ContextItem>) returns (newest: map<string, Revision>)
    ensures newest == NewestRevisions(items)
  {
    newest := map[];
    for i := 0 to |items|
      invariant newest == NewestRevisions(items[..i])
    {
      assert items[..i + 1][..i] == items[..i];
      if items[i].selected && items[i].parentId.Some? {
        var parent, candidate := items[i].parentId.value, RevisionOf(items[i]);
        if parent !in newest || Newer(candidate, newest[parent]) {
          newest := newest[parent := candidate];
        }
      }
    }
    assert items[..|items|] == items;
  }

  method MarkSuperseded(items: array<ContextItem>)
    modifies items
    ensures items[..] == Unsuperseded(old(items[..]))
  {
    var newest := TabulateRevisions(items[..]);
    for i := 0 to items.Length
      invariant forall k :: 0 <= k < i ==> items[k] == DropSuperseded(newest)(old(items[k]))
      invariant forall k :: i <= k < items.Length ==> items[k] == old(items[k])
    {
      if items[i].selected && Outdated(newest, items[i]) {
        items[i] := items[i].(selected := false, dropReason := Some(Superseded));
      }
    }
  }

  /** `prune` on the caller's slice: three passes, with a table built before the second and the third. */
  method PruneInPlace(items: array<ContextItem>, now: i64)
    modifies items
    ensures items[..] == Prune(old(items[..]), now)
  {
    MarkExpired(items, now);
    MarkDuplicates(items);
    MarkSuperseded(items);
  }

  // ------------------------------------------------- what the tables contain

  ghost predicate FirstAt(s: seq<ContextItem>, h: string, i: int) {
    0 <= i < |s| && s[i].contentHash == h && forall j :: 0 <= j < i ==> s[j].contentHash != h
  }

  lemma {:induction false} FirstByHashFinds(s: seq<ContextItem>, h: string)
    ensures h in FirstByHash(s) <==> exists i :: 0 <= i < |s| && s[i].contentHash == h
    ensures h in FirstByHash(s) ==> exists i :: FirstAt(s, h, i) && s[i].id == FirstByHash(s)[h]
  {
    if s != [] {
      var n := |s| - 1;
      var front := s[..n];
      FirstByHashFinds(front, h);
      if h in FirstByHash(front) {
        var i :| FirstAt(front, h, i) && front[i].id == FirstByHash(front)[h];
        assert FirstAt(s, h, i);
      } else if s[n].contentHash == h {
        assert forall j :: 0 <= j < n ==> front[j] == s[j];
        assert FirstAt(s, h, n);
      }
    }
  }

  ghost predicate Outranks(items: seq<ContextItem>, h: string, w: ContextItem) {
    && w in items && w.selected && w.contentHash == h
    && forall x :: x in items && x.selected && x.contentHash == h ==> Leq(RankKey(w), RankKey(x))
  }

  lemma RankedMembers(items: seq<ContextItem>)
    ensures forall x :: x in Ranked(items) <==> x in items && x.selected
  {
    SortPermutes(By(RankKey), Filter(IsSelected, items));
    FilterMembers(IsSelected, items);
  }

  lemma RankedPair(items: seq<ContextItem>, i: nat, j: nat)
    requires i <= j < |Ranked(items)|
    ensures Leq(RankKey(Ranked(items)[i]), RankKey(Ranked(items)[j]))
  {
    ByLawful(RankKey);
    SortSorted(By(RankKey), Filter(IsSelected, items));
    if i < j {
      SortedAt(By(RankKey), Ranked(items), i, j);
    } else {
      LeqTotal(RankKey(Ranked(items)[i]), RankKey(Ranked(items)[i]));
    }
  }

  lemma FirstOutranks(items: seq<ContextItem>, h: string, i: nat)
    requires FirstAt(Ranked(items), h, i)
    ensures Outranks(items, h, Ranked(items)[i])
  {
    var s := Ranked(items);
    RankedMembers(items);
    assert s[i] in s;
    forall x | x in items && x.selected && x.contentHash == h ensures Leq(RankKey(s[i]), RankKey(x)) {
      assert x in s;
      var j :| 0 <= j < |s| && s[j] == x;
      RankedPair(items, i, j);
    }
  }

  /** The table names, for each hash with a selected item, the least such item in rank. */
  lemma WinnersRank(items: seq<ContextItem>, h: string)
    ensures h in Winners(items) <==> exists x :: x in items && x.selected && x.contentHash == h
    ensures h in Winners(items) ==> exists w :: Outranks(items, h, w) && w.id == Winners(items)[h]
  {
    var s := Ranked(items);
    RankedMembers(items);
    FirstByHashFinds(s, h);
    if h in Winners(items) {
      var i :| FirstAt(s, h, i) && s[i].id == Winners(items)[h];
      FirstOutranks(items, h, i);
    }
  }

  ghost predicate Revises(x: ContextItem, parent: string) {
    x.selected && x.parentId == Some(parent)
  }

  ghost predicate Supersedes(s: seq<ContextItem>, p: string, w: ContextItem) {
    && w in s && Revises(w, p)
    && forall x :: x in s && Revises(x, p) ==> Leq(RevisionKey(x), RevisionKey(w))
  }

  lemma {:induction false} NewestRanks(s: seq<ContextItem>, p: string)
    ensures p in NewestRevisions(s) <==> exists x :: x in s && Revises(x, p)
    ensures p in NewestRevisions(s) ==> exists w :: Supersedes(s, p, w) && RevisionOf(w) == NewestRevisions(s)[p]
  {
    if s != [] {
      var n := |s| - 1;
      var front, last := s[..n], s[n];
      NewestRanks(front, p);
      assert s == front + [last];
      assert forall x :: x in s <==> x in front || x == last;
      LeqTotal(RevisionKey(last), RevisionKey(last));
      if p in NewestRevisions(front) {
        var w :| Supersedes(front, p, w) && RevisionOf(w) == NewestRevisions(front)[p];
        LeqTotal(RevisionKey(last), RevisionKey(w));
        if Revises(last, p) && Newer(RevisionOf(last), RevisionOf(w)) {
          forall x | x in s && Revises(x, p) ensures Leq(RevisionKey(x), RevisionKey(last)) {
            if x != last { LeqTrans(RevisionKey(x), RevisionKey(w), RevisionKey(last)); }
          }
          assert Supersedes(s, p, last);
        } else {
          assert Supersedes(s, p, w);
        }
      } else if Revises(last, p) {
        assert Supersedes(s, p, last);
      }
    }
  }

  // -------------------------------------------------- exact characterisation

  predicate Contender(x: ContextItem, now: i64) {
    x.selected && !IsExpired(x, now)
  }

  /** No other contender with the same content outranks `x`. */
  ghost predicate BestOfContent(items: seq<ContextItem>, now: i64, x: ContextItem) {
    forall y :: y in items && Contender(y, now) && y.contentHash == x.contentHash ==> Leq(RankKey(x), RankKey(y))
  }

  ghost predicate Original(items: seq<ContextItem>, now: i64, x: ContextItem) {
    Contender(x, now) && BestOfContent(items, now, x)
  }

  /** No original revision of the same parent is newer than `x`. */
  ghost predicate NewestOriginal(items: seq<ContextItem>, now: i64, x: ContextItem) {
    x.parentId.Some? ==>
      forall y :: y in items && Original(items, now, y) && y.parentId == x.parentId ==>
          Leq(RevisionKey(y), RevisionKey(x))
  }

  /** The verdict of `prune` on one item, said without tables or passes. */
  ghost function Verdict(items: seq<ContextItem>, now: i64, x: ContextItem): ContextItem {
    if IsExpired(x, now) then Discarded(x, Expired)
    else if !x.selected then x
    else if !BestOfContent(items, now, x) then Discarded(x, Duplicate)
    else if !NewestOriginal(items, now, x) then Discarded(x, Superseded)
    else x
  }

  lemma ExpireMembers(items: seq<ContextItem>, now: i64)
    ensures forall y :: y in Unexpired(items, now) && y.selected <==> y in items && Contender(y, now)
  {
    var live := Unexpired(items, now);
    forall y ensures y in live && y.selected <==> y in items && Contender(y, now) {
      if y in live && y.selected {
        var i :| 0 <= i < |live| && live[i] == y;
        assert live[i] == Expire(now)(items[i]);
      }
      if y in items && Contender(y, now) {
        var i :| 0 <= i < |items| && items[i] == y;
        assert live[i] == y;
      }
    }
  }

  /** After the second pass exactly the best contender of every content is selected. */
  lemma DuplicatePass(items: seq<ContextItem>, now: i64, i: nat)
    requires DistinctIds(items) && i < |items| && Contender(items[i], now)
    ensures Outranked(Winners(Unexpired(items, now)), items[i]) <==> !BestOfContent(items, now, items[i])
  {
    var live := Unexpired(items, now);
    var x := items[i];
    ExpireMembers(items, now);
    WinnersRank(live, x.contentHash);
    assert x in items;
    var w :| Outranks(live, x.contentHash, w) && w.id == Winners(live)[x.contentHash];
    if w.id == x.id {
      SameId(items, w, x);
    } else if BestOfContent(items, now, x) {
      LeqTotal(RankKey(x), RankKey(w));
      KeysNameIds();
      assert false;
    }
  }

  lemma UniqueMembers(items: seq<ContextItem>, now: i64)
    requires DistinctIds(items)
    ensures var unique := Unduplicated(Unexpired(items, now));
      forall y :: y in unique && y.selected <==> y in items && Original(items, now, y)
  {
    var live := Unexpired(items, now);
    var unique := Unduplicated(live);
    ExpireMembers(items, now);
    forall y ensures y in unique && y.selected <==> y in items && Original(items, now, y) {
      if y in unique && y.selected {
        var i :| 0 <= i < |unique| && unique[i] == y;
        assert live[i] == y && items[i] == y;
        DuplicatePass(items, now, i);
      }
      if y in items && Original(items, now, y) {
        var i :| 0 <= i < |items| && items[i] == y;
        assert live[i] == y;
        DuplicatePass(items, now, i);
        assert unique[i] == y;
      }
    }
  }

  lemma SupersededPass(items: seq<ContextItem>, now: i64, x: ContextItem)
    requires DistinctIds(items) && x in items && Original(items, now, x)
    ensures Outdated(NewestRevisions(Unduplicated(Unexpired(items, now))), x) <==> !NewestOriginal(items, now, x)
  {
    var unique := Unduplicated(Unexpired(items, now));
    UniqueMembers(items, now);
    if x.parentId.Some? {
      var p := x.parentId.value;
      NewestRanks(unique, p);
      assert x in unique && Revises(x, p);
      var w :| Supersedes(unique, p, w) && RevisionOf(w) == NewestRevisions(unique)[p];
      if w.id == x.id {
        SameId(items, w, x);
        forall y | y in items && Original(items, now, y) && y.parentId == x.parentId
            ensures Leq(RevisionKey(y), RevisionKey(x)) {
          assert y in unique && Revises(y, p);
        }
      } else if NewestOriginal(items, now, x) {
        LeqTotal(RevisionKey(x), RevisionKey(w));
        KeysNameIds();
        assert false;
      }
    }
  }

  /** `prune` decides every item by its verdict: the tables, the sort and the order of passes add nothing else. */
  lemma PruneExact(items: seq<ContextItem>, now: i64, i: nat)
    requires DistinctIds(items) && i < |items|
    ensures Prune(items, now)[i] == Verdict(items, now, items[i])
  {
    var live := Unexpired(items, now);
    var unique := Unduplicated(live);
    var x := items[i];
    assert x in items;
    if Contender(x, now) {
      DuplicatePass(items, now, i);
      if BestOfContent(items, now, x) { SupersededPass(items, now, x); }
    }
  }

  /** A survivor of `prune` is unexpired, the best of its content and the newest original of its parent; nothing else
      is. */
  lemma PruneSurvivors(items: seq<ContextItem>, now: i64, i: nat)
    requires DistinctIds(items) && i < |items|
    ensures Prune(items, now)[i].selected <==> Original(items, now, items[i]) && NewestOriginal(items, now, items[i])
    ensures Prune(items, now)[i].selected ==> Prune(items, now)[i] == items[i]
    ensures Prune(items, now)[i].id == items[i].id
  {
    PruneExact(items, now, i);
  }

  lemma PruneDistinct(items: seq<ContextItem>, now: i64)
    requires DistinctIds(items)
    ensures DistinctIds(Prune(items, now))
  {
    forall i, j | 0 <= i < j < |items| ensures Prune(items, now)[i].id != Prune(items, now)[j].id {
      PruneSurvivors(items, now, i);
      PruneSurvivors(items, now, j);
    }
  }

  /** Survivors and reasons do not depend on the order of the input. */
  lemma PruneForgetsOrder(a: seq<ContextItem>, b: seq<ContextItem>, now: i64)
    requires SameItems(a, b)
    ensures SameItems(Prune(a, now), Prune(b, now))
  {
    Members(a, b);
    var f := x => Verdict(a, now, x);
    forall i | 0 <= i < |a| ensures Prune(a, now)[i] == Map(f, a)[i] { PruneExact(a, now, i); }
    forall i | 0 <= i < |b| ensures Prune(b, now)[i] == Map(f, b)[i] {
      PruneExact(b, now, i);
      VerdictForgetsOrder(a, b, now, b[i]);
    }
    assert Prune(a, now) == Map(f, a) && Prune(b, now) == Map(f, b);
    MapPermutes(f, a, b);
    PruneDistinct(a, now);
    PruneDistinct(b, now);
  }

  lemma VerdictForgetsOrder(a: seq<ContextItem>, b: seq<ContextItem>, now: i64, x: ContextItem)
    requires SameItems(a, b)
    ensures Verdict(a, now, x) == Verdict(b, now, x)
  {
    Members(a, b);
    assert forall y :: BestOfContent(a, now, y) <==> BestOfContent(b, now, y);
    assert forall y :: Original(a, now, y) <==> Original(b, now, y);
    assert NewestOriginal(a, now, x) <==> NewestOriginal(b, now, x);
  }

  lemma StillContends(items: seq<ContextItem>, now: i64, y: ContextItem)
    requires DistinctIds(items) && y in Prune(items, now) && Contender(y, now)
    ensures y in items && Original(items, now, y) && NewestOriginal(items, now, y)
  {
    var j :| 0 <= j < |items| && Prune(items, now)[j] == y;
    PruneSurvivors(items, now, j);
  }

  /** A survivor loses to nothing that survived with it. */
  lemma SurvivorStays(items: seq<ContextItem>, now: i64, x: ContextItem)
    requires DistinctIds(items) && x in Prune(items, now) && Contender(x, now)
    ensures Verdict(Prune(items, now), now, x) == x
  {
    var once := Prune(items, now);
    StillContends(items, now, x);
    forall y | y in once && Contender(y, now)
        ensures y in items && Original(items, now, y) { StillContends(items, now, y); }
    assert BestOfContent(once, now, x);
    assert NewestOriginal(once, now, x);
  }

  lemma NonContenderStays(items: seq<ContextItem>, now: i64, i: nat)
    requires DistinctIds(items) && i < |items| && !Contender(Prune(items, now)[i], now)
    ensures Verdict(Prune(items, now), now, Prune(items, now)[i]) == Prune(items, now)[i]
  {
    PruneExact(items, now, i);
  }

  /** Pruning what was already pruned changes nothing. */
  lemma PruneIdempotent(items: seq<ContextItem>, now: i64)
    requires DistinctIds(items)
    ensures Prune(Prune(items, now), now) == Prune(items, now)
  {
    var once := Prune(items, now);
    PruneDistinct(items, now);
    forall i | 0 <= i < |items| ensures Prune(once, now)[i] == once[i] {
      PruneExact(once, now, i);
      if Contender(once[i], now) { SurvivorStays(items, now, once[i]); } else { NonContenderStays(items, now, i); }
    }
  }

}
