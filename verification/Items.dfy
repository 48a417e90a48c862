/**
 `ContextItem` and the classifications the planner reads from it
 (crates/context-budget/src/item.rs, compression.rs, budget.rs).
 */
module Items {
  import opened Machine
  import opened Order

  datatype ItemKind =
    | SafetyPolicy | ApprovalPolicy | SystemInstruction | UserPrompt | UserConstraint
    | PendingToolCall | Cancellation | Memory | Decision | Scratchpad | History
    | ToolResult | ToolSchema | Evidence | Summary

  datatype Trust = Unverified | External | Confirmed | CoreOwned

  datatype Privacy = Workspace | Sensitive | Secret

  datatype ScratchpadStatus = Draft | StatusConfirmed | Recovered

  /** The reasons the modelled code assigns. */
  datatype DropReason = OverBudget | LowPriority | Duplicate | Superseded | Expired | Offloaded | StaleToolOutput

  datatype ContextItem = ContextItem(
    id: string,
    parentId: Option<string>,
    kind: ItemKind,
    priority: u8,
    trust: Trust,
    privacy: Privacy,
    createdAt: i64,
    ttlMs: Option<i64>,
    retentionMs: Option<i64>,
    pinned: bool,
    version: u32,
    tokenizerVersion: string,
    contentHash: string,
    bytes: u64,
    estimatedTokens: u32,
    selected: bool,
    dropReason: Option<DropReason>,
    scratchpadStatus: Option<ScratchpadStatus>,
    artifactLocator: Option<string>,
    toolPairComplete: bool)

  /** `pinned` raises to at least 90 first, `recovered` lowers to at most 20 second. */
  function EffectivePriority(x: ContextItem): u8 {
    var raised := if x.pinned then Max(x.priority, 90) else x.priority;
    if x.scratchpadStatus == Some(Recovered) then Min(raised, 20) else raised
  }

  predicate TtlExpired(x: ContextItem, now: i64) {
    x.ttlMs.Some? && now > SatAddI64(x.createdAt, x.ttlMs.value)
  }

  predicate RetentionExpired(x: ContextItem, now: i64) {
    x.retentionMs.Some? && now > SatAddI64(x.createdAt, x.retentionMs.value)
  }

  predicate IsExpired(x: ContextItem, now: i64) {
    TtlExpired(x, now) || RetentionExpired(x, now)
  }

  /** For every threshold: a priority counts if it is high enough or a pin lifts it to 90, but a recovered note never
      counts above 20. */
  lemma PriorityMeans(x: ContextItem, k: nat)
    ensures EffectivePriority(x) >= k <==>
              && (x.priority >= k || (x.pinned && 90 >= k))
              && (x.scratchpadStatus == Some(Recovered) ==> 20 >= k)
  {
  }

  /** Past the end of its life, in exact arithmetic. */
  predicate HasEnded(since: i64, life: Option<i64>, now: i64) {
    life.Some? && now > since + life.value && now > I64_MIN
  }

  lemma ExpiredMeans(x: ContextItem, now: i64)
    ensures IsExpired(x, now) <==> HasEnded(x.createdAt, x.ttlMs, now) || HasEnded(x.createdAt, x.retentionMs, now)
  {
  }

  predicate IsMandatory(x: ContextItem) {
    x.kind.SafetyPolicy? || x.kind.ApprovalPolicy? || x.kind.UserPrompt? || x.kind.PendingToolCall? ||
        x.kind.Cancellation?
  }

  predicate IsOptionalSelected(x: ContextItem) {
    x.selected && !IsMandatory(x)
  }

  predicate AllowsOffload(p: Privacy) {
    p.Workspace?
  }

  // -------------------------------------------------------- hierarchy of rights

  /** `HierarchyLevel::of`, as its position in the enumeration. */
  function HierarchyLevel(x: ContextItem): (level: nat)
    ensures level <= 5
    ensures x.trust == Unverified || x.scratchpadStatus == Some(Recovered) <==> level == 0
    ensures level == 5 <==> level > 0 && (x.kind.SafetyPolicy? || x.kind.ApprovalPolicy?)
    ensures level >= 4 <==> level > 0 && (level == 5 || x.kind.SystemInstruction? || x.kind.Cancellation?)
    ensures level >= 3 <==> level > 0 && (level >= 4 || x.kind.UserPrompt? || x.kind.UserConstraint?)
    ensures level >= 2 <==> level > 0 && (level >= 3 || x.kind.Decision? || x.kind.Memory? || x.kind.Scratchpad?)
  {
    if x.scratchpadStatus == Some(Recovered) || x.trust == Unverified then 0
    else match x.kind
      case SafetyPolicy | ApprovalPolicy => 5
      case SystemInstruction | Cancellation => 4
      case UserPrompt | UserConstraint => 3
      case Decision | Memory | Scratchpad => 2
      case History | ToolResult | PendingToolCall | ToolSchema | Evidence | Summary => 1
  }

  function TrustRank(t: Trust): nat {
    match t case Unverified => 0 case External => 1 case Confirmed => 2 case CoreOwned => 3
  }

  // ------------------------------------------------------------------ sort keys

  function Bit(b: bool): int {
    if b then 1 else 0
  }

  /** A descending component. */
  function Desc(n: int): Atom {
    I(-n)
  }

  /** `drop_order_key`: pinned last, then least priority, oldest, hash, id. */
  function DropKey(x: ContextItem): Key {
    [I(Bit(x.pinned)), I(EffectivePriority(x)), I(x.createdAt), S(x.contentHash), S(x.id)]
  }

  /** The order in which level L3 drops completed tool results. */
  function StaleKey(x: ContextItem): Key {
    [I(Bit(x.pinned)), I(x.createdAt), S(x.contentHash), S(x.id)]
  }

  /** `order_items`: level, trust and freshness descending, then hash and id. */
  function ContextKey(x: ContextItem): Key {
    [Desc(HierarchyLevel(x)), Desc(TrustRank(x.trust)), Desc(x.createdAt), S(x.contentHash), S(x.id)]
  }

  /** Position of a mandatory kind in the fixed order of parts. */
  function PartRank(k: ItemKind): nat {
    match k
    case SafetyPolicy => 0
    case ApprovalPolicy => 1
    case UserPrompt => 2
    case PendingToolCall => 3
    case Cancellation => 4
    case _ => 5
  }

  function MandatoryKey(x: ContextItem): Key {
    [I(PartRank(x.kind)), I(x.createdAt), S(x.id)]
  }

  /** Ranking of equal contents when `prune` looks for duplicates. */
  function RankKey(x: ContextItem): Key {
    [Desc(HierarchyLevel(x)), Desc(x.createdAt), S(x.id)]
  }

  /** Ranking of revisions of one parent; the greatest is the newest. */
  function RevisionKey(x: ContextItem): Key {
    [I(x.version), I(x.createdAt), S(x.id)]
  }

  // ------------------------------------------------------- what the orders mean, field by field

  lemma RanksMean()
    ensures TrustRank(Unverified) < TrustRank(External) < TrustRank(Confirmed) < TrustRank(CoreOwned)
    ensures PartRank(SafetyPolicy) < PartRank(ApprovalPolicy) < PartRank(UserPrompt) < PartRank(PendingToolCall)
    ensures PartRank(PendingToolCall) < PartRank(Cancellation)
  {
  }

  lemma IdsLast(a: string, b: string)
    ensures Leq([S(a)], [S(b)]) <==> TextLeq(a, b)
  {
    assert [S(a)] == [S(a)] + [] && [S(b)] == [S(b)] + [];
    LeqCons(S(a), S(b), [], []);
    TextTotal(a, a);
  }

  /** By hash, then by id. */
  predicate HashedBefore(x: ContextItem, y: ContextItem) {
    if x.contentHash == y.contentHash then TextLeq(x.id, y.id) else TextLeq(x.contentHash, y.contentHash)
  }

  lemma HashThenId(x: ContextItem, y: ContextItem)
    ensures Leq([S(x.contentHash), S(x.id)], [S(y.contentHash), S(y.id)]) <==> HashedBefore(x, y)
  {
    assert [S(x.contentHash), S(x.id)] == [S(x.contentHash)] + [S(x.id)];
    assert [S(y.contentHash), S(y.id)] == [S(y.contentHash)] + [S(y.id)];
    LeqCons(S(x.contentHash), S(y.contentHash), [S(x.id)], [S(y.id)]);
    IdsLast(x.id, y.id);
  }

  /** Unpinned before pinned, then by priority, by age, by hash and by id. */
  predicate DropsNoLater(x: ContextItem, y: ContextItem) {
    if x.pinned != y.pinned then y.pinned
    else if EffectivePriority(x) != EffectivePriority(y) then EffectivePriority(x) < EffectivePriority(y)
    else if x.createdAt != y.createdAt then x.createdAt < y.createdAt
    else HashedBefore(x, y)
  }

  lemma DropKeyMeans(x: ContextItem, y: ContextItem)
    ensures Leq(DropKey(x), DropKey(y)) <==> DropsNoLater(x, y)
  {
    var s, t := [S(x.contentHash), S(x.id)], [S(y.contentHash), S(y.id)];
    var s1, t1 := [I(x.createdAt)] + s, [I(y.createdAt)] + t;
    var s2, t2 := [I(EffectivePriority(x))] + s1, [I(EffectivePriority(y))] + t1;
    assert DropKey(x) == [I(Bit(x.pinned))] + s2 && DropKey(y) == [I(Bit(y.pinned))] + t2;
    LeqCons(I(Bit(x.pinned)), I(Bit(y.pinned)), s2, t2);
    LeqCons(I(EffectivePriority(x)), I(EffectivePriority(y)), s1, t1);
    LeqCons(I(x.createdAt), I(y.createdAt), s, t);
    HashThenId(x, y);
  }

  /** Unpinned before pinned, then by age, by hash and by id. */
  predicate StaleNoLater(x: ContextItem, y: ContextItem) {
    if x.pinned != y.pinned then y.pinned
    else if x.createdAt != y.createdAt then x.createdAt < y.createdAt
    else HashedBefore(x, y)
  }

  lemma StaleKeyMeans(x: ContextItem, y: ContextItem)
    ensures Leq(StaleKey(x), StaleKey(y)) <==> StaleNoLater(x, y)
  {
    var s, t := [S(x.contentHash), S(x.id)], [S(y.contentHash), S(y.id)];
    var s1, t1 := [I(x.createdAt)] + s, [I(y.createdAt)] + t;
    assert StaleKey(x) == [I(Bit(x.pinned))] + s1 && StaleKey(y) == [I(Bit(y.pinned))] + t1;
    LeqCons(I(Bit(x.pinned)), I(Bit(y.pinned)), s1, t1);
    LeqCons(I(x.createdAt), I(y.createdAt), s, t);
    HashThenId(x, y);
  }

  /** Higher level first, then more trusted, then newer, then by hash and id. */
  predicate ReadsNoLater(x: ContextItem, y: ContextItem) {
    if HierarchyLevel(x) != HierarchyLevel(y) then HierarchyLevel(x) > HierarchyLevel(y)
    else if x.trust != y.trust then TrustRank(x.trust) > TrustRank(y.trust)
    else if x.createdAt != y.createdAt then x.createdAt > y.createdAt
    else HashedBefore(x, y)
  }

  lemma ContextKeyMeans(x: ContextItem, y: ContextItem)
    ensures Leq(ContextKey(x), ContextKey(y)) <==> ReadsNoLater(x, y)
  {
    var s, t := [S(x.contentHash), S(x.id)], [S(y.contentHash), S(y.id)];
    var s1, t1 := [Desc(x.createdAt)] + s, [Desc(y.createdAt)] + t;
    var s2, t2 := [Desc(TrustRank(x.trust))] + s1, [Desc(TrustRank(y.trust))] + t1;
    assert ContextKey(x) == [Desc(HierarchyLevel(x))] + s2 && ContextKey(y) == [Desc(HierarchyLevel(y))] + t2;
    LeqCons(Desc(HierarchyLevel(x)), Desc(HierarchyLevel(y)), s2, t2);
    LeqCons(Desc(TrustRank(x.trust)), Desc(TrustRank(y.trust)), s1, t1);
    LeqCons(Desc(x.createdAt), Desc(y.createdAt), s, t);
    HashThenId(x, y);
  }

  /** By part, then the oldest first, then by id. */
  predicate PartsNoLater(x: ContextItem, y: ContextItem) {
    if PartRank(x.kind) != PartRank(y.kind) then PartRank(x.kind) < PartRank(y.kind)
    else if x.createdAt != y.createdAt then x.createdAt < y.createdAt
    else TextLeq(x.id, y.id)
  }

  lemma MandatoryKeyMeans(x: ContextItem, y: ContextItem)
    ensures Leq(MandatoryKey(x), MandatoryKey(y)) <==> PartsNoLater(x, y)
  {
    var s, t := [I(x.createdAt)] + [S(x.id)], [I(y.createdAt)] + [S(y.id)];
    assert MandatoryKey(x) == [I(PartRank(x.kind))] + s && MandatoryKey(y) == [I(PartRank(y.kind))] + t;
    LeqCons(I(PartRank(x.kind)), I(PartRank(y.kind)), s, t);
    LeqCons(I(x.createdAt), I(y.createdAt), [S(x.id)], [S(y.id)]);
    IdsLast(x.id, y.id);
  }

  /** Higher level first, then newer, then by id. */
  predicate RanksNoLater(x: ContextItem, y: ContextItem) {
    if HierarchyLevel(x) != HierarchyLevel(y) then HierarchyLevel(x) > HierarchyLevel(y)
    else if x.createdAt != y.createdAt then x.createdAt > y.createdAt
    else TextLeq(x.id, y.id)
  }

  lemma RankKeyMeans(x: ContextItem, y: ContextItem)
    ensures Leq(RankKey(x), RankKey(y)) <==> RanksNoLater(x, y)
  {
    var s, t := [Desc(x.createdAt)] + [S(x.id)], [Desc(y.createdAt)] + [S(y.id)];
    assert RankKey(x) == [Desc(HierarchyLevel(x))] + s && RankKey(y) == [Desc(HierarchyLevel(y))] + t;
    LeqCons(Desc(HierarchyLevel(x)), Desc(HierarchyLevel(y)), s, t);
    LeqCons(Desc(x.createdAt), Desc(y.createdAt), [S(x.id)], [S(y.id)]);
    IdsLast(x.id, y.id);
  }

  /** By version, then by age, then by id. */
  predicate RevisedNoLater(x: ContextItem, y: ContextItem) {
    if x.version != y.version then x.version < y.version
    else if x.createdAt != y.createdAt then x.createdAt < y.createdAt
    else TextLeq(x.id, y.id)
  }

  lemma RevisionKeyMeans(x: ContextItem, y: ContextItem)
    ensures Leq(RevisionKey(x), RevisionKey(y)) <==> RevisedNoLater(x, y)
  {
    var s, t := [I(x.createdAt)] + [S(x.id)], [I(y.createdAt)] + [S(y.id)];
    assert RevisionKey(x) == [I(x.version)] + s && RevisionKey(y) == [I(y.version)] + t;
    LeqCons(I(x.version), I(y.version), s, t);
    LeqCons(I(x.createdAt), I(y.createdAt), [S(x.id)], [S(y.id)]);
    IdsLast(x.id, y.id);
  }

  // --------------------------------------------------------- identity of items

  /** Identifiers are pairwise distinct. */
  ghost predicate DistinctIds(s: seq<ContextItem>) {
    forall i, j :: 0 <= i < j < |s| ==> s[i].id != s[j].id
  }

  /** Two arrangements of the same items. */
  ghost predicate SameItems(a: seq<ContextItem>, b: seq<ContextItem>) {
    multiset(a) == multiset(b) && DistinctIds(a) && DistinctIds(b)
  }

  function Ids(s: seq<ContextItem>): (ids: seq<string>)
    ensures |ids| == |s|
    ensures forall i :: 0 <= i < |s| ==> ids[i] == s[i].id
  {
    Map((x: ContextItem) => x.id, s)
  }

  /** `iter().find(|item| item.id == id)`. */
  function Find(s: seq<ContextItem>, id: string): Option<ContextItem> {
    if s == [] then None
    else if s[0].id == id then Some(s[0])
    else Find(s[1..], id)
  }

  /** `iter_mut().find(|item| item.id == id)` followed by an assignment. */
  function UpdateFirst(s: seq<ContextItem>, id: string, f: ContextItem -> ContextItem): (r: seq<ContextItem>)
    ensures |r| == |s|
  {
    if s == [] then []
    else if s[0].id == id then [f(s[0])] + s[1..]
    else [s[0]] + UpdateFirst(s[1..], id, f)
  }

  lemma {:induction false} FindFinds(s: seq<ContextItem>, id: string)
    ensures Find(s, id).Some? <==> id in Ids(s)
    ensures Find(s, id).Some? ==> Find(s, id).value in s && Find(s, id).value.id == id
  {
    if s != [] { FindFinds(s[1..], id); assert s == [s[0]] + s[1..]; assert Ids(s) == [s[0].id] + Ids(s[1..]); }
  }

  lemma SameId(s: seq<ContextItem>, x: ContextItem, y: ContextItem)
    requires DistinctIds(s) && x in s && y in s && x.id == y.id
    ensures x == y
  {
    var i :| 0 <= i < |s| && s[i] == x;
    var j :| 0 <= j < |s| && s[j] == y;
  }

  lemma FindUnique(s: seq<ContextItem>, x: ContextItem)
    requires DistinctIds(s) && x in s
    ensures Find(s, x.id) == Some(x)
  {
    FindFinds(s, x.id);
    var i :| 0 <= i < |s| && s[i] == x;
    assert Ids(s)[i] == x.id;
    SameId(s, x, Find(s, x.id).value);
  }

  lemma FindForgetsOrder(a: seq<ContextItem>, b: seq<ContextItem>, id: string)
    requires SameItems(a, b)
    ensures Find(a, id) == Find(b, id)
  {
    Members(a, b);
    FindFinds(a, id);
    FindFinds(b, id);
    if Find(a, id).Some? { FindUnique(b, Find(a, id).value); }
    if Find(b, id).Some? { FindUnique(a, Find(b, id).value); }
  }

  /** Where an update lands when identifiers are distinct: on every item with that id and nowhere else. */
  lemma {:induction false} UpdateFirstAt(s: seq<ContextItem>, id: string, f: ContextItem -> ContextItem, i: nat)
    requires DistinctIds(s) && i < |s|
    ensures UpdateFirst(s, id, f)[i] == if s[i].id == id then f(s[i]) else s[i]
  {
    if s[0].id != id && i > 0 { UpdateFirstAt(s[1..], id, f, i - 1); }
  }

  /** Changes the items with one id. */
  function At(id: string, f: ContextItem -> ContextItem): ContextItem -> ContextItem {
    (x: ContextItem) => if x.id == id then f(x) else x
  }

  lemma UpdateFirstIsMap(s: seq<ContextItem>, id: string, f: ContextItem -> ContextItem)
    requires DistinctIds(s)
    ensures UpdateFirst(s, id, f) == Map(At(id, f), s)
  {
    forall i | 0 <= i < |s| ensures UpdateFirst(s, id, f)[i] == Map(At(id, f), s)[i] {
      UpdateFirstAt(s, id, f, i);
    }
  }

  /** A change that keeps identifiers keeps them distinct. */
  lemma MapDistinct(f: ContextItem -> ContextItem, s: seq<ContextItem>)
    requires DistinctIds(s) && forall x :: x in s ==> f(x).id == x.id
    ensures DistinctIds(Map(f, s))
  {
    forall i, j | 0 <= i < j < |s| ensures Map(f, s)[i].id != Map(f, s)[j].id {
      assert s[i] in s && s[j] in s;
    }
  }

  lemma UpdateKeepsSame(a: seq<ContextItem>, b: seq<ContextItem>, id: string, f: ContextItem -> ContextItem)
    requires SameItems(a, b) && forall x :: f(x).id == x.id
    ensures SameItems(UpdateFirst(a, id, f), UpdateFirst(b, id, f))
  {
    UpdateFirstIsMap(a, id, f);
    UpdateFirstIsMap(b, id, f);
    var g := At(id, f);
    MapPermutes(g, a, b);
    MapDistinct(g, a);
    MapDistinct(g, b);
  }

  lemma {:induction false} FilterDistinct(p: ContextItem -> bool, s: seq<ContextItem>)
    requires DistinctIds(s)
    ensures DistinctIds(Filter(p, s))
  {
    if s != [] {
      FilterDistinct(p, s[1..]);
      FilterMembers(p, s[1..]);
      var rest := Filter(p, s[1..]);
      forall j | 0 <= j < |rest| ensures rest[j].id != s[0].id {
        assert rest[j] in rest;
        assert rest[j] in s[1..];
      }
    }
  }

  lemma FilterKeepsSame(p: ContextItem -> bool, a: seq<ContextItem>, b: seq<ContextItem>)
    requires SameItems(a, b)
    ensures SameItems(Filter(p, a), Filter(p, b))
  {
    FilterPermutes(p, a, b);
    FilterDistinct(p, a);
    FilterDistinct(p, b);
  }

  /** A key whose last component is the identifier sorts the same items to one sequence. */
  lemma SortKeepsOne(key: ContextItem -> Key, a: seq<ContextItem>, b: seq<ContextItem>)
    requires SameItems(a, b)
    requires forall x, y :: key(x) == key(y) ==> x.id == y.id
    ensures SortBy(key, a) == SortBy(key, b)
  {
    forall x, y | x in a && y in a && key(x) == key(y) ensures x == y {
      SameId(a, x, y);
    }
    ByLawful(key);
    ByDistinguishes(key, a);
    SortForgetsOrder(By(key), a, b);
  }

  lemma KeysNameIds()
    ensures forall x, y :: DropKey(x) == DropKey(y) ==> x.id == y.id
    ensures forall x, y :: StaleKey(x) == StaleKey(y) ==> x.id == y.id
    ensures forall x, y :: ContextKey(x) == ContextKey(y) ==> x.id == y.id
    ensures forall x, y :: MandatoryKey(x) == MandatoryKey(y) ==> x.id == y.id
    ensures forall x, y :: RankKey(x) == RankKey(y) ==> x.id == y.id
    ensures forall x, y :: RevisionKey(x) == RevisionKey(y) ==> x.id == y.id
  {
    forall x, y | DropKey(x) == DropKey(y) ensures x.id == y.id { assert DropKey(x)[4] == DropKey(y)[4]; }
    forall x, y | StaleKey(x) == StaleKey(y) ensures x.id == y.id { assert StaleKey(x)[3] == StaleKey(y)[3]; }
    forall x, y | ContextKey(x) == ContextKey(y) ensures x.id == y.id { assert ContextKey(x)[4] == ContextKey(y)[4]; }
    forall x, y | MandatoryKey(x) == MandatoryKey(y) ensures x.id == y.id {
      assert MandatoryKey(x)[2] == MandatoryKey(y)[2];
    }
    forall x, y | RankKey(x) == RankKey(y) ensures x.id == y.id { assert RankKey(x)[2] == RankKey(y)[2]; }
    forall x, y | RevisionKey(x) == RevisionKey(y) ensures x.id == y.id {
      assert RevisionKey(x)[2] == RevisionKey(y)[2];
    }
  }

  // -------------------------------------------------------------------- tokens

  /** Exact tokens of the items satisfying `p`. */
  function Tokens(p: ContextItem -> bool, s: seq<ContextItem>): nat {
    if s == [] then 0 else (if p(s[0]) then s[0].estimatedTokens else 0) + Tokens(p, s[1..])
  }

  /** `filter(p).map(estimated_tokens).fold(acc, saturating_add)`. */
  function FoldTokens(acc: u32, p: ContextItem -> bool, s: seq<ContextItem>): u32
    decreases |s|
  {
    if s == [] then acc
    else FoldTokens(if p(s[0]) then SatAdd(acc, s[0].estimatedTokens) else acc, p, s[1..])
  }

  /** A saturating fold is the saturated exact sum, whatever the order of additions. */
  lemma {:induction false} FoldSaturates(acc: u32, p: ContextItem -> bool, s: seq<ContextItem>)
    ensures FoldTokens(acc, p, s) == Saturate(acc + Tokens(p, s))
    decreases |s|
  {
    if s != [] {
      FoldSaturates(if p(s[0]) then SatAdd(acc, s[0].estimatedTokens) else acc, p, s[1..]);
    }
  }

  lemma {:induction false} TokensConcat(p: ContextItem -> bool, a: seq<ContextItem>, b: seq<ContextItem>)
    ensures Tokens(p, a + b) == Tokens(p, a) + Tokens(p, b)
  {
    if a == [] {
      assert a + b == b;
    } else {
      TokensConcat(p, a[1..], b);
      assert (a + b)[1..] == a[1..] + b;
    }
  }

  lemma {:induction false} TokensForgetOrder(p: ContextItem -> bool, a: seq<ContextItem>, b: seq<ContextItem>)
    requires multiset(a) == multiset(b)
    ensures Tokens(p, a) == Tokens(p, b)
  {
    Members(a, b);
    if a != [] {
      var j := PickOut(a, b);
      TokensForgetOrder(p, a[1..], b[..j] + b[j + 1..]);
      Cut(b, j);
      TokensConcat(p, b[..j], b[j + 1..]);
      TokensConcat(p, b[..j], [b[j]]);
      TokensConcat(p, b[..j] + [b[j]], b[j + 1..]);
      assert Tokens(p, [b[j]]) == if p(b[j]) then b[j].estimatedTokens else 0;
    }
  }
}
