/**
 The mandatory minimum and its accounting (crates/context-budget/src/budget.rs).
 */
module Budgeting {
  import opened Machine
  import opened Order
  import opened Items

  datatype PartRecord = PartRecord(part: ItemKind, items: u32, tokens: u32)

  /** The fixed order of mandatory parts. */
  const PARTS: seq<ItemKind> := [SafetyPolicy, ApprovalPolicy, UserPrompt, PendingToolCall, Cancellation]

  function OfKind(kind: ItemKind): ContextItem -> bool {
    (x: ContextItem) => x.kind == kind
  }

  function AgeKey(x: ContextItem): Key {
    [I(x.createdAt), S(x.id)]
  }

  predicate Every(x: ContextItem) {
    true
  }

  /** The items of one part, oldest first. */
  function PartItems(items: seq<ContextItem>, kind: ItemKind): seq<ContextItem> {
    SortBy(AgeKey, Filter(OfKind(kind), items))
  }

  function RecordOf(items: seq<ContextItem>, kind: ItemKind): PartRecord {
    var part := PartItems(items, kind);
    PartRecord(kind, |part| % 0x1_0000_0000, FoldTokens(0, Every, part))
  }

  /** Records of the non-empty parts, in the fixed order. */
  function Parts(items: seq<ContextItem>, kinds: seq<ItemKind>): seq<PartRecord> {
    if kinds == [] then []
    else (if PartItems(items, kinds[0]) == [] then [] else [RecordOf(items, kinds[0])]) + Parts(items, kinds[1..])
  }

  function FoldParts(acc: u32, parts: seq<PartRecord>): u32
    decreases |parts|
  {
    if parts == [] then acc else FoldParts(SatAdd(acc, parts[0].tokens), parts[1..])
  }

  function MinimumItems(items: seq<ContextItem>, kinds: seq<ItemKind>): seq<ContextItem> {
    if kinds == [] then [] else PartItems(items, kinds[0]) + MinimumItems(items, kinds[1..])
  }

  /** The part at which the running total first exceeds the limit, or the last part. */
  function MissingFrom(acc: u32, parts: seq<PartRecord>, limit: u32): Option<ItemKind>
    decreases |parts|
  {
    if parts == [] then None
    else
      var running := SatAdd(acc, parts[0].tokens);
      if running > limit || |parts| == 1 then Some(parts[0].part) else MissingFrom(running, parts[1..], limit)
  }

  lemma PartsStep(items: seq<ContextItem>, kinds: seq<ItemKind>, k: nat, chosen: seq<ContextItem>,
                  parts: seq<PartRecord>)
    requires k < |kinds|
    ensures var part := PartItems(items, kinds[k]);
      && (chosen + part) + MinimumItems(items, kinds[k + 1..]) == chosen + MinimumItems(items, kinds[k..])
      && (if part == [] then parts else parts + [RecordOf(items, kinds[k])]) + Parts(items, kinds[k + 1..])
         == parts + Parts(items, kinds[k..])
  {
    assert kinds[k..][0] == kinds[k] && kinds[k..][1..] == kinds[k + 1..];
  }

  /** `MinimumViableContext::select`, for the parts in a given order. */
  method SelectParts(items: seq<ContextItem>, kinds: seq<ItemKind>)
    returns (chosen: seq<ContextItem>, parts: seq<PartRecord>, tokens: u32)
    ensures chosen == MinimumItems(items, kinds)
    ensures parts == Parts(items, kinds)
    ensures tokens == FoldParts(0, parts)
  {
    chosen, parts, tokens := [], [], 0;
    for k := 0 to |kinds|
      invariant chosen + MinimumItems(items, kinds[k..]) == MinimumItems(items, kinds)
      invariant parts + Parts(items, kinds[k..]) == Parts(items, kinds)
      invariant tokens == FoldParts(0, parts)
    {
      PartsStep(items, kinds, k, chosen, parts);
      var part := PartItems(items, kinds[k]);
      if part != [] {
        var record := RecordOf(items, kinds[k]);
        FoldPartsAppend(0, parts, record);
        parts, tokens, chosen := parts + [record], SatAdd(tokens, record.tokens), chosen + part;
      } else {
        assert chosen + part == chosen;
      }
    }
    assert kinds[|kinds|..] == [];
  }

  /** `missing_part`, with its running total. */
  method MissingPart(parts: seq<PartRecord>, limit: u32) returns (missing: Option<ItemKind>)
    ensures missing == MissingFrom(0, parts, limit)
  {
    var running: u32 := 0;
    for i := 0 to |parts|
      invariant i < |parts| || parts == [] ==> MissingFrom(0, parts, limit) == MissingFrom(running, parts[i..], limit)
      invariant i == |parts| > 0 ==> MissingFrom(0, parts, limit) == Some(parts[i - 1].part)
    {
      running := SatAdd(running, parts[i].tokens);
      if running > limit { return Some(parts[i].part); }
    }
    return if parts == [] then None else Some(parts[|parts| - 1].part);
  }

  lemma {:induction false} FoldPartsAppend(acc: u32, parts: seq<PartRecord>, last: PartRecord)
    ensures FoldParts(acc, parts + [last]) == SatAdd(FoldParts(acc, parts), last.tokens)
    decreases |parts|
  {
    if parts == [] {
      assert parts + [last] == [last];
    } else {
      FoldPartsAppend(SatAdd(acc, parts[0].tokens), parts[1..], last);
      assert (parts + [last])[1..] == parts[1..] + [last];
    }
  }

  /** The named part is where the minimum stops fitting: the parts before it fit, and unless everything fits it does
      not. */
  lemma {:induction false} MissingPartMeaning(acc: u32, parts: seq<PartRecord>, limit: u32) returns (k: nat)
    requires parts != [] && acc <= limit
    ensures k < |parts| && MissingFrom(acc, parts, limit) == Some(parts[k].part)
    ensures FoldParts(acc, parts[..k]) <= limit
    ensures FoldParts(acc, parts) > limit ==> FoldParts(acc, parts[..k + 1]) > limit
    decreases |parts|
  {
    var running := SatAdd(acc, parts[0].tokens);
    assert parts[..1][1..] == [];
    if running > limit || |parts| == 1 {
      k := 0;
      assert |parts| == 1 ==> parts[..1] == parts;
    } else {
      var j := MissingPartMeaning(running, parts[1..], limit);
      k := j + 1;
      assert parts[..k][1..] == parts[1..][..j];
      assert parts[..k + 1][1..] == parts[1..][..j + 1];
    }
  }

  // ------------------------------------------------------------------ exactness

  lemma {:induction false} TokensOfKind(p: ContextItem -> bool, s: seq<ContextItem>)
    ensures Tokens(Every, Filter(p, s)) == Tokens(p, s)
  {
    if s != [] {
      TokensOfKind(p, s[1..]);
      TokensConcat(Every, if p(s[0]) then [s[0]] else [], Filter(p, s[1..]));
    }
  }

  lemma SortedTokens(key: ContextItem -> Key, s: seq<ContextItem>)
    ensures Tokens(Every, SortBy(key, s)) == Tokens(Every, s)
    ensures SortBy(key, s) == [] <==> s == []
  {
    SortPermutes(By(key), s);
    TokensForgetOrder(Every, SortBy(key, s), s);
  }

  lemma PartTokens(items: seq<ContextItem>, kind: ItemKind)
    ensures RecordOf(items, kind).tokens == Saturate(Tokens(OfKind(kind), items))
    ensures PartItems(items, kind) == [] ==> Tokens(OfKind(kind), items) == 0
  {
    SortedTokens(AgeKey, Filter(OfKind(kind), items));
    TokensOfKind(OfKind(kind), items);
    FoldSaturates(0, Every, PartItems(items, kind));
  }

  function KindTokens(items: seq<ContextItem>, kinds: seq<ItemKind>): nat {
    if kinds == [] then 0 else Tokens(OfKind(kinds[0]), items) + KindTokens(items, kinds[1..])
  }

  lemma SaturateTwice(acc: u32, t: nat, rest: nat)
    ensures Saturate(SatAdd(acc, Saturate(t)) + rest) == Saturate(acc + t + rest)
  {
  }

  lemma EmptyPart(items: seq<ContextItem>, kinds: seq<ItemKind>)
    requires kinds != [] && PartItems(items, kinds[0]) == []
    ensures Parts(items, kinds) == Parts(items, kinds[1..]) && KindTokens(items, kinds) == KindTokens(items, kinds[1..])
  {
    PartTokens(items, kinds[0]);
    assert [] + Parts(items, kinds[1..]) == Parts(items, kinds[1..]);
  }

  lemma FullPart(acc: u32, items: seq<ContextItem>, kinds: seq<ItemKind>)
    requires kinds != [] && PartItems(items, kinds[0]) != []
    ensures FoldParts(acc, Parts(items, kinds))
         == FoldParts(SatAdd(acc, Saturate(Tokens(OfKind(kinds[0]), items))), Parts(items, kinds[1..]))
  {
    var record, rest := RecordOf(items, kinds[0]), Parts(items, kinds[1..]);
    PartTokens(items, kinds[0]);
    assert Parts(items, kinds) == [record] + rest && ([record] + rest)[1..] == rest;
  }

  lemma {:induction false} PartsExact(acc: u32, items: seq<ContextItem>, kinds: seq<ItemKind>)
    ensures FoldParts(acc, Parts(items, kinds)) == Saturate(acc + KindTokens(items, kinds))
    decreases |kinds|
  {
    if kinds != [] {
      if PartItems(items, kinds[0]) == [] {
        EmptyPart(items, kinds);
        PartsExact(acc, items, kinds[1..]);
      } else {
        var t, rest := Tokens(OfKind(kinds[0]), items), KindTokens(items, kinds[1..]);
        assert KindTokens(items, kinds) == t + rest;
        FullPart(acc, items, kinds);
        var next := SatAdd(acc, Saturate(t));
        PartsExact(next, items, kinds[1..]);
        SaturateTwice(acc, t, rest);
      }
    }
  }

  lemma {:induction false} KindsCover(items: seq<ContextItem>)
    ensures KindTokens(items, PARTS) == Tokens(IsMandatory, items)
  {
    KindsUnfold(items);
    if items != [] {
      KindsCover(items[1..]);
      KindsUnfold(items[1..]);
    }
  }

  lemma KindsUnfold(items: seq<ContextItem>)
    ensures KindTokens(items, PARTS)
         == Tokens(OfKind(SafetyPolicy), items) + Tokens(OfKind(ApprovalPolicy), items)
          + Tokens(OfKind(UserPrompt), items) + Tokens(OfKind(PendingToolCall), items)
          + Tokens(OfKind(Cancellation), items)
  {
    assert PARTS[1..] == [ApprovalPolicy, UserPrompt, PendingToolCall, Cancellation];
    assert PARTS[1..][1..] == [UserPrompt, PendingToolCall, Cancellation];
    assert PARTS[1..][1..][1..] == [PendingToolCall, Cancellation];
    assert PARTS[1..][1..][1..][1..] == [Cancellation];
    assert KindTokens(items, [Cancellation]) == Tokens(OfKind(Cancellation), items);
    assert KindTokens(items, [PendingToolCall, Cancellation])
         == Tokens(OfKind(PendingToolCall), items) + KindTokens(items, [Cancellation]);
    assert KindTokens(items, [UserPrompt, PendingToolCall, Cancellation])
        == Tokens(OfKind(UserPrompt), items) + KindTokens(items, [PendingToolCall, Cancellation]);
  }

  /** The size of the mandatory minimum is the saturated sum of all mandatory items: no part is missed or counted
      twice. */
  lemma MinimumExact(items: seq<ContextItem>)
    ensures FoldParts(0, Parts(items, PARTS)) == Saturate(Tokens(IsMandatory, items))
  {
    PartsExact(0, items, PARTS);
    KindsCover(items);
  }

  /** A record counts the items of its kind, modulo 2^32, and adds up their tokens. */
  ghost predicate IsRecordOf(r: PartRecord, items: seq<ContextItem>, kind: ItemKind) {
    && r.part == kind && r.items == |Filter(OfKind(kind), items)| % 4_294_967_296
    && r.tokens == Saturate(Tokens(OfKind(kind), items))
  }

  lemma RecordMeans(items: seq<ContextItem>, kind: ItemKind)
    ensures IsRecordOf(RecordOf(items, kind), items, kind)
  {
    SortPermutes(By(AgeKey), Filter(OfKind(kind), items));
    PartTokens(items, kind);
    FoldSaturates(0, Every, PartItems(items, kind));
  }

  /** There is a record for exactly the kinds of which there is an item, in the order of the kinds. */
  lemma {:induction false} PartsMean(items: seq<ContextItem>, kinds: seq<ItemKind>)
    ensures forall r :: r in Parts(items, kinds) ==> r.part in kinds && IsRecordOf(r, items, r.part)
    ensures forall k :: k in kinds ==>
              ((exists r :: r in Parts(items, kinds) && r.part == k) <==> exists x :: x in items && x.kind == k)
  {
    if kinds != [] {
      var k := kinds[0];
      PartsMean(items, kinds[1..]);
      RecordMeans(items, k);
      PartPresent(items, k);
      HeadTail(kinds);
      var head := if PartItems(items, k) == [] then [] else [RecordOf(items, k)];
      assert Parts(items, kinds) == head + Parts(items, kinds[1..]);
      forall j | j in kinds
        ensures (exists r :: r in Parts(items, kinds) && r.part == j) <==> exists x :: x in items && x.kind == j
      {
        if j == k && head != [] { assert head[0] in Parts(items, kinds); }
        if r :| r in Parts(items, kinds[1..]) && r.part == j { assert r in Parts(items, kinds); }
      }
    }
  }

  lemma PartPresent(items: seq<ContextItem>, kind: ItemKind)
    ensures PartItems(items, kind) != [] <==> exists x :: x in items && x.kind == kind
  {
    var kept := Filter(OfKind(kind), items);
    SortPermutes(By(AgeKey), kept);
    FilterMembers(OfKind(kind), items);
    if kept != [] { assert kept[0] in kept; }
    if x :| x in items && x.kind == kind { assert x in kept; }
  }

  lemma {:induction false} PartsForgetOrder(a: seq<ContextItem>, b: seq<ContextItem>, kinds: seq<ItemKind>)
    requires multiset(a) == multiset(b)
    ensures Parts(a, kinds) == Parts(b, kinds)
  {
    if kinds != [] {
      PartsForgetOrder(a, b, kinds[1..]);
      var p := OfKind(kinds[0]);
      FilterPermutes(p, a, b);
      Members(Filter(p, a), Filter(p, b));
      SortPermutes(By(AgeKey), Filter(p, a));
      SortPermutes(By(AgeKey), Filter(p, b));
      PartTokens(a, kinds[0]);
      PartTokens(b, kinds[0]);
      TokensForgetOrder(p, a, b);
    }
  }
}
