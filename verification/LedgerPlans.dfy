/**
 When an equal ledger hash means an equal model input, over all ready plans (crates/context-budget/src/ledger.rs,
 planner.rs).
 */
module LedgerPlans {
  import opened Machine
  import opened Texts
  import opened Order
  import opened Items
  import opened Profiles
  import opened Pruning
  import opened Budgeting
  import opened Ladder
  import opened LadderFacts
  import opened Planner
  import opened PlannerFacts
  import opened PlannerOrder
  import opened PlannerLimit
  import opened SummaryOrder
  import opened LedgerDigest

  // ------------------------------------------------------------------------ ready plans

  /** A ready plan for some request, in some setup. */
  ghost predicate IsReadyPlan(plan: Plan) {
    IsReady(plan) && exists setup: Setup, request: PlanRequest, sink: OffloadSink, summarizer: Summarizer,
                            override: Option<Profile> ::
                       plan == PlanFor(setup, request, sink, summarizer, override)
  }

  lemma {:induction false} PartsAreParts(items: seq<ContextItem>, kinds: seq<ItemKind>)
    ensures forall p :: p in Parts(items, kinds) ==> p.part in kinds
  {
    if kinds != [] {
      PartsAreParts(items, kinds[1..]);
      HeadTail(kinds);
    }
  }

  /** What the ledger of a ready plan records. */
  ghost predicate RecordsPlan(plan: Plan) {
    && plan.ledger.selectedItems == SelectedRecords(plan.selected) && plan.ledger.unavailable.None?
    && forall p :: p in plan.ledger.mandatoryParts ==> p.part in PARTS
  }

  lemma ConcludeRecords(request: PlanRequest, profile: Profile, version: string, fallback: bool,
                        parts: seq<PartRecord>, pre: seq<ContextItem>, st: State)
    requires IsReady(Conclude(request, profile, version, fallback, parts, pre, st))
    requires forall p :: p in parts ==> p.part in PARTS
    ensures RecordsPlan(Conclude(request, profile, version, fallback, parts, pre, st))
  {
  }

  lemma ReadyPlanRecords(plan: Plan)
    requires IsReadyPlan(plan)
    ensures RecordsPlan(plan)
  {
    var setup: Setup, request: PlanRequest, sink: OffloadSink, summarizer: Summarizer, override: Option<Profile> :|
      plan == PlanFor(setup, request, sink, summarizer, override);
    PlanIsAssembly(setup, request, sink, summarizer, override);
    var (e, fallback) := Choose(setup).value;
    var profile := EffectiveProfile(BaseProfile(setup, request, override), fallback);
    AssembledRecords(request, profile, e.version, fallback, EstimateAll(setup.hashing, e, request.inputs), sink,
                     summarizer);
  }

  lemma AssembledRecords(request: PlanRequest, profile: Profile, version: string, fallback: bool,
                         items: seq<ContextItem>, sink: OffloadSink, summarizer: Summarizer)
    requires IsReady(Assemble(request, profile, version, fallback, items, sink, summarizer))
    ensures RecordsPlan(Assemble(request, profile, version, fallback, items, sink, summarizer))
  {
    AssembleReached(request, profile, version, fallback, items, sink, summarizer);
    PartsAreParts(items, PARTS);
    ConcludeRecords(request, profile, version, fallback, Parts(items, PARTS),
                    Filter(NotSelected, PruneOptional(items, request.now)),
                    Reduced(request, profile, items, sink, summarizer));
  }

  // ------------------------------------------------------------------------ light plans

  /** An estimator that finds every content equally large. */
  function Sized(t: u32): Estimator {
    Estimator("v", "c", (c: Content) => t, 0)
  }

  function SizedSetup(p: Profile, t: u32): Setup {
    Setup((provider: string, model: string, window: Option<u32>) => p, Some(Sized(t)), true, NAMING)
  }

  function Request(inputs: seq<PlanInput>): PlanRequest {
    PlanRequest("call", "p", "m", None, 0, inputs, None, None, false)
  }

  function LightPlan(p: Profile, t: u32, inputs: seq<PlanInput>): Plan {
    PlanFor(SizedSetup(p, t), Request(inputs), NO_OFFLOAD, NO_SUMMARIZER, None)
  }

  /** Items that fit under the soft limit and that no step has anything against. */
  ghost predicate Light(p: Profile, items: seq<ContextItem>) {
    && IsValid(p) && Immune(items, 0, p.lowPriorityCutoff)
    && Tokens(IsSelected, items) + ReservesTotal(p) <= p.softLimitTokens
  }

  lemma LightReduced(p: Profile, request: PlanRequest, items: seq<ContextItem>)
    requires Light(p, items) && request.now == 0 && !request.forceReduction
    ensures Reduced(request, p, items, NO_OFFLOAD, NO_SUMMARIZER) == State(items, ReservesTotal(p), NOTHING_DONE)
  {
    StartImmune(request, items, p.lowPriorityCutoff);
    ReduceCases(request, p, FoldParts(0, Parts(items, PARTS)), items, NO_OFFLOAD, NO_SUMMARIZER);
    ContextExact(items);
  }

  lemma LightConcluded(p: Profile, request: PlanRequest, items: seq<ContextItem>)
    requires Light(p, items) && request.now == 0
    ensures Conclude(request, p, "v", false, [], Filter(NotSelected, PruneOptional(items, request.now)),
                     State(items, ReservesTotal(p), NOTHING_DONE))
         == Deliver(request, p, "v", false, [], InContextOrder(items), [], ReservesTotal(p), NOTHING_DONE)
  {
    PruneImmune(items, request.now, p.lowPriorityCutoff);
    SelectFresh(items);
    FilterNone(NotSelected, items);
    assert Map(Explain(NOTHING_DONE.summaries), []) == [];
  }

  lemma LightReady(p: Profile, request: PlanRequest, items: seq<ContextItem>)
    requires Light(p, items)
    ensures IsReady(Deliver(request, p, "v", false, [], InContextOrder(items), [], ReservesTotal(p), NOTHING_DONE))
  {
    SelectFresh(items);
    OrderedTokens(items);
    DeliverCheck(request, p, "v", false, [], InContextOrder(items), [], ReservesTotal(p), NOTHING_DONE);
  }

  /** Light items are sent as they are. */
  lemma LightPlanned(p: Profile, t: u32, inputs: seq<PlanInput>, items: seq<ContextItem>)
    requires items == EstimateAll(NAMING, Sized(t), inputs) && Light(p, items)
    ensures LightPlan(p, t, inputs)
         == Deliver(Request(inputs), p, "v", false, [], InContextOrder(items), [], ReservesTotal(p), NOTHING_DONE)
    ensures IsReadyPlan(LightPlan(p, t, inputs))
  {
    var request := Request(inputs);
    NotesHaveNoParts(items);
    PlanAssembles(SizedSetup(p, t), request, NO_OFFLOAD, NO_SUMMARIZER, None);
    NothingMandatory(request, p, "v", false, items, NO_OFFLOAD, NO_SUMMARIZER);
    LightReduced(p, request, items);
    LightConcluded(p, request, items);
    LightReady(p, request, items);
  }

  /** The ledger of a light plan, apart from what it selects. */
  function LightLedger(p: Profile, total: u32, records: seq<SelectedRecord>): Ledger {
    Ledger("ledger-call", p.profileVersion, "v", false, true, 0, total, ReservesTotal(p), total, records, [], [],
           [], [], None, None, None)
  }

  lemma LightDelivered(p: Profile, request: PlanRequest, ordered: seq<ContextItem>)
    requires request == Request(request.inputs) && (forall x :: x in ordered ==> IsOptional(x))
    requires IsReady(Deliver(request, p, "v", false, [], ordered, [], ReservesTotal(p), NOTHING_DONE))
    ensures var plan := Deliver(request, p, "v", false, [], ordered, [], ReservesTotal(p), NOTHING_DONE);
      && plan.selected == ordered
      && plan.ledger == LightLedger(p, FoldTokens(0, IsOptional, ordered), SelectedRecords(ordered))
  {
    FoldExact(IsMandatory, ordered);
    NoTokens(IsMandatory, ordered);
    assert DroppedRecords([]) == [];
  }

  lemma {:induction false} NoTokens(p: ContextItem -> bool, s: seq<ContextItem>)
    requires forall x :: x in s ==> !p(x)
    ensures Tokens(p, s) == 0
  {
    if s != [] {
      HeadTail(s);
      NoTokens(p, s[1..]);
    }
  }

  // ------------------------------------------------------- contents are not in the text

  function Memo(p: Profile, id: string, content: string): PlanInput {
    Note(id, Memory, p.lowPriorityCutoff).(content := Text(content))
  }

  function Remembered(p: Profile, id: string, content: string): ContextItem {
    Estimated(NAMING, Sized(0), Memo(p, id, content))
  }

  lemma MemoLight(p: Profile, id: string, content: string)
    requires IsValid(p)
    ensures EstimateAll(NAMING, Sized(0), [Memo(p, id, content)]) == [Remembered(p, id, content)]
    ensures Light(p, [Remembered(p, id, content)])
  {
    var x := Remembered(p, id, content);
    forall y | y in [x] ensures y == x {}
    assert [x][1..] == [];
    TargetFits(p);
  }

  lemma OneInOrder(x: ContextItem)
    requires IsOptionalSelected(x)
    ensures InContextOrder([x]) == [x]
  {
    FilterOne(x);
    assert [x][1..] == [];
    assert Sort(By(ContextKey), []) == [] && Insert(By(ContextKey), x, []) == [x];
  }

  /** A call with one memory sends that memory, and its ledger shows the id but not the content. */
  lemma MemoSent(p: Profile, id: string, content: string)
    requires IsValid(p)
    ensures var plan := LightPlan(p, 0, [Memo(p, id, content)]);
      && IsReadyPlan(plan) && plan.selected == [Remembered(p, id, content)]
      && plan.ledger == LightLedger(p, 0, [SelectedRecord(id, 0)])
  {
    var x := Remembered(p, id, content);
    MemoLight(p, id, content);
    LightPlanned(p, 0, [Memo(p, id, content)], [x]);
    OneInOrder(x);
    LightDelivered(p, Request([Memo(p, id, content)]), [x]);
    assert [x][1..] == [];
    assert FoldTokens(0, IsOptional, [x]) == 0;
    assert SelectedRecords([x]) == [SelectedRecord(id, 0)];
  }

  /** Two calls that send different memories under one id have the same ledger, so that an equal hash does not mean an
      equal model input. */
  lemma ContentIsNotDigested(p: Profile, id: string, c: string, d: string)
    requires IsValid(p) && c != d
    ensures var a, b := LightPlan(p, 0, [Memo(p, id, c)]), LightPlan(p, 0, [Memo(p, id, d)]);
      IsReadyPlan(a) && IsReadyPlan(b) && a.ledger == b.ledger && Sent(a) == [(id, c)] && Sent(b) == [(id, d)]
  {
    MemoSent(p, id, c);
    MemoSent(p, id, d);
  }

  /** What a plan sends: ids and contents, by their hash, in order. */
  function Sent(plan: Plan): seq<(string, string)> {
    Map((x: ContextItem) => (x.id, x.contentHash), plan.selected)
  }

  /** A ready plan that draws what it sends from `V` and has a printable ledger. */
  ghost predicate DrawsFrom(V: iset<(string, string)>, plan: Plan) {
    IsReadyPlan(plan) && Printable(plan.ledger) && forall s :: s in Sent(plan) ==> s in V
  }

  /** Among such plans an equal hashed text means an equal model input. */
  ghost predicate TextMeansInput(V: iset<(string, string)>) {
    forall a, b :: DrawsFrom(V, a) && DrawsFrom(V, b) && DigestText(a.ledger) == DigestText(b.ledger) ==>
      Sent(a) == Sent(b)
  }

  /** No id stands for two contents. */
  ghost predicate Binding(V: iset<(string, string)>) {
    forall id, c, d :: '\n' !in id && (id, c) in V && (id, d) in V ==> c == d
  }

  lemma SentIds(plan: Plan)
    requires plan.ledger.selectedItems == SelectedRecords(plan.selected)
    ensures |Sent(plan)| == |plan.ledger.selectedItems|
    ensures forall i :: 0 <= i < |Sent(plan)| ==> Sent(plan)[i].0 == plan.ledger.selectedItems[i].id
  {
  }

  lemma BoundAlike(V: iset<(string, string)>, s: seq<(string, string)>, t: seq<(string, string)>)
    requires Binding(V) && |s| == |t|
    requires forall i :: 0 <= i < |s| ==> s[i] in V && t[i] in V && s[i].0 == t[i].0 && '\n' !in s[i].0
    ensures s == t
  {
    forall i | 0 <= i < |s| ensures s[i] == t[i] {
      assert (s[i].0, s[i].1) in V && (s[i].0, t[i].1) in V;
    }
  }

  /** What a plan with a printable ledger sends under which ids. */
  lemma DrawnIds(V: iset<(string, string)>, plan: Plan)
    requires DrawsFrom(V, plan)
    ensures |Sent(plan)| == |plan.ledger.selectedItems|
    ensures forall i :: 0 <= i < |Sent(plan)| ==>
              Sent(plan)[i] in V && Sent(plan)[i].0 == plan.ledger.selectedItems[i].id && '\n' !in Sent(plan)[i].0
  {
    ReadyPlanRecords(plan);
    SentIds(plan);
    forall i | 0 <= i < |Sent(plan)|
      ensures Sent(plan)[i] in V && '\n' !in Sent(plan)[i].0
    {
      assert Sent(plan)[i] in Sent(plan) && plan.ledger.selectedItems[i] in plan.ledger.selectedItems;
    }
  }

  lemma SentTold(V: iset<(string, string)>, a: Plan, b: Plan)
    requires Binding(V) && DrawsFrom(V, a) && DrawsFrom(V, b) && DigestText(a.ledger) == DigestText(b.ledger)
    ensures Sent(a) == Sent(b)
  {
    RecordsTold(a.ledger, b.ledger);
    DrawnIds(V, a);
    DrawnIds(V, b);
    BoundAlike(V, Sent(a), Sent(b));
  }

  lemma PlainProfile() returns (p: Profile)
    ensures IsValid(p) && p.profileVersion == "v"
  {
    FallbackThreshold("p", "m", "v", SMALLEST_WINDOW);
    p := Fallback("p", "m", "v", SMALLEST_WINDOW);
  }

  lemma LightPrintable(p: Profile, total: u32, records: seq<SelectedRecord>)
    requires '\n' !in p.profileVersion && forall r :: r in records ==> '\n' !in r.id
    ensures Printable(LightLedger(p, total, records))
  {
  }

  lemma MemoDrawn(V: iset<(string, string)>, p: Profile, id: string, content: string)
    requires IsValid(p) && '\n' !in p.profileVersion && '\n' !in id && (id, content) in V
    ensures var plan := LightPlan(p, 0, [Memo(p, id, content)]);
      DrawsFrom(V, plan) && plan.ledger == LightLedger(p, 0, [SelectedRecord(id, 0)]) && Sent(plan) == [(id, content)]
  {
    MemoSent(p, id, content);
    LightPrintable(p, 0, [SelectedRecord(id, 0)]);
    SentOne(LightPlan(p, 0, [Memo(p, id, content)]), Remembered(p, id, content));
  }

  lemma SentOne(plan: Plan, x: ContextItem)
    requires plan.selected == [x]
    ensures Sent(plan) == [(x.id, x.contentHash)]
  {
  }

  lemma Confuses(V: iset<(string, string)>, a: Plan, b: Plan)
    requires DrawsFrom(V, a) && DrawsFrom(V, b) && a.ledger == b.ledger && Sent(a) != Sent(b)
    ensures !TextMeansInput(V)
  {
  }

  lemma AmbiguousConfuses(V: iset<(string, string)>, id: string, c: string, d: string)
    requires '\n' !in id && (id, c) in V && (id, d) in V && c != d
    ensures !TextMeansInput(V)
  {
    var p := PlainProfile();
    MemoDrawn(V, p, id, c);
    MemoDrawn(V, p, id, d);
    assert [(id, c)][0] != [(id, d)][0];
    Confuses(V, LightPlan(p, 0, [Memo(p, id, c)]), LightPlan(p, 0, [Memo(p, id, d)]));
  }

  /** Among ready plans with printable ledgers, an equal hashed text means an equal model input if and only if no id
      stands for two contents. */
  lemma EqualTextMeansEqualInput(V: iset<(string, string)>)
    ensures TextMeansInput(V) <==> Binding(V)
  {
    if Binding(V) {
      forall a, b | DrawsFrom(V, a) && DrawsFrom(V, b) && DigestText(a.ledger) == DigestText(b.ledger)
        ensures Sent(a) == Sent(b)
      {
        SentTold(V, a, b);
      }
    } else {
      var id, c, d :| '\n' !in id && (id, c) in V && (id, d) in V && c != d;
      AmbiguousConfuses(V, id, c, d);
    }
  }

  // ------------------------------------------------------------------ ids with newlines

  /** A memory and an older exchange, which stand in this order in the context. */
  function Two(p: Profile, x: string, y: string): seq<PlanInput> {
    [Note(x, Memory, p.lowPriorityCutoff), Note(y, History, p.lowPriorityCutoff)]
  }

  function SizedNote(p: Profile, t: u32, id: string, kind: ItemKind): ContextItem {
    Estimated(NAMING, Sized(t), Note(id, kind, p.lowPriorityCutoff))
  }

  lemma TwoLight(p: Profile, t: u32, x: string, y: string)
    requires IsValid(p) && x != y && 2 * t + ReservesTotal(p) <= p.softLimitTokens
    ensures var items := [SizedNote(p, t, x, Memory), SizedNote(p, t, y, History)];
      EstimateAll(NAMING, Sized(t), Two(p, x, y)) == items && Light(p, items)
  {
    var a, b := SizedNote(p, t, x, Memory), SizedNote(p, t, y, History);
    forall z | z in [a, b] ensures z == a || z == b {}
    assert [a, b][1..] == [b] && [b][1..] == [];
    assert Tokens(IsSelected, [b]) == t;
  }

  lemma TwoInOrder(a: ContextItem, b: ContextItem)
    requires IsOptionalSelected(a) && IsOptionalSelected(b) && HierarchyLevel(a) > HierarchyLevel(b)
    ensures InContextOrder([a, b]) == [a, b]
  {
    var leq, s := By(ContextKey), [a, b];
    FilterNone(IsMandatory, s);
    FilterAll(IsOptional, s);
    assert s[1..] == [b] && [b][1..] == [];
    assert ContextKey(a)[0] == Desc(HierarchyLevel(a)) && ContextKey(b)[0] == Desc(HierarchyLevel(b));
    assert Leq(ContextKey(a), ContextKey(b));
    assert leq(a, b);
    assert Sort(leq, [b]) == [b] by { assert Sort(leq, [b]) == Insert(leq, b, []); }
    assert Insert(leq, a, [b]) == [a] + [b];
    assert Sort(leq, s) == Insert(leq, s[0], Sort(leq, s[1..]));
    assert SortBy(MandatoryKey, []) == [];
  }

  lemma TwoRecords(a: ContextItem, b: ContextItem)
    requires IsOptional(a) && IsOptional(b) && a.estimatedTokens + b.estimatedTokens <= U32_MAX
    ensures FoldTokens(0, IsOptional, [a, b]) == a.estimatedTokens + b.estimatedTokens
    ensures SelectedRecords([a, b])
         == [SelectedRecord(a.id, a.estimatedTokens), SelectedRecord(b.id, b.estimatedTokens)]
  {
    assert [a, b][1..] == [b] && [b][1..] == [];
    assert Tokens(IsOptional, [b]) == b.estimatedTokens;
    FoldExact(IsOptional, [a, b]);
  }

  lemma TwoPlanned(p: Profile, t: u32, inputs: seq<PlanInput>, a: ContextItem, b: ContextItem)
    requires EstimateAll(NAMING, Sized(t), inputs) == [a, b] && Light(p, [a, b])
    requires IsOptionalSelected(a) && IsOptionalSelected(b) && HierarchyLevel(a) > HierarchyLevel(b)
    ensures IsReadyPlan(LightPlan(p, t, inputs)) && LightPlan(p, t, inputs).selected == [a, b]
    ensures LightPlan(p, t, inputs).ledger == LightLedger(p, FoldTokens(0, IsOptional, [a, b]), SelectedRecords([a, b]))
  {
    LightPlanned(p, t, inputs, [a, b]);
    TwoInOrder(a, b);
    LightDelivered(p, Request(inputs), [a, b]);
  }

  /** A call with these two sends both, and its ledger depends only on their ids. */
  lemma TwoSent(p: Profile, t: u32, x: string, y: string)
    requires IsValid(p) && x != y && 2 * t + ReservesTotal(p) <= p.softLimitTokens
    ensures IsReadyPlan(LightPlan(p, t, Two(p, x, y)))
    ensures LightPlan(p, t, Two(p, x, y)).ledger
         == LightLedger(p, 2 * t, [SelectedRecord(x, t), SelectedRecord(y, t)])
  {
    var a, b := SizedNote(p, t, x, Memory), SizedNote(p, t, y, History);
    NotesOptional(p, t, x, y);
    TwoLight(p, t, x, y);
    TwoPlanned(p, t, Two(p, x, y), a, b);
    TwoLedger(p, t, LightPlan(p, t, Two(p, x, y)).ledger, x, y, a, b);
  }

  lemma TwoLedger(p: Profile, t: u32, l: Ledger, x: string, y: string, a: ContextItem, b: ContextItem)
    requires l == LightLedger(p, FoldTokens(0, IsOptional, [a, b]), SelectedRecords([a, b])) && 2 * t <= U32_MAX
    requires IsOptional(a) && IsOptional(b) && a.id == x && b.id == y && a.estimatedTokens == b.estimatedTokens == t
    ensures l == LightLedger(p, 2 * t, [SelectedRecord(x, t), SelectedRecord(y, t)])
  {
    TwoRecords(a, b);
  }

  lemma NotesOptional(p: Profile, t: u32, x: string, y: string)
    ensures var a, b := SizedNote(p, t, x, Memory), SizedNote(p, t, y, History);
      && IsOptionalSelected(a) && IsOptionalSelected(b) && HierarchyLevel(a) > HierarchyLevel(b)
      && a.id == x && b.id == y && a.estimatedTokens == b.estimatedTokens == t
  {
  }

  lemma TwoLines(s: string, t: string)
    ensures Lines([s, t]) == s + ['\n'] + (t + ['\n'])
  {
    assert [t][1..] == [] && [s, t][1..] == [t];
    assert Lines([]) == "" && t + ['\n'] + "" == t + ['\n'];
    assert Lines([t]) == t + ['\n'];
  }

  /** Wherever the line break of an id falls, the text is the same. */
  lemma BreakMoves(u: string, v: string, w: string)
    ensures Lines([u, v + ['\n'] + w]) == Lines([u + ['\n'] + v, w])
  {
    TwoLines(u, v + ['\n'] + w);
    TwoLines(u + ['\n'] + v, w);
    assert u + ['\n'] + (v + ['\n'] + w + ['\n']) == u + ['\n'] + v + ['\n'] + (w + ['\n']);
  }

  /** An id that spells out the end of its line and the beginning of the next one. */
  function Forged(head: string, t: u32, tail: string): string {
    head + (":" + Decimal(t) + "\n  1:") + tail
  }

  lemma ForgedLine(i: nat, head: string, t: u32, tail: string)
    ensures SelectedLine(i, SelectedRecord(Forged(head, t, tail), t))
         == SelectedLine(i, SelectedRecord(head, t)) + ['\n'] + SelectedLine(1, SelectedRecord(tail, t))
  {
    assert Decimal(1) == "1";
  }

  /** Three pieces of text can be two items in two ways. */
  lemma ForgedText(p: Profile, total: u32, t: u32, x: string, y: string, z: string)
    ensures DigestText(LightLedger(p, total, [SelectedRecord(x, t), SelectedRecord(Forged(y, t, z), t)]))
         == DigestText(LightLedger(p, total, [SelectedRecord(Forged(x, t, y), t), SelectedRecord(z, t)]))
  {
    var a, b := [SelectedRecord(x, t), SelectedRecord(Forged(y, t, z), t)],
                [SelectedRecord(Forged(x, t, y), t), SelectedRecord(z, t)];
    var u, v, w := SelectedLine(0, SelectedRecord(x, t)), SelectedLine(1, SelectedRecord(y, t)),
                   SelectedLine(1, SelectedRecord(z, t));
    ForgedLine(1, y, t, z);
    ForgedLine(0, x, t, y);
    assert SelectedLines(a) == [u, v + ['\n'] + w] && SelectedLines(b) == [u + ['\n'] + v, w];
    BreakMoves(u, v, w);
  }

  lemma ForgedDiffers(head: string, t: u32, tail: string)
    ensures |Forged(head, t, tail)| > |head| + |tail|
  {
  }

  /** Two ready plans that send different items and have the same hashed text, under every valid profile, for every
      size two items of which fit under the soft limit. */
  lemma NewlineForgesItems(p: Profile, t: u32)
    requires IsValid(p) && 2 * t + ReservesTotal(p) <= p.softLimitTokens
    ensures var a := LightPlan(p, t, Two(p, "1", Forged("11", t, "111")));
      var b := LightPlan(p, t, Two(p, Forged("1", t, "11"), "111"));
      && IsReadyPlan(a) && IsReadyPlan(b) && DigestText(a.ledger) == DigestText(b.ledger)
      && a.ledger.selectedItems != b.ledger.selectedItems
  {
    ForgedDiffers("11", t, "111");
    ForgedDiffers("1", t, "11");
    TwoSent(p, t, "1", Forged("11", t, "111"));
    TwoSent(p, t, Forged("1", t, "11"), "111");
    ForgedText(p, 2 * t, t, "1", "11", "111");
  }

  /** The ids of a ledger are over the alphabet, and everything else in it is printable. */
  ghost predicate Written(A: set<char>, l: Ledger) {
    && Printable(l.(selectedItems := [], droppedItems := [], compression := []))
    && (forall r :: r in l.selectedItems ==> Spelled(A, r.id))
    && (forall r :: r in l.droppedItems ==> Spelled(A, r.id))
    && (forall s :: s in l.compression ==> SummaryWritten(A, s))
  }

  ghost predicate Spelled(A: set<char>, s: string) {
    forall c :: c in s ==> c in A
  }

  ghost predicate SummaryWritten(A: set<char>, s: SummaryOutcome) {
    Spelled(A, s.summaryId) && (forall id :: id in s.sourceIds ==> Spelled(A, id)) && '\n' !in s.summarizerVersion
  }

  lemma WrittenPrints(A: set<char>, l: Ledger)
    requires Written(A, l) && '\n' !in A
    ensures Printable(l)
  {
    forall s | s in l.compression ensures SummaryPrintable(s) {}
  }

  ghost predicate Writes(A: set<char>, plan: Plan) {
    IsReadyPlan(plan) && Written(A, plan.ledger)
  }

  /** Ready plans with ids over the alphabet are told apart by what they select. */
  ghost predicate TextTells(A: set<char>) {
    forall a, b :: Writes(A, a) && Writes(A, b) && DigestText(a.ledger) == DigestText(b.ledger) ==>
      a.ledger.selectedItems == b.ledger.selectedItems
  }

  lemma ForgedSpelled(A: set<char>, head: string, tail: string)
    requires {'0', '1', ':', ' ', '\n'} <= A && Spelled(A, head) && Spelled(A, tail)
    ensures Spelled(A, Forged(head, 0, tail))
  {
    assert Decimal(0) == "0";
  }

  lemma TwoWritten(A: set<char>, p: Profile, x: string, y: string)
    requires IsValid(p) && '\n' !in p.profileVersion && x != y && Spelled(A, x) && Spelled(A, y)
    ensures Writes(A, LightPlan(p, 0, Two(p, x, y)))
  {
    TargetFits(p);
    TwoSent(p, 0, x, y);
    LightWritten(A, p, [SelectedRecord(x, 0), SelectedRecord(y, 0)]);
  }

  lemma LightWritten(A: set<char>, p: Profile, records: seq<SelectedRecord>)
    requires '\n' !in p.profileVersion && forall r :: r in records ==> Spelled(A, r.id)
    ensures Written(A, LightLedger(p, 0, records))
  {
  }

  lemma Untold(A: set<char>, a: Plan, b: Plan)
    requires Writes(A, a) && Writes(A, b) && DigestText(a.ledger) == DigestText(b.ledger)
    requires a.ledger.selectedItems != b.ledger.selectedItems
    ensures !TextTells(A)
  {
  }

  /** The two plans of `NewlineForgesItems`, for items without tokens. */
  function ForgedPlan(p: Profile, first: bool): Plan {
    if first then LightPlan(p, 0, Two(p, "1", Forged("11", 0, "111")))
    else LightPlan(p, 0, Two(p, Forged("1", 0, "11"), "111"))
  }

  lemma ForgedWrites(A: set<char>, p: Profile, first: bool)
    requires {'0', '1', ':', ' ', '\n'} <= A && IsValid(p) && '\n' !in p.profileVersion
    ensures Writes(A, ForgedPlan(p, first))
  {
    ForgedDiffers("11", 0, "111");
    ForgedDiffers("1", 0, "11");
    if first {
      ForgedSpelled(A, "11", "111");
      TwoWritten(A, p, "1", Forged("11", 0, "111"));
    } else {
      ForgedSpelled(A, "1", "11");
      TwoWritten(A, p, Forged("1", 0, "11"), "111");
    }
  }

  lemma ForgedAlike(p: Profile)
    requires IsValid(p)
    ensures DigestText(ForgedPlan(p, true).ledger) == DigestText(ForgedPlan(p, false).ledger)
    ensures ForgedPlan(p, true).ledger.selectedItems != ForgedPlan(p, false).ledger.selectedItems
  {
    TargetFits(p);
    NewlineForgesItems(p, 0);
  }

  lemma NewlineConfuses(A: set<char>)
    requires {'0', '1', ':', ' ', '\n'} <= A
    ensures !TextTells(A)
  {
    var p := PlainProfile();
    ForgedWrites(A, p, true);
    ForgedWrites(A, p, false);
    ForgedAlike(p);
    Untold(A, ForgedPlan(p, true), ForgedPlan(p, false));
  }

  /** Over any alphabet with the characters the text itself is written in, the hashed texts of ready plans determine
      the selected records if and only if the alphabet has no newline. */
  lemma IdsToldExactly(A: set<char>)
    requires {'0', '1', ':', ' '} <= A
    ensures TextTells(A) <==> '\n' !in A
  {
    if '\n' in A {
      NewlineConfuses(A);
    } else {
      forall a, b | Writes(A, a) && Writes(A, b) && DigestText(a.ledger) == DigestText(b.ledger)
        ensures a.ledger.selectedItems == b.ledger.selectedItems
      {
        WrittenPrints(A, a.ledger);
        WrittenPrints(A, b.ledger);
        RecordsTold(a.ledger, b.ledger);
      }
    }
  }

  // ------------------------------------------------------------------- ids with commas

  /** A summarizer that makes nothing of the two items it is given. */
  function Erasing(x: string, y: string): Summarizer {
    Summarizer(true, (cs: seq<ContextItem>) => Ok(Erased(x, y)))
  }

  function Erased(x: string, y: string): SummaryOutcome {
    SummaryOutcome("s", [x, y], 0, "v", false, None)
  }

  /** Two exchanges of the largest size. */
  function Exchanges(p: Profile, x: string, y: string): seq<PlanInput> {
    [Note(x, History, p.lowPriorityCutoff), Note(y, History, p.lowPriorityCutoff)]
  }

  function Exchanged(p: Profile, x: string, y: string): seq<ContextItem> {
    [SizedNote(p, U32_MAX, x, History), SizedNote(p, U32_MAX, y, History)]
  }

  lemma ExchangesImmune(p: Profile, x: string, y: string)
    requires x != y
    ensures EstimateAll(NAMING, Sized(U32_MAX), Exchanges(p, x, y)) == Exchanged(p, x, y)
    ensures Immune(Exchanged(p, x, y), 0, p.lowPriorityCutoff)
    ensures Tokens(IsSelected, Exchanged(p, x, y)) >= U32_MAX
  {
    var a, b := SizedNote(p, U32_MAX, x, History), SizedNote(p, U32_MAX, y, History);
    forall z | z in [a, b] ensures z == a || z == b {}
    assert [a, b][1..] == [b] && [b][1..] == [];
    assert Tokens(IsSelected, [b]) == U32_MAX;
  }

  lemma BothCompressible(a: ContextItem, b: ContextItem, x: string, y: string)
    requires IsCompressible(a) && IsCompressible(b) && a.id == x && b.id == y
    ensures Filter(IsCompressible, [a, b]) == [a, b]
    ensures Tokens(Among([x, y]), [a, b]) == a.estimatedTokens + b.estimatedTokens
  {
    FilterAll(IsCompressible, [a, b]);
    assert [a, b][1..] == [b] && [b][1..] == [];
    assert Tokens(Among([x, y]), [b]) == b.estimatedTokens;
  }

  lemma ExchangesAccepted(p: Profile, x: string, y: string, st: State)
    requires st.items == Exchanged(p, x, y)
    ensures Accepts(st, Erasing(x, y)) && Proposed(st, Erasing(x, y)) == Erased(x, y)
  {
    BothCompressible(SizedNote(p, U32_MAX, x, History), SizedNote(p, U32_MAX, y, History), x, y);
    FoldSaturates(0, Among([x, y]), Exchanged(p, x, y));
  }

  /** The two exchanges, absorbed, and the summary. */
  ghost predicate IsErased(p: Profile, x: string, y: string, items: seq<ContextItem>) {
    && |items| == 3 && (forall i :: 0 <= i < 2 ==> !items[i].selected && items[i].dropReason.None?)
    && items[0].id == x && items[1].id == y
    && IsOptionalSelected(items[2]) && items[2].id == "s" && items[2].estimatedTokens == 0
  }

  lemma AbsorbedPair(a: ContextItem, b: ContextItem, x: string, y: string)
    requires DistinctIds([a, b]) && a.id == x && b.id == y
    ensures AbsorbAll([a, b], [x, y]) == [Absorb()(a), Absorb()(b)]
  {
    AbsorbAllIsMap([a, b], [x, y]);
  }

  lemma AreErased(p: Profile, a: ContextItem, b: ContextItem, x: string, y: string, template: ContextItem)
    requires a.id == x && b.id == y && template.selected
    ensures IsErased(p, x, y, [Absorb()(a), Absorb()(b)] + [SummaryItem(template, Erased(x, y))])
  {
  }

  lemma ExchangesErased(p: Profile, x: string, y: string, st: State)
    requires x != y && st.items == Exchanged(p, x, y)
    ensures var after := L5(st, Erasing(x, y));
      && IsErased(p, x, y, after.items) && after.reserves == st.reserves
      && after.outcome == st.outcome.(summaries := st.outcome.summaries + [Erased(x, y)])
  {
    var a, b := SizedNote(p, U32_MAX, x, History), SizedNote(p, U32_MAX, y, History);
    ExchangesAccepted(p, x, y, st);
    L5Accepted(st, Erasing(x, y));
    AcceptedHasSource(st, Erasing(x, y));
    FilterMembers(IsCompressible, st.items);
    AbsorbedPair(a, b, x, y);
    AreErased(p, a, b, x, y, FirstNamed(st, Erasing(x, y)).value);
  }

  lemma FilterCons<T>(p: T -> bool, x: T, s: seq<T>)
    ensures Filter(p, [x] + s) == (if p(x) then [x] else []) + Filter(p, s)
  {
    assert ([x] + s)[1..] == s;
  }

  lemma ErasedFilters(a: ContextItem, b: ContextItem, s: ContextItem)
    requires !a.selected && !b.selected && s.selected
    ensures Filter(IsSelected, [a] + ([b] + [s])) == [s] && Filter(NotSelected, [a] + ([b] + [s])) == [a, b]
  {
    FilterAll(IsSelected, [s]);
    FilterNone(NotSelected, [s]);
    FilterCons(IsSelected, b, [s]);
    FilterCons(NotSelected, b, [s]);
    FilterCons(IsSelected, a, [b] + [s]);
    FilterCons(NotSelected, a, [b] + [s]);
  }

  lemma ErasedTokens(p: Profile, x: string, y: string, items: seq<ContextItem>)
    requires IsErased(p, x, y, items)
    ensures Tokens(IsSelected, items) == 0 && Tokens(IsOptionalSelected, items) == 0
    ensures Filter(IsSelected, items) == [items[2]] && Filter(NotSelected, items) == [items[0], items[1]]
  {
    var a, b, s := items[0], items[1], items[2];
    assert items == [a] + ([b] + [s]);
    ErasedFilters(a, b, s);
    TokensOfKind(IsSelected, items);
    assert [s][1..] == [];
    ContextExact(items);
    TokensSplit(items);
  }

  /** Where the ladder ends: the summary meets the goal, and the fifth level is the only one that helped. */
  lemma ExchangesClimb(p: Profile, x: string, y: string, ctx: Context, s4: State)
    requires IsValid(p) && x != y && ctx.profile == p && ctx.goal == p.targetTokens
    requires Unmoved(State(Exchanged(p, x, y), ReservesTotal(p), NOTHING_DONE), s4)
    ensures var st := Next(ReleaseOptionalReserves, Next(CompressHistory, s4, ctx, NO_OFFLOAD, Erasing(x, y)), ctx,
                           NO_OFFLOAD, Erasing(x, y));
      && IsErased(p, x, y, st.items) && st.reserves == ReservesTotal(p)
      && st.outcome.levelsApplied == [CompressHistory] && st.outcome.summaries == [Erased(x, y)]
  {
    ExchangesImmune(p, x, y);
    ExchangesErased(p, x, y, s4);
    var after := L5(s4, Erasing(x, y));
    ErasedTokens(p, x, y, after.items);
    ContextExact(s4.items);
    ContextExact(after.items);
    TargetFits(p);
    ErasedShrinks(p, s4, after);
    assert Next(CompressHistory, s4, ctx, NO_OFFLOAD, Erasing(x, y)) == Mark(CompressHistory, s4, after);
  }

  lemma ErasedShrinks(p: Profile, a: State, b: State)
    requires IsValid(p) && a.reserves == b.reserves == ReservesTotal(p)
    requires Tokens(IsOptionalSelected, a.items) >= U32_MAX && Tokens(IsOptionalSelected, b.items) == 0
    ensures LadderTotal(b.items, b.reserves) < LadderTotal(a.items, a.reserves)
  {
    LadderTotalExact(a.items, a.reserves);
    LadderTotalExact(b.items, b.reserves);
    TargetFits(p);
  }

  /** The ledger of a plan whose two inputs went into one summary. */
  function ErasedLedger(p: Profile, x: string, y: string): Ledger {
    LightLedger(p, 0, [SelectedRecord("s", 0)]).(levelsApplied := [CompressHistory], compression := [Erased(x, y)])
  }

  lemma ErasedConcluded(p: Profile, request: PlanRequest, x: string, y: string, st: State)
    requires IsValid(p) && request == Request(request.inputs) && IsErased(p, x, y, st.items)
    requires st.reserves == ReservesTotal(p)
    requires st.outcome.levelsApplied == [CompressHistory] && st.outcome.summaries == [Erased(x, y)]
    ensures IsReady(Conclude(request, p, "v", false, [], [], st))
    ensures Conclude(request, p, "v", false, [], [], st).ledger == ErasedLedger(p, x, y)
  {
    var s := st.items[2];
    ErasedTokens(p, x, y, st.items);
    OneInOrder(s);
    FinalCheck(request, p, "v", false, [], [], st);
    TargetFits(p);
    NothingRecorded(x, y, st);
    WeightlessRecords(s);
    ErasedDelivered(p, request, s, Dropped([], st), st.outcome);
  }

  lemma WeightlessRecords(s: ContextItem)
    requires s.estimatedTokens == 0
    ensures FoldTokens(0, IsMandatory, [s]) == 0 && FoldTokens(0, IsOptional, [s]) == 0
    ensures SelectedRecords([s]) == [SelectedRecord(s.id, 0)]
  {
    assert [s][1..] == [];
  }

  lemma ErasedDelivered(p: Profile, request: PlanRequest, s: ContextItem, dropped: seq<ContextItem>, outcome: Outcome)
    requires request == Request(request.inputs) && DroppedRecords(dropped) == []
    requires FoldTokens(0, IsMandatory, [s]) == 0 && FoldTokens(0, IsOptional, [s]) == 0
    requires IsReady(Deliver(request, p, "v", false, [], [s], dropped, ReservesTotal(p), outcome))
    ensures Deliver(request, p, "v", false, [], [s], dropped, ReservesTotal(p), outcome).ledger
         == LightLedger(p, 0, SelectedRecords([s])).(
              levelsApplied := outcome.levelsApplied, compression := outcome.summaries)
  {
  }

  lemma NothingRecorded(x: string, y: string, st: State)
    requires st.outcome.summaries == [Erased(x, y)] && |st.items| == 3
    requires Filter(NotSelected, st.items) == [st.items[0], st.items[1]] && st.items[0].id == x && st.items[1].id == y
    requires st.items[0].dropReason.None? && st.items[1].dropReason.None?
    ensures DroppedRecords(Dropped([], st)) == []
  {
    var summaries, left := st.outcome.summaries, Filter(NotSelected, st.items);
    assert x in summaries[0].sourceIds && y in summaries[0].sourceIds;
    assert IsSource(summaries, x) && IsSource(summaries, y);
    assert Map(Explain(summaries), left) == left;
    assert Dropped([], st) == left;
    FilterNone(HasReason, left);
    assert Map(RecordDrop, []) == [];
  }

  function ErasedPlan(p: Profile, x: string, y: string): Plan {
    PlanFor(SizedSetup(p, U32_MAX), Request(Exchanges(p, x, y)), NO_OFFLOAD, Erasing(x, y), None)
  }

  lemma ErasedReduced(p: Profile, x: string, y: string)
    requires IsValid(p) && x != y
    ensures var st := Reduced(Request(Exchanges(p, x, y)), p, Exchanged(p, x, y), NO_OFFLOAD, Erasing(x, y));
      && IsErased(p, x, y, st.items) && st.reserves == ReservesTotal(p)
      && st.outcome.levelsApplied == [CompressHistory] && st.outcome.summaries == [Erased(x, y)]
  {
    var request, items := Request(Exchanges(p, x, y)), Exchanged(p, x, y);
    ExchangesImmune(p, x, y);
    NotesHaveNoParts(items);
    StartImmune(request, items, p.lowPriorityCutoff);
    HugeClimbs(request, p, items);
    FourthImmune(request, p, 0, items, Erasing(x, y));
    ReduceClimbs(request, p, 0, items, NO_OFFLOAD, Erasing(x, y));
    ExchangesClimb(p, x, y, LadderContext(request, p, 0), Fourth(request, p, 0, items, NO_OFFLOAD, Erasing(x, y)));
  }

  /** A call with two exchanges of the largest size sends the summary, under every valid profile. */
  lemma ErasedPlanned(p: Profile, x: string, y: string)
    requires IsValid(p) && x != y
    ensures IsReadyPlan(ErasedPlan(p, x, y)) && ErasedPlan(p, x, y).ledger == ErasedLedger(p, x, y)
  {
    var request, items, summarizer := Request(Exchanges(p, x, y)), Exchanged(p, x, y), Erasing(x, y);
    ExchangesImmune(p, x, y);
    NotesHaveNoParts(items);
    PlanAssembles(SizedSetup(p, U32_MAX), request, NO_OFFLOAD, summarizer, None);
    NothingMandatory(request, p, "v", false, items, NO_OFFLOAD, summarizer);
    PruneImmune(items, 0, p.lowPriorityCutoff);
    FilterNone(NotSelected, items);
    ErasedReduced(p, x, y);
    ErasedConcluded(p, request, x, y, Reduced(request, p, items, NO_OFFLOAD, summarizer));
  }

  lemma ErasedAlike(p: Profile, x: string, y: string, x': string, y': string)
    requires IsValid(p) && x != y && x' != y' && CompressionLine(Erased(x, y)) == CompressionLine(Erased(x', y'))
    ensures SummarizedAlike(ErasedPlan(p, x, y), ErasedPlan(p, x', y'), [x, y], [x', y'])
  {
    ErasedPlanned(p, x, y);
    ErasedPlanned(p, x', y');
    ErasedText(p, x, y, x', y');
  }

  /** Ready plans with one summary each, made from different sources, and with the same hashed text. */
  ghost predicate SummarizedAlike(a: Plan, b: Plan, s: seq<string>, t: seq<string>) {
    && MadeFrom(a.ledger.compression, s) && MadeFrom(b.ledger.compression, t)
    && IsReadyPlan(a) && IsReadyPlan(b) && DigestText(a.ledger) == DigestText(b.ledger)
  }

  predicate MadeFrom(summaries: seq<SummaryOutcome>, ids: seq<string>) {
    |summaries| == 1 && summaries[0].sourceIds == ids
  }

  /** Two ready plans that summarize different inputs and have the same hashed text, without a newline anywhere, under
      every valid profile. */
  lemma CommaForgesSources(p: Profile)
    requires IsValid(p)
    ensures SummarizedAlike(ErasedPlan(p, "a,b", "c"), ErasedPlan(p, "a", "b,c"), ["a,b", "c"], ["a", "b,c"])
  {
    CommaApart();
    SameSources();
    ErasedAlike(p, "a,b", "c", "a", "b,c");
  }

  lemma CommaApart()
    ensures "a,b" != "c" && "a" != "b,c"
  {
    assert |"a,b"| != |"c"| && |"a"| != |"b,c"|;
  }

  lemma ErasedText(p: Profile, x: string, y: string, x': string, y': string)
    requires CompressionLine(Erased(x, y)) == CompressionLine(Erased(x', y'))
    ensures DigestText(ErasedLedger(p, x, y)) == DigestText(ErasedLedger(p, x', y'))
  {
    var a, b := ErasedLedger(p, x, y), ErasedLedger(p, x', y');
    assert Map(CompressionLine, a.compression) == Map(CompressionLine, b.compression);
    SameLinesSameText(a, b);
  }

  lemma SameSources()
    ensures CompressionLine(Erased("a,b", "c")) == CompressionLine(Erased("a", "b,c"))
  {
    JoinedHead(["a,b", "c"]);
    JoinedHead(["a", "b,c"]);
    assert ["a,b", "c"][1..] == ["c"] && ["a", "b,c"][1..] == ["b,c"];
    assert "a,b" + [','] + "c" == "a" + [','] + "b,c";
  }
}
