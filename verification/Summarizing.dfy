/**
 `BoundedSummarizer`: one attempt at a summary model, checked before it is believed,
 with a deterministic fallback (crates/context-budget/src/compression.rs).
 */
module Summarizing {
  import opened Machine
  import opened Texts
  import opened Order
  import opened Items
  import opened Ladder
  import opened LadderFacts

  datatype SummarizerConfig = SummarizerConfig(summaryBudgetTokens: u32, version: string)

  datatype RawSummary = RawSummary(summaryId: string, sourceIds: seq<string>, estimatedTokens: u32, text: string)

  /** Any summary model. */
  datatype SummaryModel = SummaryModel(available: bool, answer: seq<ContextItem> -> Result<RawSummary, string>)

  function Take(s: string, n: nat): string {
    if |s| <= n then s else s[..n]
  }

  predicate IsReplaceable(x: ContextItem) {
    HierarchyLevel(x) <= 1 && x.toolPairComplete && !IsMandatory(x)
  }

  function FallbackKey(x: ContextItem): Key {
    [I(EffectivePriority(x)), I(x.createdAt), S(x.contentHash), S(x.id)]
  }

  /** `fallback_summary`: whole items are replaced by one fixed-size reference. */
  function FallbackSummary(items: seq<ContextItem>, config: SummarizerConfig, digest: string -> string,
                           reason: string): SummaryOutcome
  {
    var ids := Ids(SortBy(FallbackKey, Filter(IsReplaceable, items)));
    SummaryOutcome("summary-fallback-" + Take(digest(Joined(ids)), 16), ids, Min(64, config.summaryBudgetTokens),
                   config.version + "+fallback", true, Some(Take(reason, 200)))
  }

  function SourceProblem(items: seq<ContextItem>, ids: seq<string>): Option<string> {
    if ids == [] then None
    else
      var found := Find(items, ids[0]);
      if found.None? then Some("unknown source id " + ids[0])
      else if IsMandatory(found.value) then Some("mandatory item " + ids[0] + " cannot be summarized")
      else if !found.value.toolPairComplete then Some("incomplete tool pair " + ids[0] + " cannot be summarized")
      else SourceProblem(items, ids[1..])
  }

  /** `validate`: the first objection to a model's answer. */
  function Objection(raw: RawSummary, items: seq<ContextItem>, config: SummarizerConfig): Option<string> {
    if raw.summaryId == "" then Some("summary_id is empty")
    else if raw.sourceIds == [] then Some("source_ids is empty")
    else if IsBlankText(raw.text) then Some("summary text is empty")
    else if raw.estimatedTokens > config.summaryBudgetTokens then Some("summary exceeds summary_budget")
    else SourceProblem(items, raw.sourceIds)
  }

  /** Whether the model is asked. */
  predicate Consults(attempted: bool, model: Option<SummaryModel>, items: seq<ContextItem>) {
    |items| >= 2 && !attempted && model.Some? && model.value.available
  }

  function Answer(attempted: bool, model: Option<SummaryModel>, config: SummarizerConfig, digest: string -> string,
                  items: seq<ContextItem>)
    : Result<SummaryOutcome, string>
  {
    if |items| < 2 then Err("summarizer needs at least two items")
    else if attempted then Ok(FallbackSummary(items, config, digest, "summarizer already attempted for this call"))
    else if !Consults(attempted, model, items)
        then Ok(FallbackSummary(items, config, digest, "summarizer model is unavailable"))
    else match model.value.answer(items)
      case Err(error) => Ok(FallbackSummary(items, config, digest, error))
      case Ok(raw) =>
        var problem := Objection(raw, items, config);
        if problem.Some? then Ok(FallbackSummary(items, config, digest, problem.value))
        else Ok(SummaryOutcome(raw.summaryId, raw.sourceIds, raw.estimatedTokens, config.version, false, None))
  }

  class BoundedSummarizer {
    const model: Option<SummaryModel>
    const config: SummarizerConfig
    const digest: string -> string
    var modelAttempted: bool

    constructor (model: Option<SummaryModel>, config: SummarizerConfig, digest: string -> string)
      ensures this.model == model && this.config == config && this.digest == digest && !modelAttempted
    {
      this.model, this.config, this.digest, this.modelAttempted := model, config, digest, false;
    }

    /** `validate`, as the loop over the named sources. */
    method Validate(raw: RawSummary, items: seq<ContextItem>) returns (problem: Option<string>)
      ensures problem == Objection(raw, items, config)
    {
      if raw.summaryId == "" { return Some("summary_id is empty"); }
      if raw.sourceIds == [] { return Some("source_ids is empty"); }
      if IsBlankText(raw.text) { return Some("summary text is empty"); }
      if raw.estimatedTokens > config.summaryBudgetTokens { return Some("summary exceeds summary_budget"); }
      for i := 0 to |raw.sourceIds|
        invariant SourceProblem(items, raw.sourceIds) == SourceProblem(items, raw.sourceIds[i..])
      {
        var id := raw.sourceIds[i];
        var found := Find(items, id);
        if found.None? { return Some("unknown source id " + id); }
        if IsMandatory(found.value) { return Some("mandatory item " + id + " cannot be summarized"); }
        if !found.value.toolPairComplete { return Some("incomplete tool pair " + id + " cannot be summarized"); }
      }
      return None;
    }

    /** The model is asked at most once in the lifetime of the object. */
    method Summarize(items: seq<ContextItem>) returns (r: Result<SummaryOutcome, string>)
      modifies this`modelAttempted
      ensures r == Answer(old(modelAttempted), model, config, digest, items)
      ensures modelAttempted == (old(modelAttempted) || Consults(old(modelAttempted), model, items))
    {
      if |items| < 2 { return Err("summarizer needs at least two items"); }
      if modelAttempted {
        return Ok(FallbackSummary(items, config, digest, "summarizer already attempted for this call"));
      }
      if model.None? || !model.value.available {
        return Ok(FallbackSummary(items, config, digest, "summarizer model is unavailable"));
      }
      modelAttempted := true;
      var answer := model.value.answer(items);
      if answer.Err? { return Ok(FallbackSummary(items, config, digest, answer.error)); }
      var raw := answer.value;
      var problem := Validate(raw, items);
      if problem.Some? { return Ok(FallbackSummary(items, config, digest, problem.value)); }
      return Ok(SummaryOutcome(raw.summaryId, raw.sourceIds, raw.estimatedTokens, config.version, false, None));
    }
  }

  /** The summarizer the ladder sees: always available, because of the fallback. */
  function AsSummarizer(attempted: bool, model: Option<SummaryModel>, config: SummarizerConfig,
                        digest: string -> string): Summarizer
  {
    Summarizer(true, (items: seq<ContextItem>) => Answer(attempted, model, config, digest, items))
  }

  lemma {:induction false} NoSourceProblem(items: seq<ContextItem>, ids: seq<string>)
    ensures SourceProblem(items, ids).None? <==>
              forall id :: id in ids ==> Find(items, id).Some? && IsReplaceableSource(Find(items, id).value)
  {
    if ids != [] {
      NoSourceProblem(items, ids[1..]);
      assert forall id :: id in ids <==> id == ids[0] || id in ids[1..];
    }
  }

  predicate IsReplaceableSource(x: ContextItem) {
    !IsMandatory(x) && x.toolPairComplete
  }

  /** The sources are completed, non-mandatory items of those given. */
  ghost predicate StandsFor(items: seq<ContextItem>, ids: seq<string>) {
    forall id :: id in ids ==> id in Ids(items) && Find(items, id).Some? && IsReplaceableSource(Find(items, id).value)
  }

  /** Everything that is asked of a model's answer, field by field. */
  ghost predicate Sound(raw: RawSummary, items: seq<ContextItem>, config: SummarizerConfig) {
    && raw.summaryId != "" && raw.sourceIds != [] && (exists c :: c in raw.text && !IsWhitespace(c))
    && raw.estimatedTokens <= config.summaryBudgetTokens
    && forall id :: id in raw.sourceIds ==>
         Find(items, id).Some? && !IsMandatory(Find(items, id).value) && Find(items, id).value.toolPairComplete
  }

  lemma BlankMeans(s: string)
    ensures IsBlankText(s) <==> !exists c :: c in s && !IsWhitespace(c)
  {
    if !IsBlankText(s) {
      var i :| 0 <= i < |s| && !IsWhitespace(s[i]);
      assert s[i] in s;
    }
    if c :| c in s && !IsWhitespace(c) { var i :| 0 <= i < |s| && s[i] == c; }
  }

  /** An answer meets no objection exactly if it is sound. */
  lemma ObjectionMeans(raw: RawSummary, items: seq<ContextItem>, config: SummarizerConfig)
    ensures Objection(raw, items, config).None? <==> Sound(raw, items, config)
  {
    BlankMeans(raw.text);
    NoSourceProblem(items, raw.sourceIds);
  }

  lemma ModelSources(raw: RawSummary, items: seq<ContextItem>, config: SummarizerConfig)
    requires Objection(raw, items, config).None?
    ensures raw.estimatedTokens <= config.summaryBudgetTokens && StandsFor(items, raw.sourceIds)
  {
    NoSourceProblem(items, raw.sourceIds);
    forall id | id in raw.sourceIds ensures id in Ids(items) { FindFinds(items, id); }
  }

  lemma FallbackBounded(items: seq<ContextItem>, config: SummarizerConfig, digest: string -> string, reason: string)
    requires DistinctIds(items)
    ensures var s := FallbackSummary(items, config, digest, reason);
      s.fallback && s.summaryTokens <= config.summaryBudgetTokens && StandsFor(items, s.sourceIds)
  {
    FallbackSources(items);
  }

  /** What the fallback may replace: complete, optional, and of the lowest two levels. */
  predicate MayGo(x: ContextItem) {
    && x.toolPairComplete
    && !(x.kind.SafetyPolicy? || x.kind.ApprovalPolicy? || x.kind.UserPrompt? || x.kind.PendingToolCall?
         || x.kind.Cancellation?)
    && (x.trust == Unverified || x.scratchpadStatus == Some(Recovered) || x.kind.History? || x.kind.ToolResult?
        || x.kind.ToolSchema? || x.kind.Evidence? || x.kind.Summary?)
  }

  lemma ReplaceableMeans(x: ContextItem)
    ensures IsReplaceable(x) <==> MayGo(x)
  {
  }

  /** By priority, then by age, by hash and by id. */
  predicate GoesNoLater(x: ContextItem, y: ContextItem) {
    if EffectivePriority(x) != EffectivePriority(y) then EffectivePriority(x) < EffectivePriority(y)
    else if x.createdAt != y.createdAt then x.createdAt < y.createdAt
    else HashedBefore(x, y)
  }

  lemma FallbackKeyMeans(x: ContextItem, y: ContextItem)
    ensures Leq(FallbackKey(x), FallbackKey(y)) <==> GoesNoLater(x, y)
  {
    var s, t := [S(x.contentHash), S(x.id)], [S(y.contentHash), S(y.id)];
    var s1, t1 := [I(x.createdAt)] + s, [I(y.createdAt)] + t;
    assert FallbackKey(x) == [I(EffectivePriority(x))] + s1 && FallbackKey(y) == [I(EffectivePriority(y))] + t1;
    LeqCons(I(EffectivePriority(x)), I(EffectivePriority(y)), s1, t1);
    LeqCons(I(x.createdAt), I(y.createdAt), s, t);
    HashThenId(x, y);
  }

  /** The fallback names every item it may replace and no other, each once, the least important and oldest first, and
      claims at most 64 tokens for them. */
  lemma FallbackExactly(items: seq<ContextItem>, config: SummarizerConfig, digest: string -> string, reason: string)
    returns (sources: seq<ContextItem>)
    ensures multiset(sources) == multiset(Filter(MayGo, items))
    ensures forall i, j :: 0 <= i < j < |sources| ==> GoesNoLater(sources[i], sources[j])
    ensures var s := FallbackSummary(items, config, digest, reason);
      && s.sourceIds == Ids(sources) && s.fallback
      && s.summaryTokens == (if config.summaryBudgetTokens < 64 then config.summaryBudgetTokens else 64)
      && s.summarizerVersion == config.version + "+fallback"
      && s.fallbackReason.Some? && s.fallbackReason.value <= reason && |s.fallbackReason.value| <= 200
      && (|reason| <= 200 ==> s.fallbackReason.value == reason)
  {
    var kept := Filter(IsReplaceable, items);
    sources := SortBy(FallbackKey, kept);
    SortPermutes(By(FallbackKey), kept);
    SameFilter(items);
    forall i, j | 0 <= i < j < |sources| ensures GoesNoLater(sources[i], sources[j]) {
      FallbackSorted(kept, i, j);
      FallbackKeyMeans(sources[i], sources[j]);
    }
  }

  lemma {:induction false} SameFilter(items: seq<ContextItem>)
    ensures Filter(IsReplaceable, items) == Filter(MayGo, items)
  {
    if items != [] {
      ReplaceableMeans(items[0]);
      SameFilter(items[1..]);
    }
  }

  lemma FallbackSorted(s: seq<ContextItem>, i: nat, j: nat)
    requires i < j < |SortBy(FallbackKey, s)|
    ensures Leq(FallbackKey(SortBy(FallbackKey, s)[i]), FallbackKey(SortBy(FallbackKey, s)[j]))
  {
    ByLawful(FallbackKey);
    SortSorted(By(FallbackKey), s);
    SortedAt(By(FallbackKey), SortBy(FallbackKey, s), i, j);
  }

  /** The answer of the model is passed on. */
  predicate Believed(attempted: bool, model: Option<SummaryModel>, config: SummarizerConfig, items: seq<ContextItem>) {
    && Consults(attempted, model, items) && model.value.answer(items).Ok?
    && Objection(model.value.answer(items).value, items, config).None?
  }

  /** A model is believed exactly on its first and only attempt, if it answers, and soundly. */
  lemma BelievedMeans(attempted: bool, model: Option<SummaryModel>, config: SummarizerConfig, items: seq<ContextItem>)
    ensures Believed(attempted, model, config, items) <==>
              && |items| >= 2 && !attempted && model.Some? && model.value.available
              && model.value.answer(items).Ok? && Sound(model.value.answer(items).value, items, config)
  {
    if Consults(attempted, model, items) && model.value.answer(items).Ok? {
      ObjectionMeans(model.value.answer(items).value, items, config);
    }
  }

  /** The one way an answer that is not the model's comes about. */
  lemma AnswerCases(attempted: bool, model: Option<SummaryModel>, config: SummarizerConfig, digest: string -> string,
                    items: seq<ContextItem>)
    returns (reason: string)
    requires |items| >= 2
    ensures attempted ==> reason == "summarizer already attempted for this call"
    ensures !attempted && (model.None? || !model.value.available) ==> reason == "summarizer model is unavailable"
    ensures !attempted && model.Some? && model.value.available && model.value.answer(items).Err? ==>
              reason == model.value.answer(items).error
    ensures Answer(attempted, model, config, digest, items)
         == if Believed(attempted, model, config, items)
            then var raw := model.value.answer(items).value;
              Ok(SummaryOutcome(raw.summaryId, raw.sourceIds, raw.estimatedTokens, config.version, false, None))
            else Ok(FallbackSummary(items, config, digest, reason))
  {
    reason := "";
    if !Believed(attempted, model, config, items) {
      if attempted {
        reason := "summarizer already attempted for this call";
      } else if !Consults(attempted, model, items) {
        reason := "summarizer model is unavailable";
      } else {
        var answer := model.value.answer(items);
        reason := if answer.Err? then answer.error else Objection(answer.value, items, config).value;
      }
    }
  }

  /** Every summary that leaves the bounded summarizer stays within its budget and stands only for
      non-mandatory, completed items it was given; a model's answer is passed on exactly if nothing is wrong with it. */
  lemma AnswerBounded(attempted: bool, model: Option<SummaryModel>, config: SummarizerConfig, digest: string -> string,
                      items: seq<ContextItem>)
    requires DistinctIds(items)
    ensures var r := Answer(attempted, model, config, digest, items);
      && (r.Ok? <==> |items| >= 2)
      && (r.Ok? ==>
            && r.value.summaryTokens <= config.summaryBudgetTokens && StandsFor(items, r.value.sourceIds)
            && (!r.value.fallback <==> Believed(attempted, model, config, items)))
  {
    if |items| >= 2 {
      var reason := AnswerCases(attempted, model, config, digest, items);
      FallbackBounded(items, config, digest, reason);
      if Believed(attempted, model, config, items) { ModelSources(model.value.answer(items).value, items, config); }
    }
  }

  lemma FallbackSources(items: seq<ContextItem>)
    requires DistinctIds(items)
    ensures forall id :: id in Ids(SortBy(FallbackKey, Filter(IsReplaceable, items))) ==>
              id in Ids(items) && Find(items, id).Some? && IsReplaceableSource(Find(items, id).value)
  {
    var kept := Filter(IsReplaceable, items);
    var sorted := SortBy(FallbackKey, kept);
    SortPermutes(By(FallbackKey), kept);
    FilterMembers(IsReplaceable, items);
    forall id | id in Ids(sorted) ensures id in Ids(items) && Find(items, id).Some? &&
        IsReplaceableSource(Find(items, id).value) {
      var i :| 0 <= i < |sorted| && sorted[i].id == id;
      assert sorted[i] in sorted;
      FindUnique(items, sorted[i]);
      FindFinds(items, id);
    }
  }

  lemma FallbackNamesGiven(items: seq<ContextItem>)
    ensures forall id :: id in Ids(SortBy(FallbackKey, Filter(IsReplaceable, items))) ==> id in Ids(items)
  {
    var kept := Filter(IsReplaceable, items);
    var sorted := SortBy(FallbackKey, kept);
    SortPermutes(By(FallbackKey), kept);
    FilterMembers(IsReplaceable, items);
    forall id | id in Ids(sorted) ensures id in Ids(items) {
      var i :| 0 <= i < |sorted| && sorted[i].id == id;
      assert sorted[i] in sorted;
      var j :| 0 <= j < |items| && items[j] == sorted[i];
      assert Ids(items)[j] == id;
    }
  }

  /** Whatever the model behind it does, the bounded summarizer names only sources it was given. */
  lemma BoundedIsHonest(attempted: bool, model: Option<SummaryModel>, config: SummarizerConfig,
                        digest: string -> string)
    ensures Honest(AsSummarizer(attempted, model, config, digest))
  {
    forall items: seq<ContextItem>, id |
      Answer(attempted, model, config, digest, items).Ok? &&
          id in Answer(attempted, model, config, digest, items).value.sourceIds
      ensures id in Ids(items)
    {
      var r := Answer(attempted, model, config, digest, items);
      if r.value.fallback {
        FallbackNamesGiven(items);
      } else {
        NoSourceProblem(items, r.value.sourceIds);
        FindFinds(items, id);
      }
    }
  }
}
