/**
 The theorems about plans, for any model behind the bounded summarizer.
 */
module PlannerBounded {
  import opened Machine
  import opened Items
  import opened Order
  import opened Profiles
  import opened Ladder
  import LadderFacts
  import opened LadderOrder
  import opened Summarizing
  import opened Planner
  import opened PlannerFacts
  import opened SummaryOrder

  /** A summarizer, by what it is made of. */
  datatype Bounded = Bounded(attempted: bool, model: Option<SummaryModel>, config: SummarizerConfig,
                             digest: string -> string)

  function Of(b: Bounded): Summarizer {
    AsSummarizer(b.attempted, b.model, b.config, b.digest)
  }

  lemma IsHonest(b: Bounded)
    ensures LadderFacts.Honest(Of(b))
  {
    BoundedIsHonest(b.attempted, b.model, b.config, b.digest);
  }

  /** Every ready plan holds all mandatory inputs. */
  lemma BoundedPlanKeepsMandatory(setup: Setup, request: PlanRequest, sink: OffloadSink, b: Bounded,
                                  override: Option<Profile>, plan: Plan)
    requires plan == PlanFor(setup, request, sink, Of(b), override) && IsReady(plan) && WellPosed(request)
    ensures Choose(setup).Some?
    ensures forall x :: x in EstimateAll(setup.hashing, Choose(setup).value.0, request.inputs) && IsMandatory(x) ==>
              x in plan.selected
  {
    IsHonest(b);
    HonestPlanKeepsMandatory(setup, request, sink, Of(b), override, plan);
  }

  // ---------------------------------------------------------------------- order of candidates

  /** The model, if it is asked, does not mind the order of what it is given. */
  ghost predicate ModelUnordered(b: Bounded) {
    b.model.Some? ==> forall cs, ds :: SameItems(cs, ds) ==> b.model.value.answer(cs) == b.model.value.answer(ds)
  }

  lemma {:induction false} SourceProblemForgetsOrder(a: seq<ContextItem>, b: seq<ContextItem>, ids: seq<string>)
    requires SameItems(a, b)
    ensures SourceProblem(a, ids) == SourceProblem(b, ids)
  {
    if ids != [] {
      FindForgetsOrder(a, b, ids[0]);
      SourceProblemForgetsOrder(a, b, ids[1..]);
    }
  }

  lemma FallbackForgetsOrder(a: seq<ContextItem>, b: seq<ContextItem>)
    requires SameItems(a, b)
    ensures SortBy(FallbackKey, Filter(IsReplaceable, a)) == SortBy(FallbackKey, Filter(IsReplaceable, b))
  {
    forall x, y | FallbackKey(x) == FallbackKey(y) ensures x.id == y.id {
      assert FallbackKey(x)[3] == FallbackKey(y)[3];
    }
    CandidatesForgetOrder(FallbackKey, IsReplaceable, a, b);
  }

  lemma ObjectionForgetsOrder(raw: RawSummary, cs: seq<ContextItem>, ds: seq<ContextItem>, config: SummarizerConfig)
    requires SameItems(cs, ds)
    ensures Objection(raw, cs, config) == Objection(raw, ds, config)
  {
    SourceProblemForgetsOrder(cs, ds, raw.sourceIds);
  }

  lemma FallbackSummaryForgetsOrder(cs: seq<ContextItem>, ds: seq<ContextItem>, b: Bounded, reason: string)
    requires SameItems(cs, ds)
    ensures FallbackSummary(cs, b.config, b.digest, reason) == FallbackSummary(ds, b.config, b.digest, reason)
  {
    FallbackForgetsOrder(cs, ds);
  }

  lemma AnswerForgetsOrder(b: Bounded, cs: seq<ContextItem>, ds: seq<ContextItem>)
    requires ModelUnordered(b) && SameItems(cs, ds)
    ensures Answer(b.attempted, b.model, b.config, b.digest, cs) == Answer(b.attempted, b.model, b.config, b.digest, ds)
  {
    Members(cs, ds);
    if Consults(b.attempted, b.model, cs) {
      var answer := b.model.value.answer(cs);
      assert b.model.value.answer(ds) == answer;
      if answer.Ok? {
        ObjectionForgetsOrder(answer.value, cs, ds, b.config);
        var problem := Objection(answer.value, cs, b.config);
        if problem.Some? { FallbackSummaryForgetsOrder(cs, ds, b, problem.value); }
      } else {
        FallbackSummaryForgetsOrder(cs, ds, b, answer.error);
      }
    } else {
      FallbackSummaryForgetsOrder(cs, ds, b, "summarizer already attempted for this call");
      FallbackSummaryForgetsOrder(cs, ds, b, "summarizer model is unavailable");
    }
  }

  /** The bounded summarizer minds the order of its candidates only if its model does. */
  lemma BoundedIsUnordered(b: Bounded)
    requires ModelUnordered(b)
    ensures Unordered(Of(b))
  {
    forall cs, ds | SameItems(cs, ds) ensures Of(b).summarize(cs) == Of(b).summarize(ds) {
      AnswerForgetsOrder(b, cs, ds);
    }
  }

  /** For such a model the arrangement of the inputs shows exactly if an accepted summary absorbs two items. */
  lemma BoundedPlanForgetsOrderExactly(setup: Setup, request: PlanRequest, sink: OffloadSink, b: Bounded,
                                       override: Option<Profile>)
    requires WellPosed(request) && ModelUnordered(b)
    ensures OrderForgotten(setup, request, sink, Of(b), override) <==>
              NothingMerged(setup, request, sink, Of(b), override)
  {
    BoundedIsUnordered(b);
    PlanForgetsOrderExactly(setup, request, sink, Of(b), override);
  }
}
