/**
 `AgentMiddlewarePipelineService`: ordered policies, idempotency keys and event numbers
 (crates/evohime-core/src/agent_middleware_pipeline.rs).
 */
module Middleware {
  import opened Machine
  import opened Texts
  import opened Order

  const CONTRACT_VERSION: u32 := 1
  const MAX_MIDDLEWARE: nat := 32
  const MAX_PHASES: nat := 8
  const MAX_ID_CHARS: nat := 128
  const MAX_TEXT_CHARS: nat := 512
  const MAX_EVENTS: nat := 256
  const MAX_INTERVENTION_DEPTH: nat := 4

  datatype Phase =
    | BeforeAgent | AfterAgent | BeforeModel | AfterModel | WrapModelCall | BeforeTool | WrapToolCall | AfterTool
    | BeforeHandoff | BeforeWorkflowStateCommit | BeforeExternalPublish

  datatype StateClass = Private | Checkpoint | Public

  datatype Policy =
    | Observe
    | Narrow(maxBytes: u32)
    | Redact(fields: seq<string>)
    | Block(reason: string)
    | PauseForApproval(reason: string)
    | Abort(reason: string)

  datatype Spec = Spec(id: string, version: u32, priority: nat, phases: seq<Phase>, stateClass: StateClass,
                       policy: Policy)

  datatype Definition = Definition(schemaVersion: u32, definitionId: string, revision: u64, middleware: seq<Spec>,
                                   contractHash: string)

  datatype Snapshot = Snapshot(runId: string, definitionId: string, definitionRevision: u64, contractHash: string,
                               capabilityHash: string)

  datatype Request = Request(
    runId: string, correlationId: string, idempotencyKey: string, phase: Phase, inputHash: string,
    capabilityHash: string, depth: u8)

  datatype Reason = MaxBytes(limit: u32) | RedactFields(count: nat)

  datatype Outcome =
    | Allowed
    | Overridden(inputHash: string, source: string, version: u32, because: Reason)
    | Blocked(reason: string)
    | Paused(reason: string)
    | Aborted(reason: string)
    | Duplicate
    | ReentrantLimit

  datatype Event = Event(runId: string, correlationId: string, sequence: nat, phase: Phase, stateClass: StateClass,
                         outcome: Outcome)

  datatype Error = Invalid(field: string) | Limit(field: string) | UnsupportedVersion(version: u32) | EventTooLarge

  type Reply = Result<(Outcome, seq<Event>), Error>

  // -------------------------------------------------------------- validating a definition

  /** `text`: not blank and not too long. */
  predicate IsText(s: string) {
    !IsBlankText(s) && |s| <= MAX_ID_CHARS
  }

  predicate HasReason(p: Policy) {
    p.Block? || p.PauseForApproval? || p.Abort?
  }

  function SpecError(m: Spec, ids: set<string>): Option<Error> {
    if !IsText(m.id) then Some(Invalid("middleware.id"))
    else if m.id in ids then Some(Invalid("duplicate middleware"))
    else if m.version == 0 || m.phases == [] || |m.phases| > MAX_PHASES then Some(Limit("phases"))
    else if HasReason(m.policy) && |m.policy.reason| > MAX_TEXT_CHARS then Some(Limit("reason"))
    else if m.policy.Narrow? && m.policy.maxBytes == 0 then Some(Limit("max_bytes"))
    else None
  }

  /** What a policy must satisfy by itself. */
  predicate SpecOk(m: Spec) {
    && IsText(m.id) && m.version > 0 && 1 <= |m.phases| <= MAX_PHASES
    && (HasReason(m.policy) ==> |m.policy.reason| <= MAX_TEXT_CHARS)
    && (m.policy.Narrow? ==> m.policy.maxBytes > 0)
  }

  ghost predicate DistinctIds(ms: seq<Spec>) {
    forall i, j :: 0 <= i < j < |ms| ==> ms[i].id != ms[j].id
  }

  ghost predicate WellFormed(d: Definition, hash: Definition -> string) {
    && d.schemaVersion == CONTRACT_VERSION && IsText(d.definitionId) && 1 <= |d.middleware| <= MAX_MIDDLEWARE
    && (forall m :: m in d.middleware ==> SpecOk(m)) && DistinctIds(d.middleware)
    && d.contractHash == hash(d.(contractHash := ""))
  }

  /** What the pass objects to is really wrong. */
  lemma BadSpec(ms: seq<Spec>, i: nat, ids: set<string>)
    requires i < |ms| && ids == (set j | 0 <= j < i :: ms[j].id) && SpecError(ms[i], ids).Some?
    ensures !DistinctIds(ms) || exists m :: m in ms && !SpecOk(m)
  {
    if ms[i].id in ids {
      var j :| 0 <= j < i && ms[j].id == ms[i].id;
    } else {
      assert ms[i] in ms && !SpecOk(ms[i]);
    }
  }

  /** The one pass over the policies finds exactly the definitions whose policies are fine and have pairwise distinct
      ids. */
  method Validate(d: Definition, hash: Definition -> string) returns (r: Result<(), Error>)
    ensures r.Ok? <==> WellFormed(d, hash)
    ensures r.Err? && r.error == Invalid("contract_hash") ==>
        WellFormed(d.(contractHash := hash(d.(contractHash := ""))), hash)
  {
    if d.schemaVersion != CONTRACT_VERSION { return Err(UnsupportedVersion(d.schemaVersion)); }
    if !IsText(d.definitionId) { return Err(Invalid("definition_id")); }
    if d.middleware == [] || |d.middleware| > MAX_MIDDLEWARE { return Err(Limit("middleware")); }
    var ids: set<string> := {};
    for i := 0 to |d.middleware|
      invariant ids == set j | 0 <= j < i :: d.middleware[j].id
      invariant forall j :: 0 <= j < i ==> SpecOk(d.middleware[j])
      invariant DistinctIds(d.middleware[..i])
    {
      var error := SpecError(d.middleware[i], ids);
      if error.Some? {
        BadSpec(d.middleware, i, ids);
        return Err(error.value);
      }
      ids := ids + {d.middleware[i].id};
    }
    assert d.middleware[..|d.middleware|] == d.middleware;
    var expected := hash(d.(contractHash := ""));
    assert d.(contractHash := expected).(contractHash := "") == d.(contractHash := "");
    if d.contractHash != expected { return Err(Invalid("contract_hash")); }
    return Ok(());
  }

  // ------------------------------------------------------------------ one evaluation

  function SpecKey(m: Spec): Key {
    [I(m.priority), S(m.id)]
  }

  function Matching(ms: seq<Spec>, phase: Phase): seq<Spec> {
    Filter((m: Spec) => phase in m.phases, ms)
  }

  function Ordered(ms: seq<Spec>, phase: Phase): seq<Spec> {
    SortBy(SpecKey, Matching(ms, phase))
  }

  function OutcomeOf(m: Spec, rq: Request): Outcome {
    match m.policy
    case Observe => Allowed
    case Narrow(maxBytes) => Overridden(rq.inputHash, m.id, m.version, MaxBytes(maxBytes))
    case Redact(fields) => Overridden(rq.inputHash, m.id, m.version, RedactFields(|fields|))
    case Block(reason) => Blocked(reason)
    case PauseForApproval(reason) => Paused(reason)
    case Abort(reason) => Aborted(reason)
  }

  predicate Stops(m: Spec) {
    HasReason(m.policy)
  }

  function EventFor(m: Spec, rq: Request, number: nat): Event {
    Event(rq.runId, rq.correlationId, number, rq.phase, m.stateClass, OutcomeOf(m, rq))
  }

  /** `overflow` says that the event after the last one of `events` was too large. */
  datatype Walked = Walked(outcome: Outcome, events: seq<Event>, overflow: bool)

  function Walk(ms: seq<Spec>, rq: Request, n: nat, prior: Outcome, fits: Event -> bool): Walked {
    if ms == [] then Walked(prior, [], false)
    else
      var e := EventFor(ms[0], rq, n + 1);
      if !fits(e) then Walked(e.outcome, [], true)
      else if Stops(ms[0]) then Walked(e.outcome, [e], false)
      else
        var rest := Walk(ms[1..], rq, n + 1, e.outcome, fits);
        rest.(events := [e] + rest.events)
  }

  /** A walk with the events of the policies before it. */
  function After(events: seq<Event>, w: Walked): Walked {
    w.(events := events + w.events)
  }

  /** One turn of the loop over the ordered policies. */
  lemma WalkStep(ms: seq<Spec>, i: nat, rq: Request, n: nat, prior: Outcome, fits: Event -> bool, events: seq<Event>)
    requires i < |ms|
    ensures var e, w := EventFor(ms[i], rq, n + 1), After(events, Walk(ms[i..], rq, n, prior, fits));
      if !fits(e) then w == Walked(e.outcome, events, true)
      else if Stops(ms[i]) then w == Walked(e.outcome, events + [e], false)
      else w == After(events + [e], Walk(ms[i + 1..], rq, n + 1, e.outcome, fits))
  {
    assert ms[i..][0] == ms[i] && ms[i..][1..] == ms[i + 1..];
    var e := EventFor(ms[i], rq, n + 1);
    var rest := Walk(ms[i + 1..], rq, n + 1, e.outcome, fits);
    assert events + ([e] + rest.events) == events + [e] + rest.events;
    assert events + [] == events;
  }

  lemma WalkAll(ms: seq<Spec>, rq: Request, n: nat, fits: Event -> bool)
    ensures Walk(ms, rq, n, Allowed, fits) == After([], Walk(ms[0..], rq, n, Allowed, fits))
  {
    assert ms[0..] == ms;
    var w := Walk(ms, rq, n, Allowed, fits);
    assert [] + w.events == w.events;
  }

  lemma WalkNone(events: seq<Event>, ms: seq<Spec>, rq: Request, n: nat, prior: Outcome, fits: Event -> bool)
    requires |ms| == 0
    ensures After(events, Walk(ms, rq, n, prior, fits)) == Walked(prior, events, false)
  {
    assert events + [] == events;
  }

  function Consumed(w: Walked): nat {
    |w.events| + if w.overflow then 1 else 0
  }

  /** Events belong to the first policies in order, one each, numbered on from `n`, and end with the first one that
      stops. */
  ghost predicate Emits(ms: seq<Spec>, rq: Request, n: nat, w: Walked, fits: Event -> bool) {
    && Consumed(w) <= |ms|
    && (forall i :: 0 <= i < |w.events| ==> w.events[i] == EventFor(ms[i], rq, n + 1 + i) && fits(w.events[i]))
    && (forall i :: 0 <= i < Consumed(w) - 1 ==> !Stops(ms[i]))
    && (if w.overflow then !fits(EventFor(ms[|w.events|], rq, n + 1 + |w.events|))
        else |w.events| == |ms| || (|w.events| > 0 && Stops(ms[|w.events| - 1])))
  }

  lemma EmitsCons(ms: seq<Spec>, rq: Request, n: nat, rest: Walked, fits: Event -> bool)
    requires ms != [] && !Stops(ms[0]) && fits(EventFor(ms[0], rq, n + 1)) && Emits(ms[1..], rq, n + 1, rest, fits)
    ensures Emits(ms, rq, n, rest.(events := [EventFor(ms[0], rq, n + 1)] + rest.events), fits)
  {
    var w := rest.(events := [EventFor(ms[0], rq, n + 1)] + rest.events);
    forall i | 0 <= i < |w.events| ensures w.events[i] == EventFor(ms[i], rq, n + 1 + i) && fits(w.events[i]) {
      if i > 0 { assert w.events[i] == rest.events[i - 1] && ms[i] == ms[1..][i - 1]; }
    }
    forall i | 0 <= i < Consumed(w) - 1 ensures !Stops(ms[i]) {
      if i > 0 { assert ms[i] == ms[1..][i - 1]; }
    }
  }

  lemma {:induction false} WalkEvents(ms: seq<Spec>, rq: Request, n: nat, prior: Outcome, fits: Event -> bool)
    ensures Emits(ms, rq, n, Walk(ms, rq, n, prior, fits), fits)
  {
    if ms != [] && fits(EventFor(ms[0], rq, n + 1)) && !Stops(ms[0]) {
      var e := EventFor(ms[0], rq, n + 1);
      WalkEvents(ms[1..], rq, n + 1, e.outcome, fits);
      EmitsCons(ms, rq, n, Walk(ms[1..], rq, n + 1, e.outcome, fits), fits);
    }
  }

  // ------------------------------------------------------------------ who decides

  /** Blocking, pausing and aborting end an evaluation. */
  lemma StopsMeans(m: Spec)
    ensures Stops(m) <==> m.policy.Block? || m.policy.PauseForApproval? || m.policy.Abort?
  {
  }

  /** Among `ms`: the least policy that stops; if none stops, the greatest policy. */
  ghost predicate Decides(ms: seq<Spec>, m: Spec) {
    && m in ms
    && if exists x :: x in ms && Stops(x)
       then Stops(m) && forall x :: x in ms && Stops(x) ==> Leq(SpecKey(m), SpecKey(x))
       else forall x :: x in ms ==> Leq(SpecKey(x), SpecKey(m))
  }

  lemma {:induction false} WalkDecided(ms: seq<Spec>, rq: Request, n: nat, prior: Outcome, fits: Event -> bool, m: Spec)
    requires Sorted(By(SpecKey), ms) && Distinguishes(By(SpecKey), ms)
    requires !Walk(ms, rq, n, prior, fits).overflow && Decides(ms, m)
    ensures Walk(ms, rq, n, prior, fits).outcome == OutcomeOf(m, rq)
  {
    HeadTail(ms);
    var tail := ms[1..];
    LeqTotal(SpecKey(m), SpecKey(ms[0]));
    if Stops(ms[0]) {
      assert m in tail ==> By(SpecKey)(ms[0], m);
    } else if tail != [] {
      assert tail[0] in tail && tail[0] in ms && By(SpecKey)(ms[0], tail[0]);
      DecidesTail(ms, m);
      WalkDecided(tail, rq, n + 1, OutcomeOf(ms[0], rq), fits, m);
    }
  }

  lemma DecidesTail(ms: seq<Spec>, m: Spec)
    requires Sorted(By(SpecKey), ms) && Distinguishes(By(SpecKey), ms) && Decides(ms, m)
    requires |ms| > 1 && !Stops(ms[0])
    ensures Decides(ms[1..], m)
  {
    HeadTail(ms);
    var tail := ms[1..];
    if m == ms[0] {
      assert tail[0] in tail && tail[0] in ms;
      assert By(SpecKey)(m, tail[0]) && By(SpecKey)(tail[0], m);
    }
  }

  /** Some policy decides whenever one is consulted. */
  lemma {:induction false} DeciderExists(ms: seq<Spec>) returns (m: Spec)
    requires ms != []
    ensures Decides(ms, m)
  {
    HeadTail(ms);
    if |ms| == 1 {
      m := ms[0];
      LeqTotal(SpecKey(m), SpecKey(m));
    } else {
      var d := DeciderExists(ms[1..]);
      m := if Stops(d) == Stops(ms[0]) then (if Leq(SpecKey(d), SpecKey(ms[0])) == Stops(d) then d else ms[0])
           else if Stops(d) then d else ms[0];
      BetterDecides(ms, d, m);
    }
  }

  lemma BetterDecides(ms: seq<Spec>, d: Spec, m: Spec)
    requires |ms| > 1 && Decides(ms[1..], d)
    requires m == if Stops(d) == Stops(ms[0]) then (if Leq(SpecKey(d), SpecKey(ms[0])) == Stops(d) then d else ms[0])
                  else if Stops(d) then d else ms[0]
    ensures Decides(ms, m)
  {
    HeadTail(ms);
    LeqTotal(SpecKey(d), SpecKey(ms[0]));
    LeqTotal(SpecKey(d), SpecKey(d));
    LeqTotal(SpecKey(ms[0]), SpecKey(ms[0]));
    forall x | x in ms[1..] && Leq(SpecKey(ms[0]), SpecKey(d)) && Leq(SpecKey(d), SpecKey(x))
        ensures Leq(SpecKey(ms[0]), SpecKey(x)) {
      LeqTrans(SpecKey(ms[0]), SpecKey(d), SpecKey(x));
    }
    forall x | x in ms[1..] && Leq(SpecKey(x), SpecKey(d)) && Leq(SpecKey(d), SpecKey(ms[0]))
        ensures Leq(SpecKey(x), SpecKey(ms[0])) {
      LeqTrans(SpecKey(x), SpecKey(d), SpecKey(ms[0]));
    }
  }

  lemma DistinctKeys(ms: seq<Spec>)
    requires DistinctIds(ms)
    ensures Distinguishes(By(SpecKey), ms)
  {
    forall x, y | x in ms && y in ms && SpecKey(x) == SpecKey(y) ensures x == y {
      assert SpecKey(x)[1] == SpecKey(y)[1];
    }
    ByDistinguishes(SpecKey, ms);
  }

  lemma OrderedFacts(ms: seq<Spec>, phase: Phase)
    requires DistinctIds(ms)
    ensures Sorted(By(SpecKey), Ordered(ms, phase)) && Distinguishes(By(SpecKey), Ordered(ms, phase))
    ensures forall m :: m in Ordered(ms, phase) <==> m in Matching(ms, phase)
    ensures forall m :: m in Matching(ms, phase) <==> m in ms && phase in m.phases
  {
    DistinctKeys(ms);
    ByLawful(SpecKey);
    FilterMembers((m: Spec) => phase in m.phases, ms);
    SortPermutes(By(SpecKey), Matching(ms, phase));
    SortSorted(By(SpecKey), Matching(ms, phase));
  }

  /** The least (priority, id) among the stopping policies of the phase decides, wherever it stands in the definition;
      if none stops, the last policy in order does, so that a later observer resets an earlier override; if none
      matches, all is allowed. */
  lemma LeastStoppingDecides(ms: seq<Spec>, rq: Request, n: nat, fits: Event -> bool)
    requires DistinctIds(ms)
    requires !Walk(Ordered(ms, rq.phase), rq, n, Allowed, fits).overflow
    ensures var outcome, asked := Walk(Ordered(ms, rq.phase), rq, n, Allowed, fits).outcome, Matching(ms, rq.phase);
      && (asked == [] ==> outcome == Allowed)
      && (asked != [] ==> exists m :: Decides(asked, m))
      && (forall m :: Decides(asked, m) ==> outcome == OutcomeOf(m, rq))
  {
    var asked, ordered := Matching(ms, rq.phase), Ordered(ms, rq.phase);
    OrderedFacts(ms, rq.phase);
    SortPermutes(By(SpecKey), asked);
    if asked != [] { var m := DeciderExists(asked); }
    forall m | Decides(asked, m) ensures Walk(ordered, rq, n, Allowed, fits).outcome == OutcomeOf(m, rq) {
      assert Decides(ordered, m);
      WalkDecided(ordered, rq, n, Allowed, fits, m);
    }
  }

  lemma OrderedForgets(a: seq<Spec>, b: seq<Spec>, phase: Phase)
    requires DistinctIds(a) && multiset(a) == multiset(b)
    ensures Ordered(a, phase) == Ordered(b, phase)
  {
    var p := (m: Spec) => phase in m.phases;
    DistinctKeys(a);
    ByLawful(SpecKey);
    FilterMembers(p, a);
    FilterPermutes(p, a, b);
    SortForgetsOrder(By(SpecKey), Matching(a, phase), Matching(b, phase));
  }

  // ------------------------------------------------------------------------ the service

  datatype Config = Config(middleware: seq<Spec>, runId: string, capabilityHash: string, fits: Event -> bool)

  datatype State = State(seen: set<string>, nextSequence: nat)

  /** The answers that need no policy; `None` for a request that is evaluated. */
  function Gate(c: Config, s: State, rq: Request): Option<Reply> {
    if rq.runId != c.runId || rq.capabilityHash != c.capabilityHash then Some(Err(Invalid("request snapshot")))
    else if rq.depth > MAX_INTERVENTION_DEPTH then Some(Ok((ReentrantLimit, [])))
    else if !IsText(rq.correlationId) then Some(Err(Invalid("correlation_id")))
    else if !IsText(rq.idempotencyKey) then Some(Err(Invalid("idempotency_key")))
    else if !IsText(rq.inputHash) then Some(Err(Invalid("input_hash")))
    else if rq.idempotencyKey in s.seen then Some(Ok((Duplicate, [])))
    else None
  }

  function Walking(c: Config, s: State, rq: Request): Walked {
    Walk(Ordered(c.middleware, rq.phase), rq, s.nextSequence, Allowed, c.fits)
  }

  function Step(c: Config, s: State, rq: Request): (State, Reply) {
    var gate := Gate(c, s, rq);
    if gate.Some? then (s, gate.value)
    else
      var w := Walking(c, s, rq);
      (State(s.seen + {rq.idempotencyKey}, s.nextSequence + Consumed(w)),
       if w.overflow then Err(EventTooLarge)
       else if |w.events| > MAX_EVENTS then Err(Limit("events"))
       else Ok((w.outcome, w.events)))
  }

  class AgentMiddlewarePipelineService {
    const config: Config
    var seen: set<string>
    var nextSequence: nat

    ghost function Value(): State
      reads this
    {
      State(seen, nextSequence)
    }

    constructor (config: Config)
      ensures this.config == config && Value() == State({}, 0)
    {
      this.config, seen, nextSequence := config, {}, 0;
    }

    method Evaluate(rq: Request) returns (reply: Reply)
      modifies this
      ensures (Value(), reply) == Step(config, old(Value()), rq)
    {
      var gate := Gate(config, State(seen, nextSequence), rq);
      if gate.Some? { return gate.value; }
      seen := seen + {rq.idempotencyKey};
      var walked := Consult(Ordered(config.middleware, rq.phase), rq);
      if walked.overflow { return Err(EventTooLarge); }
      if |walked.events| > MAX_EVENTS { return Err(Limit("events")); }
      return Ok((walked.outcome, walked.events));
    }

    /** The loop over the ordered policies. */
    method Consult(ordered: seq<Spec>, rq: Request) returns (walked: Walked)
      modifies this`nextSequence
      ensures walked == Walk(ordered, rq, old(nextSequence), Allowed, config.fits)
      ensures nextSequence == old(nextSequence) + Consumed(walked)
    {
      var events: seq<Event>, outcome := [], Allowed;
      var i, stopped := 0, false;
      ghost var whole := Walk(ordered, rq, nextSequence, Allowed, config.fits);
      WalkAll(ordered, rq, nextSequence, config.fits);
      while i < |ordered| && !stopped
        invariant i <= |ordered| && nextSequence == old(nextSequence) + |events|
        invariant if stopped then whole == Walked(outcome, events, false)
                  else whole == After(events, Walk(ordered[i..], rq, nextSequence, outcome, config.fits))
        decreases |ordered| - i
      {
        WalkStep(ordered, i, rq, nextSequence, outcome, config.fits, events);
        outcome := OutcomeOf(ordered[i], rq);
        nextSequence := nextSequence + 1;
        var event := EventFor(ordered[i], rq, nextSequence);
        if !config.fits(event) { return Walked(outcome, events, true); }
        events := events + [event];
        stopped := Stops(ordered[i]);
        i := i + 1;
      }
      if !stopped { WalkNone(events, ordered[i..], rq, nextSequence, outcome, config.fits); }
      return Walked(outcome, events, false);
    }
  }

  /** `new`: only a definition that is valid and matches the snapshot and the capabilities gets a service. */
  method NewService(d: Definition, s: Snapshot, capabilityHash: string, hash: Definition -> string, fits: Event -> bool)
    returns (r: Result<AgentMiddlewarePipelineService, Error>)
    ensures r.Ok? <==>
      && WellFormed(d, hash) && s.capabilityHash == capabilityHash
      && s.definitionId == d.definitionId && s.definitionRevision == d.revision && s.contractHash == d.contractHash
    ensures r.Ok? ==> fresh(r.value) && r.value.Value() == State({}, 0)
    ensures r.Ok? ==> r.value.config == Config(d.middleware, s.runId, capabilityHash, fits)
  {
    var valid := Validate(d, hash);
    if valid.Err? { return Err(valid.error); }
    if s.definitionId != d.definitionId || s.definitionRevision != d.revision || s.contractHash != d.contractHash
       || s.capabilityHash != capabilityHash {
      return Err(Invalid("run snapshot"));
    }
    var service := new AgentMiddlewarePipelineService(Config(d.middleware, s.runId, capabilityHash, fits));
    return Ok(service);
  }

  // ---------------------------------------------------------------------- whole runs

  function Run(c: Config, rqs: seq<Request>): State {
    if rqs == [] then State({}, 0) else Step(c, Run(c, rqs[..|rqs| - 1]), rqs[|rqs| - 1]).0
  }

  function ReplyTo(c: Config, rqs: seq<Request>, j: nat): Reply
    requires j < |rqs|
  {
    Step(c, Run(c, rqs[..j]), rqs[j]).1
  }

  predicate Evaluated(c: Config, rqs: seq<Request>, j: nat)
    requires j < |rqs|
  {
    Gate(c, Run(c, rqs[..j]), rqs[j]).None?
  }

  /** Reordering the definition changes neither a reply nor the state, over any run. */
  lemma {:induction false} DefinitionOrderForgotten(c: Config, ms: seq<Spec>, rqs: seq<Request>)
    requires DistinctIds(c.middleware) && multiset(ms) == multiset(c.middleware)
    ensures Run(c, rqs) == Run(c.(middleware := ms), rqs)
    ensures forall j :: 0 <= j < |rqs| ==> ReplyTo(c, rqs, j) == ReplyTo(c.(middleware := ms), rqs, j)
  {
    if rqs != [] {
      var n := |rqs| - 1;
      var front := rqs[..n];
      DefinitionOrderForgotten(c, ms, front);
      OrderedForgets(c.middleware, ms, rqs[n].phase);
      forall j | 0 <= j < |rqs| ensures ReplyTo(c, rqs, j) == ReplyTo(c.(middleware := ms), rqs, j) {
        if j < n { assert front[..j] == rqs[..j] && ReplyTo(c, front, j) == ReplyTo(c.(middleware := ms), front, j); }
      }
    }
  }

  // ------------------------------------------------------------------ what a reply says

  /** Blocks, pauses or aborts. */
  predicate Halts(m: Spec) {
    m.policy.Block? || m.policy.PauseForApproval? || m.policy.Abort?
  }

  /** `m` comes before `x`: by priority, then by id. */
  predicate Precedes(m: Spec, x: Spec) {
    m.priority < x.priority || (m.priority == x.priority && TextLeq(m.id, x.id))
  }

  /** `m` has the last word in its phase: the first that halts or, if none does, the last of all. */
  ghost predicate HasLastWord(ms: seq<Spec>, phase: Phase, m: Spec) {
    && m in ms && phase in m.phases
    && if exists x :: x in ms && phase in x.phases && Halts(x)
       then Halts(m) && forall x :: x in ms && phase in x.phases && Halts(x) ==> Precedes(m, x)
       else forall x :: x in ms && phase in x.phases ==> Precedes(x, m)
  }

  /** What a policy has to say, case by case. */
  ghost predicate Voices(m: Spec, rq: Request, o: Outcome) {
    && (forall r :: o == Blocked(r) <==> m.policy == Block(r))
    && (forall r :: o == Paused(r) <==> m.policy == PauseForApproval(r))
    && (forall r :: o == Aborted(r) <==> m.policy == Abort(r))
    && (forall n :: o == Overridden(rq.inputHash, m.id, m.version, MaxBytes(n)) <==> m.policy == Narrow(n))
    && (forall n :: o == Overridden(rq.inputHash, m.id, m.version, RedactFields(n)) <==>
          m.policy.Redact? && |m.policy.fields| == n)
    && (o == Allowed <==> m.policy == Observe)
    && o != Duplicate && o != ReentrantLimit
  }

  lemma OutcomeVoices(m: Spec, rq: Request)
    ensures Voices(m, rq, OutcomeOf(m, rq))
  {
  }

  lemma KeyMeans(m: Spec, x: Spec)
    ensures Leq(SpecKey(m), SpecKey(x)) <==> Precedes(m, x)
  {
    var s, t := [S(m.id)], [S(x.id)];
    assert SpecKey(m) == [I(m.priority)] + s && SpecKey(x) == [I(x.priority)] + t;
    assert SpecKey(m)[1..] == s && SpecKey(x)[1..] == t;
    assert s[1..] == [] && t[1..] == [];
    TextTotal(m.id, m.id);
    assert Leq(s, t) <==> TextLeq(m.id, x.id);
  }

  lemma LastWordDecides(ms: seq<Spec>, phase: Phase, m: Spec)
    requires DistinctIds(ms)
    ensures HasLastWord(ms, phase, m) <==> Decides(Matching(ms, phase), m)
  {
    OrderedFacts(ms, phase);
    forall x, y ensures Leq(SpecKey(x), SpecKey(y)) <==> Precedes(x, y) { KeyMeans(x, y); }
    forall x ensures Stops(x) <==> Halts(x) { StopsMeans(x); }
  }

  /** The reply to an evaluated request: what the policy with the last word says, or allowed if none matches. */
  ghost predicate Answers(c: Config, rq: Request, o: Outcome) {
    if exists m :: m in c.middleware && rq.phase in m.phases
    then forall m :: HasLastWord(c.middleware, rq.phase, m) ==> Voices(m, rq, o)
    else o == Allowed
  }

  lemma WalkAnswers(c: Config, s: State, rq: Request)
    requires DistinctIds(c.middleware) && !Walking(c, s, rq).overflow
    ensures Answers(c, rq, Walking(c, s, rq).outcome)
    ensures (exists m :: m in c.middleware && rq.phase in m.phases) ==>
              exists m :: HasLastWord(c.middleware, rq.phase, m)
  {
    var asked := Matching(c.middleware, rq.phase);
    LeastStoppingDecides(c.middleware, rq, s.nextSequence, c.fits);
    OrderedFacts(c.middleware, rq.phase);
    forall m ensures HasLastWord(c.middleware, rq.phase, m) <==> Decides(asked, m) {
      LastWordDecides(c.middleware, rq.phase, m);
    }
    forall m ensures Voices(m, rq, OutcomeOf(m, rq)) { OutcomeVoices(m, rq); }
    if exists m :: m in c.middleware && rq.phase in m.phases {
      var m :| m in c.middleware && rq.phase in m.phases;
      assert m in asked;
    } else if asked != [] {
      assert asked[0] in asked;
    }
  }

  /** An event records the request, its number and what its policy says. */
  ghost predicate Records(e: Event, m: Spec, rq: Request, number: nat) {
    && e.runId == rq.runId && e.correlationId == rq.correlationId && e.phase == rq.phase && e.sequence == number
    && e.stateClass == m.stateClass && Voices(m, rq, e.outcome)
  }

  /** The events of a reply: one for each policy of the phase in order, up to the first that halts. */
  ghost predicate Recites(c: Config, s: State, rq: Request, events: seq<Event>, ms: seq<Spec>) {
    && (forall m :: m in ms <==> m in c.middleware && rq.phase in m.phases)
    && (forall i, j :: 0 <= i < j < |ms| ==> Precedes(ms[i], ms[j]))
    && |events| <= |ms|
    && (forall i :: 0 <= i < |events| ==> Records(events[i], ms[i], rq, s.nextSequence + 1 + i))
    && (forall i :: 0 <= i < |events| - 1 ==> !Halts(ms[i]))
    && (|events| < |ms| ==> events != [] && Halts(ms[|events| - 1]))
  }

  lemma OrderedPrecedes(ms: seq<Spec>, phase: Phase, i: nat, j: nat)
    requires DistinctIds(ms) && i < j < |Ordered(ms, phase)|
    ensures Precedes(Ordered(ms, phase)[i], Ordered(ms, phase)[j])
  {
    OrderedFacts(ms, phase);
    ByLawful(SpecKey);
    SortedAt(By(SpecKey), Ordered(ms, phase), i, j);
    KeyMeans(Ordered(ms, phase)[i], Ordered(ms, phase)[j]);
  }

  lemma EventRecords(m: Spec, rq: Request, n: nat)
    ensures Records(EventFor(m, rq, n), m, rq, n)
  {
    OutcomeVoices(m, rq);
  }

  lemma EmitsRecites(c: Config, s: State, rq: Request, w: Walked, ms: seq<Spec>)
    requires Emits(ms, rq, s.nextSequence, w, c.fits) && !w.overflow
    requires forall m :: m in ms <==> m in c.middleware && rq.phase in m.phases
    requires forall i, j :: 0 <= i < j < |ms| ==> Precedes(ms[i], ms[j])
    ensures Recites(c, s, rq, w.events, ms)
  {
    forall i | 0 <= i < |w.events| ensures Records(w.events[i], ms[i], rq, s.nextSequence + 1 + i) {
      EventRecords(ms[i], rq, s.nextSequence + 1 + i);
    }
  }

  lemma WalkRecites(c: Config, s: State, rq: Request)
    requires DistinctIds(c.middleware) && !Walking(c, s, rq).overflow
    ensures Recites(c, s, rq, Walking(c, s, rq).events, Ordered(c.middleware, rq.phase))
  {
    var ms := Ordered(c.middleware, rq.phase);
    OrderedFacts(c.middleware, rq.phase);
    WalkEvents(ms, rq, s.nextSequence, Allowed, c.fits);
    forall i, j | 0 <= i < j < |ms| ensures Precedes(ms[i], ms[j]) { OrderedPrecedes(c.middleware, rq.phase, i, j); }
    EmitsRecites(c, s, rq, Walking(c, s, rq), ms);
  }

  /** Every successful reply of a run to an evaluated request says what the policy with the last word says, and its
      events say what each policy up to the first that halts says. */
  lemma RepliesAsDecided(c: Config, rqs: seq<Request>, j: nat) returns (ms: seq<Spec>)
    requires DistinctIds(c.middleware) && j < |rqs| && Evaluated(c, rqs, j) && ReplyTo(c, rqs, j).Ok?
    ensures Answers(c, rqs[j], ReplyTo(c, rqs, j).value.0)
    ensures Recites(c, Run(c, rqs[..j]), rqs[j], ReplyTo(c, rqs, j).value.1, ms)
  {
    var s := Run(c, rqs[..j]);
    WalkAnswers(c, s, rqs[j]);
    WalkRecites(c, s, rqs[j]);
    ms := Ordered(c.middleware, rqs[j].phase);
  }

  /** The event of the `i`-th policy, before which none halts, does not fit. */
  ghost predicate Chokes(c: Config, n: nat, rq: Request, ms: seq<Spec>, i: nat, e: Event) {
    && i < |ms| && (forall k :: 0 <= k < i ==> !Halts(ms[k]))
    && Records(e, ms[i], rq, n + 1 + i) && !c.fits(e)
  }

  ghost predicate SomeChokes(c: Config, n: nat, rq: Request, ms: seq<Spec>) {
    exists i: nat, e :: Chokes(c, n, rq, ms, i, e)
  }

  lemma RecordsOne(e: Event, m: Spec, rq: Request, n: nat)
    requires Records(e, m, rq, n)
    ensures e == EventFor(m, rq, n)
  {
    OutcomeVoices(m, rq);
  }

  lemma OverflowChokes(c: Config, n: nat, rq: Request, w: Walked, ms: seq<Spec>)
    requires Emits(ms, rq, n, w, c.fits)
    ensures w.overflow <==> SomeChokes(c, n, rq, ms)
  {
    if w.overflow {
      var i := |w.events|;
      EventRecords(ms[i], rq, n + 1 + i);
      assert Chokes(c, n, rq, ms, i, EventFor(ms[i], rq, n + 1 + i));
    }
    if i: nat, e :| Chokes(c, n, rq, ms, i, e) { RecordsOne(e, ms[i], rq, n + 1 + i); }
  }

  /** An evaluation of a run fails if and only if the event of some policy, before which none halts, does not fit; and
      then it is the event that is too large. */
  lemma EvaluationFailsExactly(c: Config, rqs: seq<Request>, j: nat)
    requires |c.middleware| <= MAX_MIDDLEWARE && j < |rqs| && Evaluated(c, rqs, j)
    ensures ReplyTo(c, rqs, j).Err? ==> ReplyTo(c, rqs, j) == Err(EventTooLarge)
    ensures ReplyTo(c, rqs, j).Err? <==>
              SomeChokes(c, Run(c, rqs[..j]).nextSequence, rqs[j], Ordered(c.middleware, rqs[j].phase))
  {
    var s, rq := Run(c, rqs[..j]), rqs[j];
    WalkEvents(Ordered(c.middleware, rq.phase), rq, s.nextSequence, Allowed, c.fits);
    OrderedShort(c.middleware, rq.phase);
    OverflowChokes(c, s.nextSequence, rq, Walking(c, s, rq), Ordered(c.middleware, rq.phase));
  }

  // ------------------------------------------------------------------ what needs no policy

  /** A text of 1 to 128 characters that are not all white space. */
  predicate GoodText(s: string) {
    |s| <= 128 && exists c :: c in s && !IsWhitespace(c)
  }

  lemma TextMeans(s: string)
    ensures IsText(s) <==> GoodText(s)
  {
    if GoodText(s) {
      var c :| c in s && !IsWhitespace(c);
      var i :| 0 <= i < |s| && s[i] == c;
    }
    if !IsBlankText(s) {
      var i :| 0 <= i < |s| && !IsWhitespace(s[i]);
      assert s[i] in s;
    }
  }

  /** The request belongs to the run and its capabilities. */
  predicate Belongs(c: Config, rq: Request) {
    rq.runId == c.runId && rq.capabilityHash == c.capabilityHash
  }

  predicate GoodTexts(rq: Request) {
    GoodText(rq.correlationId) && GoodText(rq.idempotencyKey) && GoodText(rq.inputHash)
  }

  /** An earlier request of the run with the same key was evaluated. */
  ghost predicate SeenBefore(c: Config, rqs: seq<Request>, j: nat)
    requires j < |rqs|
  {
    exists i :: 0 <= i < j && Evaluated(c, rqs, i) && rqs[i].idempotencyKey == rqs[j].idempotencyKey
  }

  /** A request of a run is evaluated if and only if it belongs to the run, is nested at most four deep, has good texts
      and a new key; otherwise the first of these that fails is the answer, and nothing changes. */
  lemma EvaluatedExactly(c: Config, rqs: seq<Request>, j: nat)
    requires j < |rqs|
    ensures var rq, reply := rqs[j], ReplyTo(c, rqs, j);
      && (Evaluated(c, rqs, j) <==>
            Belongs(c, rq) && rq.depth <= 4 && GoodTexts(rq) && !SeenBefore(c, rqs, j))
      && (!Belongs(c, rq) ==> reply == Err(Invalid("request snapshot")))
      && (Belongs(c, rq) && rq.depth > 4 ==> reply == Ok((ReentrantLimit, [])))
      && (Belongs(c, rq) && rq.depth <= 4 && !GoodTexts(rq) ==> reply.Err? && reply.error.Invalid?)
      && (Belongs(c, rq) && rq.depth <= 4 && GoodTexts(rq) && SeenBefore(c, rqs, j) ==> reply == Ok((Duplicate, [])))
    ensures !Evaluated(c, rqs, j) ==> Run(c, rqs[..j + 1]) == Run(c, rqs[..j])
  {
    TextMeans(rqs[j].correlationId);
    TextMeans(rqs[j].idempotencyKey);
    TextMeans(rqs[j].inputHash);
    SeenExactly(c, rqs, j, rqs[j].idempotencyKey);
    assert rqs[..j + 1][..j] == rqs[..j];
  }

  lemma {:induction false} SeenExactly(c: Config, rqs: seq<Request>, n: nat, key: string)
    requires n <= |rqs|
    ensures key in Run(c, rqs[..n]).seen <==>
      exists j :: 0 <= j < n && Evaluated(c, rqs, j) && rqs[j].idempotencyKey == key
  {
    if n > 0 {
      SeenExactly(c, rqs, n - 1, key);
      assert rqs[..n][..n - 1] == rqs[..n - 1];
    }
  }

  /** Each key is evaluated at most once in a run. */
  lemma EvaluatedOnce(c: Config, rqs: seq<Request>, i: nat, j: nat)
    requires i < j < |rqs| && Evaluated(c, rqs, i) && Evaluated(c, rqs, j)
    ensures rqs[i].idempotencyKey != rqs[j].idempotencyKey
  {
    SeenExactly(c, rqs, j, rqs[j].idempotencyKey);
  }

  /** A request is answered `Duplicate` only when an earlier one with its key was evaluated. */
  lemma DuplicateMeansEvaluated(c: Config, rqs: seq<Request>, j: nat) returns (i: nat)
    requires j < |rqs| && ReplyTo(c, rqs, j).Ok? && ReplyTo(c, rqs, j).value.0 == Duplicate
    ensures i < j && Evaluated(c, rqs, i) && rqs[i].idempotencyKey == rqs[j].idempotencyKey
  {
    SeenExactly(c, rqs, j, rqs[j].idempotencyKey);
    if Evaluated(c, rqs, j) {
      WalkOutcomeIsReal(Ordered(c.middleware, rqs[j].phase), rqs[j], Run(c, rqs[..j]).nextSequence, Allowed, c.fits);
    }
    i :| 0 <= i < j && Evaluated(c, rqs, i) && rqs[i].idempotencyKey == rqs[j].idempotencyKey;
  }

  lemma {:induction false} WalkOutcomeIsReal(ms: seq<Spec>, rq: Request, n: nat, prior: Outcome, fits: Event -> bool)
    requires prior != Duplicate
    ensures Walk(ms, rq, n, prior, fits).outcome != Duplicate
  {
    if ms != [] { WalkOutcomeIsReal(ms[1..], rq, n + 1, OutcomeOf(ms[0], rq), fits); }
  }

  /** The events handed out by a run. */
  function Log(c: Config, rqs: seq<Request>): seq<Event> {
    if rqs == [] then []
    else
      var reply := ReplyTo(c, rqs, |rqs| - 1);
      Log(c, rqs[..|rqs| - 1]) + if reply.Ok? then reply.value.1 else []
  }

  function Overflows(c: Config, rqs: seq<Request>): nat {
    if rqs == [] then 0
    else Overflows(c, rqs[..|rqs| - 1]) + if ReplyTo(c, rqs, |rqs| - 1) == Err(EventTooLarge) then 1 else 0
  }

  ghost predicate Increasing(log: seq<Event>, last: nat) {
    && (forall i, j :: 0 <= i < j < |log| ==> log[i].sequence < log[j].sequence)
    && (forall i :: 0 <= i < |log| ==> log[i].sequence <= last)
  }

  ghost predicate GapFree(log: seq<Event>, last: nat) {
    |log| == last && forall i :: 0 <= i < |log| ==> log[i].sequence == i + 1
  }

  lemma StepEvents(c: Config, s: State, rq: Request)
    requires |c.middleware| <= MAX_EVENTS
    ensures var (after, reply) := Step(c, s, rq);
      && reply != Err(Limit("events"))
      && (reply.Ok? ==> after.nextSequence == s.nextSequence + |reply.value.1|)
      && (reply.Ok? ==> forall i :: 0 <= i < |reply.value.1| ==> reply.value.1[i].sequence == s.nextSequence + 1 + i)
      && (reply == Err(EventTooLarge) ==> after.nextSequence > s.nextSequence)
      && (reply.Err? && reply != Err(EventTooLarge) ==> after == s)
  {
    WalkEvents(Ordered(c.middleware, rq.phase), rq, s.nextSequence, Allowed, c.fits);
    OrderedShort(c.middleware, rq.phase);
  }

  lemma OrderedShort(ms: seq<Spec>, phase: Phase)
    ensures |Ordered(ms, phase)| <= |ms|
  {
    SortPermutes(By(SpecKey), Matching(ms, phase));
    FilterShort((m: Spec) => phase in m.phases, ms);
  }

  lemma {:induction false} FilterShort<T>(p: T -> bool, s: seq<T>)
    ensures |Filter(p, s)| <= |s|
  {
    if s != [] { FilterShort(p, s[1..]); }
  }

  /** Event numbers increase over every run, and they are 1, 2, 3, ... without a gap if and only if no event was too
      large. */
  lemma {:induction false} NumbersGapFree(c: Config, rqs: seq<Request>)
    requires |c.middleware| <= MAX_MIDDLEWARE
    ensures Increasing(Log(c, rqs), Run(c, rqs).nextSequence)
    ensures |Log(c, rqs)| + Overflows(c, rqs) <= Run(c, rqs).nextSequence
    ensures GapFree(Log(c, rqs), Run(c, rqs).nextSequence) <==> Overflows(c, rqs) == 0
  {
    if rqs != [] {
      var n := |rqs| - 1;
      var s, reply := Run(c, rqs[..n]), ReplyTo(c, rqs, n);
      NumbersGapFree(c, rqs[..n]);
      StepEvents(c, s, rqs[n]);
      if reply.Ok? {
        LogGrows(Log(c, rqs[..n]), reply.value.1, s.nextSequence);
      }
    }
  }

  lemma LogGrows(log: seq<Event>, events: seq<Event>, last: nat)
    requires Increasing(log, last)
    requires forall i :: 0 <= i < |events| ==> events[i].sequence == last + 1 + i
    ensures Increasing(log + events, last + |events|)
    ensures GapFree(log + events, last + |events|) <==> GapFree(log, last)
  {
    if GapFree(log + events, last + |events|) {
      forall i | 0 <= i < |log| ensures log[i].sequence == i + 1 { assert (log + events)[i] == log[i]; }
    }
  }
}
