/**
 `KernelRuntime`: the phases, the ephemeral objects and the request accounting of an analysis kernel
 (crates/evohime-core/src/analysis_kernel.rs).
 */
module Kernel {
  import opened Machine
  import opened Texts

  const MAX_RESULT_BYTES: nat := 1024 * 1024
  const MAX_REQUEST_BYTES: nat := 16 * 1024
  const MAX_ID_BYTES: nat := 128
  const MAX_OBJECTS: nat := 1024
  const MAX_OBJECT_BYTES: nat := 256 * 1024 * 1024

  /** A session with the limits it runs under. */
  datatype Session = Session(
    schemaVersion: u32, id: string, taskId: string, workspaceId: string, runtimeVersion: string,
    packageManifestHash: string, policyHash: string, createdAtMs: i64, updatedAtMs: i64,
    cpuTimeMs: u64, memoryBytes: u64, outputBytes: u64, objectCount: u32, objectBytes: u64,
    hostRequestsPerMinute: u32, idleTimeoutMs: u64, lifetimeTimeoutMs: u64)

  datatype Phase = Created | Running | Stopped | Crashed | WasReset | OverLimit

  datatype ContractError =
    | UnsupportedVersion(version: u32) | InvalidField(field: string) | InvalidLimits(field: string)
    | RequestTooLarge(size: nat)
    | ForbiddenOperation | ForbiddenCapability | SensitiveInlinePayload | SecretObject

  datatype Failure =
    | NotRunning | InvalidStart | ObjectBytes | ObjectCount | Time | RequestRate | Output
    | Contract(error: ContractError)

  type Objects = map<string, seq<u8>>

  datatype State = State(phase: Phase, startedAt: Option<nat>, lastActivity: Option<nat>, requests: u32,
                         objects: Objects)

  const NEW: State := State(Created, None, None, 0, map[])

  datatype Operation =
    | JsonParse | JsonSelect | CsvSummary | ObjectPut | ArtifactRead | ToolRequest
    | Filesystem | Network | Shell | Credentials

  datatype Request = Request(
    version: u32, requestId: string, kernelId: string, sessionId: string, correlationId: string, idempotencyKey: string,
    operation: Operation, args: seq<u8>, requestedCapability: Option<string>, contextRefs: seq<string>)

  datatype Sensitivity = Public | Internal | Sensitive | Secret

  datatype Op =
    | Start(now: nat)
    | Stop
    | Reset
    | MarkCrashed
    | Put(name: string, typeHint: string, value: seq<u8>, sensitivity: Sensitivity, nowMs: i64)
    | Admit(request: Request, now: nat)
    | AcceptOutput(size: nat)

  // --------------------------------------------------------------------- validation

  /** `validate_id`. */
  predicate IsId(s: string) {
    s != "" && Utf8Length(s) <= MAX_ID_BYTES && forall i :: 0 <= i < |s| ==> !IsControl(s[i])
  }

  /** `validate_hash`. */
  predicate IsHash(s: string) {
    |s| == 64 && forall i :: 0 <= i < |s| ==> IsHexDigit(s[i])
  }

  predicate Within(n: nat, limit: nat) {
    0 < n <= limit
  }

  /** `KernelLimitsV1::validate`, in the order of its checks. */
  function LimitsError(l: Session): Option<ContractError> {
    if !Within(l.cpuTimeMs, 10 * 60 * 1000) then Some(InvalidLimits("cpu_time_ms"))
    else if !Within(l.memoryBytes, 2 * 1024 * 1024 * 1024) then Some(InvalidLimits("memory_bytes"))
    else if !Within(l.outputBytes, 16 * 1024 * 1024) then Some(InvalidLimits("output_bytes"))
    else if !Within(l.objectCount, MAX_OBJECTS) then Some(InvalidLimits("object_count"))
    else if !Within(l.objectBytes, MAX_OBJECT_BYTES) then Some(InvalidLimits("object_bytes"))
    else if !Within(l.hostRequestsPerMinute, 10_000) then Some(InvalidLimits("host_requests_per_minute"))
    else if !Within(l.idleTimeoutMs, l.lifetimeTimeoutMs) then Some(InvalidLimits("timeouts"))
    else None
  }

  /** `AnalysisKernelSessionV1::validate`, in the order of its checks. */
  function SessionError(l: Session): Option<ContractError> {
    if l.schemaVersion != 1 then Some(UnsupportedVersion(l.schemaVersion))
    else if !IsId(l.id) then Some(InvalidField("id"))
    else if !IsId(l.taskId) then Some(InvalidField("task_id"))
    else if !IsId(l.workspaceId) then Some(InvalidField("workspace_id"))
    else if !IsId(l.runtimeVersion) then Some(InvalidField("runtime_version"))
    else if !IsId(l.packageManifestHash) then Some(InvalidField("package_manifest_hash"))
    else if !IsId(l.policyHash) then Some(InvalidField("policy_hash"))
    else if LimitsError(l).Some? then LimitsError(l)
    else if !IsHash(l.packageManifestHash) then Some(InvalidField("package_manifest_hash"))
    else if !IsHash(l.policyHash) then Some(InvalidField("policy_hash"))
    else if l.runtimeVersion != "trusted-local-1" then Some(InvalidField("runtime_version"))
    else if l.createdAtMs <= 0 || l.updatedAtMs < l.createdAtMs then Some(InvalidField("timestamps"))
    else None
  }

  predicate ValidSession(l: Session) {
    SessionError(l).None?
  }

  predicate IsBounded(s: string) {
    s != "" && Utf8Length(s) <= MAX_ID_BYTES
  }

  /** `required_capability`. */
  function Capability(op: Operation): Option<string> {
    match op
    case ArtifactRead => Some("artifact.read")
    case ToolRequest => Some("tool.request")
    case _ => None
  }

  /** `KernelHostRequestV1::validate`, in the order of its checks. */
  function RequestError(r: Request): Option<ContractError> {
    if r.version != 1 then Some(UnsupportedVersion(r.version))
    else if !IsBounded(r.requestId) then Some(InvalidField("request_id"))
    else if !IsBounded(r.kernelId) then Some(InvalidField("kernel_id"))
    else if !IsBounded(r.sessionId) then Some(InvalidField("session_id"))
    else if !IsBounded(r.correlationId) then Some(InvalidField("correlation_id"))
    else if !IsBounded(r.idempotencyKey) then Some(InvalidField("idempotency_key"))
    else if |r.args| > MAX_REQUEST_BYTES then Some(RequestTooLarge(|r.args|))
    else if |r.contextRefs| > 32 || exists i :: 0 <= i < |r.contextRefs| && Utf8Length(r.contextRefs[i]) > 256
      then Some(InvalidField("context_refs"))
    else if r.operation.Filesystem? || r.operation.Network? || r.operation.Shell? || r.operation.Credentials?
        then Some(ForbiddenOperation)
    else if Capability(r.operation) != r.requestedCapability then Some(ForbiddenCapability)
    else None
  }

  const MARKERS: seq<string> := ["api_key", "apikey", "access_token", "password", "secret", "private_key"]

  function Lower(b: u8): u8 {
    if 65 <= b <= 90 then b + 32 else b
  }

  /** The bytes of an ASCII word stand at position `i`, in any case. */
  predicate SpellsAt(args: seq<u8>, i: nat, word: string) {
    i + |word| <= |args| && forall k :: 0 <= k < |word| ==> Lower(args[i + k]) == word[k] as int
  }

  /** `contains_sensitive_marker`; reading the bytes as text keeps ASCII bytes and makes none. */
  predicate HasMarker(args: seq<u8>) {
    exists m, i :: 0 <= m < |MARKERS| && 0 <= i <= |args| && SpellsAt(args, i, MARKERS[m])
  }

  /** Validation of the reference to an ephemeral object of session `id`, in the order of its checks. */
  function ReferenceError(id: string, op: Op): Option<ContractError>
    requires op.Put?
  {
    if !IsId(id + ":" + op.name) then Some(InvalidField("id"))
    else if !IsId(op.name) then Some(InvalidField("logical_name"))
    else if !IsId(op.typeHint) then Some(InvalidField("type_hint"))
    else if op.sensitivity.Secret? then Some(SecretObject)
    else if op.nowMs <= 0 then Some(InvalidField("timestamps"))
    else None
  }

  // ---------------------------------------------------------------- bytes of a map

  ghost function Pick(m: Objects): (name: string)
    requires m != map[]
    ensures name in m
  {
    var name :| name in m;
    name
  }

  ghost function Bytes(m: Objects): nat
    decreases m.Keys
  {
    if m == map[] then 0 else |m[Pick(m)]| + Bytes(m - {Pick(m)})
  }

  /** The sum does not depend on the order in which the map is visited. */
  lemma {:induction false} BytesSplit(m: Objects, name: string)
    requires name in m
    ensures Bytes(m) == |m[name]| + Bytes(m - {name})
    decreases m.Keys
  {
    var first := Pick(m);
    if first != name {
      BytesSplit(m - {first}, name);
      BytesSplit(m - {name}, first);
      assert m - {first} - {name} == m - {name} - {first};
    }
  }

  lemma BytesReplace(m: Objects, name: string, value: seq<u8>)
    ensures Bytes(m[name := value]) == Bytes(m - {name}) + |value|
    ensures name in m ==> Bytes(m) == Bytes(m - {name}) + |m[name]|
    ensures name !in m ==> m - {name} == m
  {
    BytesSplit(m[name := value], name);
    assert m[name := value] - {name} == m - {name};
    if name in m { BytesSplit(m, name); }
  }

  function Held(m: Objects, name: string): nat {
    if name in m then |m[name]| else 0
  }

  /** `objects.values().map(Vec::len).sum()`, in whatever order the map yields its values. */
  method TotalBytes(m: Objects) returns (n: nat)
    ensures n == Bytes(m)
  {
    n := 0;
    var rest := m;
    while rest != map[]
      invariant n + Bytes(rest) == Bytes(m)
      decreases rest.Keys
    {
      var name :| name in rest;
      BytesSplit(rest, name);
      n, rest := n + |rest[name]|, rest - {name};
    }
  }

  // ---------------------------------------------------------------- one operation

  ghost function PutFailure(l: Session, m: Objects, name: string, value: seq<u8>): Option<Failure> {
    if |value| > l.objectBytes then Some(ObjectBytes)
    else if name !in m && |m| >= l.objectCount then Some(ObjectCount)
    else if Max(0, Bytes(m) - Held(m, name)) + |value| > l.objectBytes then Some(ObjectBytes)
    else None
  }

  function Elapsed(now: nat, since: nat): nat {
    if now >= since then now - since else 0
  }

  predicate TimedOut(l: Session, s: State, now: nat)
    requires s.startedAt.Some?
  {
    || Elapsed(now, s.startedAt.value) > l.lifetimeTimeoutMs
    || (s.lastActivity.Some? && Elapsed(now, s.lastActivity.value) > l.idleTimeoutMs)
  }

  function Breach(s: State): State {
    s.(phase := OverLimit, objects := map[])
  }

  ghost function AdmitStep(l: Session, s: State, op: Op): (State, Result<(), Failure>)
    requires op.Admit?
  {
    if RequestError(op.request).Some? then (s, Err(Contract(RequestError(op.request).value)))
    else if s.phase != Running || s.startedAt.None? then (s, Err(NotRunning))
    else if TimedOut(l, s, op.now) then (Breach(s), Err(Time))
    else
      var counted := s.(requests := SatAdd(s.requests, 1));
      if counted.requests > l.hostRequestsPerMinute then (Breach(counted), Err(RequestRate))
      else if HasMarker(op.request.args) then (counted, Err(Contract(SensitiveInlinePayload)))
      else (counted.(lastActivity := Some(op.now)), Ok(()))
  }

  /** A value that fits is stored before the reference to it is validated. */
  ghost function PutStep(l: Session, s: State, op: Op): (State, Result<(), Failure>)
    requires op.Put?
  {
    if s.phase != Running then (s, Err(NotRunning))
    else
      var failure := PutFailure(l, s.objects, op.name, op.value);
      if failure.Some? then (s, Err(failure.value))
      else
        var bad := ReferenceError(l.id, op);
        (s.(objects := s.objects[op.name := op.value]), if bad.None? then Ok(()) else Err(Contract(bad.value)))
  }

  ghost function Step(l: Session, s: State, op: Op): (State, Result<(), Failure>) {
    match op
    case Start(now) =>
      if s.phase in {Created, Stopped, WasReset}
      then (State(Running, Some(now), Some(now), 0, s.objects), Ok(()))
      else (s, Err(InvalidStart))
    case Stop => (s.(phase := Stopped, objects := map[]), Ok(()))
    case Reset => (State(WasReset, None, None, 0, map[]), Ok(()))
    case MarkCrashed => (State(Crashed, None, None, s.requests, map[]), Ok(()))
    case Put(_, _, _, _, _) => PutStep(l, s, op)
    case Admit(_, _) => AdmitStep(l, s, op)
    case AcceptOutput(size) =>
      if size > l.outputBytes || size > MAX_RESULT_BYTES then (Breach(s), Err(Output)) else (s, Ok(()))
  }

  class KernelRuntime {
    const session: Session
    var phase: Phase
    var startedAt: Option<nat>
    var lastActivity: Option<nat>
    var requests: u32
    var objects: Objects

    ghost function Value(): State
      reads this
    {
      State(phase, startedAt, lastActivity, requests, objects)
    }

    constructor (session: Session)
      ensures this.session == session && Value() == NEW
    {
      this.session := session;
      phase, startedAt, lastActivity, requests, objects := Created, None, None, 0, map[];
    }

    method Start(now: nat) returns (r: Result<(), Failure>)
      modifies this
      ensures (Value(), r) == Step(session, old(Value()), Op.Start(now))
    {
      if phase != Created && phase != Stopped && phase != WasReset { return Err(InvalidStart); }
      phase, startedAt, lastActivity, requests := Running, Some(now), Some(now), 0;
      return Ok(());
    }

    method Stop()
      modifies this
      ensures Value() == Step(session, old(Value()), Op.Stop).0
    {
      phase, objects := Stopped, map[];
    }

    method Reset()
      modifies this
      ensures Value() == Step(session, old(Value()), Op.Reset).0
    {
      phase, startedAt, lastActivity, requests, objects := WasReset, None, None, 0, map[];
    }

    method MarkCrashed()
      modifies this
      ensures Value() == Step(session, old(Value()), Op.MarkCrashed).0
    {
      phase, startedAt, lastActivity, objects := Crashed, None, None, map[];
    }

    method PutEphemeralObject(name: string, typeHint: string, value: seq<u8>, sensitivity: Sensitivity, nowMs: i64)
      returns (r: Result<(), Failure>)
      modifies this
      ensures (Value(), r) == Step(session, old(Value()), Put(name, typeHint, value, sensitivity, nowMs))
    {
      if phase != Running { return Err(NotRunning); }
      if |value| > session.objectBytes { return Err(ObjectBytes); }
      var current := TotalBytes(objects);
      if name !in objects && |objects| >= session.objectCount { return Err(ObjectCount); }
      var replacing := if name in objects then |objects[name]| else 0;
      if Max(0, current - replacing) + |value| > session.objectBytes { return Err(ObjectBytes); }
      objects := objects[name := value];
      var bad := ReferenceError(session.id, Put(name, typeHint, value, sensitivity, nowMs));
      if bad.Some? { return Err(Contract(bad.value)); }
      return Ok(());
    }

    method Admit(request: Request, now: nat) returns (r: Result<(), Failure>)
      modifies this
      ensures (Value(), r) == Step(session, old(Value()), Op.Admit(request, now))
    {
      var invalid := RequestError(request);
      if invalid.Some? { return Err(Contract(invalid.value)); }
      if phase != Running || startedAt.None? { return Err(NotRunning); }
      if Elapsed(now, startedAt.value) > session.lifetimeTimeoutMs
         || (lastActivity.Some? && Elapsed(now, lastActivity.value) > session.idleTimeoutMs) {
        phase, objects := OverLimit, map[];
        return Err(Time);
      }
      requests := SatAdd(requests, 1);
      if requests > session.hostRequestsPerMinute {
        phase, objects := OverLimit, map[];
        return Err(RequestRate);
      }
      if HasMarker(request.args) { return Err(Contract(SensitiveInlinePayload)); }
      lastActivity := Some(now);
      return Ok(());
    }

    method AcceptOutput(size: nat) returns (r: Result<(), Failure>)
      modifies this
      ensures (Value(), r) == Step(session, old(Value()), Op.AcceptOutput(size))
    {
      if size > session.outputBytes || size > MAX_RESULT_BYTES {
        phase, objects := OverLimit, map[];
        return Err(Output);
      }
      return Ok(());
    }
  }

  /** `KernelRuntime::new`: a runtime exists exactly for a valid session, and starts without objects or requests. */
  method NewRuntime(session: Session) returns (r: Result<KernelRuntime, ContractError>)
    ensures r.Ok? <==> ValidSession(session)
    ensures r.Err? ==> SessionError(session) == Some(r.error)
    ensures r.Ok? ==> fresh(r.value) && r.value.session == session && r.value.Value() == NEW
  {
    var error := SessionError(session);
    if error.Some? { return Err(error.value); }
    var runtime := new KernelRuntime(session);
    return Ok(runtime);
  }

  // ------------------------------------------------------------------- the invariant

  ghost predicate Sound(l: Session, s: State) {
    && (s.phase != Running ==> s.objects == map[])
    && (s.phase == Running ==> s.startedAt.Some? && s.lastActivity.Some? && s.requests <= l.hostRequestsPerMinute)
    && |s.objects| <= l.objectCount
    && Bytes(s.objects) <= l.objectBytes
  }

  /** A value is stored if and only if the objects with it in place stay within both limits. */
  lemma StoredIfItFits(l: Session, m: Objects, name: string, value: seq<u8>)
    requires |m| <= l.objectCount
    ensures PutFailure(l, m, name, value).None? <==>
              |m[name := value]| <= l.objectCount && Bytes(m[name := value]) <= l.objectBytes
  {
    BytesReplace(m, name, value);
    var after := m[name := value];
    assert after.Keys == m.Keys + {name};
    assert |after| == |after.Keys| && |m| == |m.Keys|;
  }

  lemma StepKeeps(l: Session, s: State, op: Op)
    requires Sound(l, s)
    ensures Sound(l, Step(l, s, op).0)
  {
    if op.Put? && s.phase == Running && PutFailure(l, s.objects, op.name, op.value).None? {
      StoredIfItFits(l, s.objects, op.name, op.value);
    }
  }

  /** The state after a run. */
  ghost function Run(l: Session, ops: seq<Op>): State {
    if ops == [] then NEW else Step(l, Run(l, ops[..|ops| - 1]), ops[|ops| - 1]).0
  }

  /** What operation `j` of a run answered. */
  ghost function Answer(l: Session, ops: seq<Op>, j: nat): Result<(), Failure>
    requires j < |ops|
  {
    Step(l, Run(l, ops[..j]), ops[j]).1
  }

  lemma RunStep(l: Session, ops: seq<Op>, j: nat)
    requires j < |ops|
    ensures Run(l, ops[..j + 1]) == Step(l, Run(l, ops[..j]), ops[j]).0
  {
    assert ops[..j + 1][..j] == ops[..j];
  }

  /** After every run: objects only while running, within the limits on their number and on their bytes together. */
  lemma {:induction false} EveryRunIsSound(l: Session, ops: seq<Op>)
    ensures Sound(l, Run(l, ops))
  {
    if ops != [] {
      EveryRunIsSound(l, ops[..|ops| - 1]);
      StepKeeps(l, Run(l, ops[..|ops| - 1]), ops[|ops| - 1]);
    }
  }

  // -------------------------------------------------------------- requests since a start

  /** Requests admitted since the last successful start. */
  ghost function Admitted(l: Session, ops: seq<Op>): nat {
    if ops == [] then 0
    else
      var j := |ops| - 1;
      if ops[j].Start? && Answer(l, ops, j).Ok? then 0
      else Admitted(l, ops[..j]) + (if ops[j].Admit? && Answer(l, ops, j).Ok? then 1 else 0)
  }

  lemma CountStep(l: Session, s: State, op: Op)
    requires Sound(l, s) && ValidSession(l)
    ensures var (after, r) := Step(l, s, op);
      && (op.Admit? && r.Ok? ==> s.phase == Running && after.requests == s.requests + 1 <= l.hostRequestsPerMinute)
      && (after.phase == Running && !(op.Start? && r.Ok?) ==> s.phase == Running && after.requests >= s.requests)
  {
  }

  /** Between two starts no more requests are admitted than the limit allows. */
  lemma {:induction false} AdmittedBounded(l: Session, ops: seq<Op>)
    requires ValidSession(l)
    ensures Admitted(l, ops) <= l.hostRequestsPerMinute
    ensures Run(l, ops).phase == Running ==> Admitted(l, ops) <= Run(l, ops).requests
  {
    if ops != [] {
      var front := ops[..|ops| - 1];
      AdmittedBounded(l, front);
      EveryRunIsSound(l, front);
      CountStep(l, Run(l, front), ops[|ops| - 1]);
    }
  }

  // ------------------------------------------------------------------ where objects come from

  ghost predicate Stored(l: Session, ops: seq<Op>, j: nat, name: string)
    requires j < |ops|
  {
    && ops[j].Put? && ops[j].name == name
    && Run(l, ops[..j]).phase == Running
    && PutFailure(l, Run(l, ops[..j]).objects, name, ops[j].value).None?
  }

  /** Operation `j` stored `name`; from then to `n` the kernel never left the running phase and stored nothing else
      under it. */
  ghost predicate Latest(l: Session, ops: seq<Op>, j: nat, n: nat, name: string) {
    && j < n <= |ops| && Stored(l, ops, j, name)
    && forall k :: j < k < n ==> Undisturbed(l, ops, k, name)
  }

  ghost predicate Undisturbed(l: Session, ops: seq<Op>, k: nat, name: string)
    requires k < |ops|
  {
    Run(l, ops[..k + 1]).phase == Running && !Stored(l, ops, k, name)
  }

  ghost predicate StoresNow(l: Session, s: State, op: Op, name: string) {
    && op.Put? && op.name == name && s.phase == Running
    && PutFailure(l, s.objects, name, op.value).None?
  }

  /** A step stores the object, or leaves it alone while the kernel runs on, or clears everything. */
  ghost predicate Moves(l: Session, s: State, op: Op, name: string, after: State) {
    if StoresNow(l, s, op, name) then name in after.objects && after.objects[name] == op.value
    else if after.phase == Running
    then (name in after.objects <==> name in s.objects)
         && (name in s.objects ==> after.objects[name] == s.objects[name])
    else after.objects == map[]
  }

  lemma ObjectsStep(l: Session, s: State, op: Op, name: string)
    requires s.phase != Running ==> s.objects == map[]
    ensures Moves(l, s, op, name, Step(l, s, op).0)
  {
  }

  lemma MovesAt(l: Session, ops: seq<Op>, n: nat, name: string)
    requires 0 < n <= |ops|
    ensures Moves(l, Run(l, ops[..n - 1]), ops[n - 1], name, Run(l, ops[..n]))
  {
    EveryRunIsSound(l, ops[..n - 1]);
    RunStep(l, ops, n - 1);
    ObjectsStep(l, Run(l, ops[..n - 1]), ops[n - 1], name);
  }

  /** `m` holds `name` if and only if some operation stored it and nothing since has replaced it or ended the running
      phase; then it holds that operation's value. */
  ghost predicate HoldsLatest(l: Session, ops: seq<Op>, n: nat, name: string, m: Objects) {
    && (name in m <==> exists j: nat :: Latest(l, ops, j, n, name))
    && (forall j: nat :: Latest(l, ops, j, n, name) ==> name in m && m[name] == ops[j].value)
  }

  lemma StoredHolds(l: Session, ops: seq<Op>, n: nat, name: string, m: Objects)
    requires 0 < n <= |ops| && Stored(l, ops, n - 1, name) && name in m && m[name] == ops[n - 1].value
    ensures HoldsLatest(l, ops, n, name, m)
  {
    LatestStep(l, ops, n, name);
    assert Latest(l, ops, n - 1, n, name);
  }

  lemma RunningHolds(l: Session, ops: seq<Op>, n: nat, name: string, before: Objects, after: Objects)
    requires 0 < n <= |ops| && !Stored(l, ops, n - 1, name) && Run(l, ops[..n]).phase == Running
    requires HoldsLatest(l, ops, n - 1, name, before)
    requires (name in after <==> name in before) && (name in before ==> after[name] == before[name])
    ensures HoldsLatest(l, ops, n, name, after)
  {
    LatestStep(l, ops, n, name);
    if name in before {
      var j: nat :| Latest(l, ops, j, n - 1, name);
      assert Latest(l, ops, j, n, name);
    }
  }

  lemma StoppedHolds(l: Session, ops: seq<Op>, n: nat, name: string)
    requires 0 < n <= |ops| && !Stored(l, ops, n - 1, name) && Run(l, ops[..n]).phase != Running
    ensures HoldsLatest(l, ops, n, name, map[])
  {
    LatestStep(l, ops, n, name);
  }

  lemma HeldStep(l: Session, ops: seq<Op>, n: nat, name: string, before: State, after: State)
    requires 0 < n <= |ops| && before == Run(l, ops[..n - 1]) && after == Run(l, ops[..n])
    requires HoldsLatest(l, ops, n - 1, name, before.objects) && Moves(l, before, ops[n - 1], name, after)
    ensures HoldsLatest(l, ops, n, name, after.objects)
  {
    assert Stored(l, ops, n - 1, name) <==> StoresNow(l, before, ops[n - 1], name);
    if Stored(l, ops, n - 1, name) {
      StoredHolds(l, ops, n, name, after.objects);
    } else if after.phase == Running {
      RunningHolds(l, ops, n, name, before.objects, after.objects);
    } else {
      StoppedHolds(l, ops, n, name);
    }
  }

  /** The objects after every run, exactly. */
  lemma {:induction false} HeldIsLatest(l: Session, ops: seq<Op>, n: nat, name: string)
    requires n <= |ops|
    ensures HoldsLatest(l, ops, n, name, Run(l, ops[..n]).objects)
  {
    if n > 0 {
      HeldIsLatest(l, ops, n - 1, name);
      MovesAt(l, ops, n, name);
      HeldStep(l, ops, n, name, Run(l, ops[..n - 1]), Run(l, ops[..n]));
    }
  }

  lemma LatestStep(l: Session, ops: seq<Op>, n: nat, name: string)
    requires 0 < n <= |ops|
    ensures Stored(l, ops, n - 1, name) ==> forall j: nat :: Latest(l, ops, j, n, name) <==> j == n - 1
    ensures !Stored(l, ops, n - 1, name) ==> forall j: nat ::
      Latest(l, ops, j, n, name) <==> Latest(l, ops, j, n - 1, name) && Run(l, ops[..n]).phase == Running
  {
    forall j: nat | j != n - 1
      ensures Latest(l, ops, j, n, name) <==> Latest(l, ops, j, n - 1, name) && Undisturbed(l, ops, n - 1, name)
    {
    }
  }

  lemma LatestIsAfter(l: Session, ops: seq<Op>, j: nat, n: nat, name: string, k: nat)
    requires Latest(l, ops, j, n, name) && k < n && Run(l, ops[..k + 1]).phase != Running
    ensures k < j
  {
    assert !Undisturbed(l, ops, k, name);
    if j == k { RunStep(l, ops, k); }
  }

  /** No object outlives a stop, a reset, a crash or a breach: what is held later was stored after it. */
  lemma NothingSurvives(l: Session, ops: seq<Op>, k: nat, name: string) returns (j: nat)
    requires k < |ops| && Run(l, ops[..k + 1]).phase != Running && name in Run(l, ops).objects
    ensures k < j && Latest(l, ops, j, |ops|, name)
  {
    assert ops[..|ops|] == ops;
    HeldIsLatest(l, ops, |ops|, name);
    j :| Latest(l, ops, j, |ops|, name);
    LatestIsAfter(l, ops, j, |ops|, name, k);
  }

  // ------------------------------------------------------------------ time and recovery

  /** Operation `i` was the successful start of the running stretch that holds until `j`. */
  ghost predicate StartOf(l: Session, ops: seq<Op>, i: nat, j: nat) {
    && i < j <= |ops| && ops[i].Start? && Answer(l, ops, i).Ok?
    && forall k :: i < k <= j ==> Run(l, ops[..k]).phase == Running
  }

  /** Operation `i` is the latest before `j` that was a successful start or an admitted request. */
  ghost predicate ActivityBefore(l: Session, ops: seq<Op>, i: nat, j: nat) {
    && i < j <= |ops| && Active(l, ops, i)
    && forall k :: i < k < j ==> !Active(l, ops, k)
  }

  ghost predicate Active(l: Session, ops: seq<Op>, i: nat)
    requires i < |ops|
  {
    (ops[i].Start? || ops[i].Admit?) && Answer(l, ops, i).Ok?
  }

  lemma RunningStep(l: Session, s: State, op: Op)
    requires Step(l, s, op).0.phase == Running
    ensures var (after, r) := Step(l, s, op);
      if op.Start? && r.Ok? then after.startedAt == after.lastActivity == Some(op.now)
      else s.phase == Running && after.startedAt == s.startedAt
           && after.lastActivity == if op.Admit? && r.Ok? then Some(op.now) else s.lastActivity
  {
  }

  lemma StartExtends(l: Session, ops: seq<Op>, i: nat, j: nat)
    requires j < |ops| && StartOf(l, ops, i, j) && Run(l, ops[..j + 1]).phase == Running
    ensures StartOf(l, ops, i, j + 1)
  {
    forall k | i < k <= j + 1 ensures Run(l, ops[..k]).phase == Running {
      if k <= j { assert Run(l, ops[..k]).phase == Running; }
    }
  }

  lemma ActivityExtends(l: Session, ops: seq<Op>, i: nat, j: nat)
    requires j < |ops| && ActivityBefore(l, ops, i, j) && !Active(l, ops, j)
    ensures ActivityBefore(l, ops, i, j + 1)
  {
  }

  /** A running kernel remembers when it started and when it was last active. */
  lemma {:induction false} RunningSince(l: Session, ops: seq<Op>, j: nat) returns (first: nat, last: nat)
    requires 0 < j <= |ops| && Run(l, ops[..j]).phase == Running
    ensures StartOf(l, ops, first, j) && ActivityBefore(l, ops, last, j) && first <= last
    ensures Run(l, ops[..j]).startedAt == Some(ops[first].now) && Run(l, ops[..j]).lastActivity == Some(ops[last].now)
  {
    var n := j - 1;
    RunStep(l, ops, n);
    RunningStep(l, Run(l, ops[..n]), ops[n]);
    if ops[n].Start? && Answer(l, ops, n).Ok? {
      first, last := n, n;
      assert StartOf(l, ops, n, j);
    } else {
      assert n > 0;
      first, last := RunningSince(l, ops, n);
      StartExtends(l, ops, first, n);
      if Active(l, ops, n) { last := n; } else { ActivityExtends(l, ops, last, n); }
    }
  }

  /** An admitted request comes within the lifetime of the stretch it belongs to and within the idle time of the
      activity before it. */
  lemma AdmittedInTime(l: Session, ops: seq<Op>, j: nat) returns (first: nat, last: nat)
    requires j < |ops| && ops[j].Admit? && Answer(l, ops, j).Ok?
    ensures StartOf(l, ops, first, j) && Elapsed(ops[j].now, ops[first].now) <= l.lifetimeTimeoutMs
    ensures ActivityBefore(l, ops, last, j) && first <= last && Elapsed(ops[j].now, ops[last].now) <= l.idleTimeoutMs
  {
    first, last := RunningSince(l, ops, j);
  }

  /** A kernel that crashed or broke a limit runs again only after a stop or a reset. */
  lemma {:induction false} RecoveryNeedsStopOrReset(l: Session, ops: seq<Op>, i: nat, j: nat) returns (k: nat)
    requires i < j <= |ops| && Run(l, ops[..i]).phase in {Crashed, OverLimit}
    requires Run(l, ops[..j]).phase !in {Crashed, OverLimit}
    ensures i <= k < j && (ops[k].Stop? || ops[k].Reset?)
  {
    RunStep(l, ops, j - 1);
    if i < j - 1 && Run(l, ops[..j - 1]).phase !in {Crashed, OverLimit} {
      k := RecoveryNeedsStopOrReset(l, ops, i, j - 1);
    } else {
      k := j - 1;
    }
  }

  // --------------------------------------------------------- what is valid, field by field

  /** A name of at most 128 bytes without control characters. */
  predicate GoodName(s: string) {
    s != "" && Utf8Length(s) <= 128 && forall c :: c in s ==> ' ' <= c && !('\U{007F}' <= c <= '\U{009F}')
  }

  lemma NameMeans(s: string)
    ensures IsId(s) <==> GoodName(s)
  {
    if GoodName(s) {
      forall i | 0 <= i < |s| ensures !IsControl(s[i]) { assert s[i] in s; }
    }
  }

  predicate GoodReference(id: string, op: Op)
    requires op.Put?
  {
    && GoodName(id + ":" + op.name) && GoodName(op.name) && GoodName(op.typeHint)
    && !op.sensitivity.Secret? && op.nowMs > 0
  }

  lemma ReferenceMeans(id: string, op: Op)
    requires op.Put?
    ensures ReferenceError(id, op).None? <==> GoodReference(id, op)
  {
    NameMeans(id + ":" + op.name);
    NameMeans(op.name);
    NameMeans(op.typeHint);
  }

  predicate GoodHash(s: string) {
    |s| == 64 && forall c :: c in s ==> '0' <= c <= '9' || 'a' <= c <= 'f' || 'A' <= c <= 'F'
  }

  predicate GoodLimits(l: Session) {
    && 1 <= l.cpuTimeMs <= 600_000 && 1 <= l.memoryBytes <= 2_147_483_648 && 1 <= l.outputBytes <= 16_777_216
    && 1 <= l.objectCount <= 1024 && 1 <= l.objectBytes <= 268_435_456 && 1 <= l.hostRequestsPerMinute <= 10_000
    && 1 <= l.idleTimeoutMs <= l.lifetimeTimeoutMs
  }

  predicate GoodSession(l: Session) {
    && l.schemaVersion == 1 && GoodName(l.id) && GoodName(l.taskId) && GoodName(l.workspaceId)
    && l.runtimeVersion == "trusted-local-1" && GoodHash(l.packageManifestHash) && GoodHash(l.policyHash)
    && GoodLimits(l) && 1 <= l.createdAtMs <= l.updatedAtMs
  }

  lemma HashMeans(s: string)
    ensures IsHash(s) <==> GoodHash(s)
  {
    if GoodHash(s) {
      forall i | 0 <= i < |s| ensures IsHexDigit(s[i]) { assert s[i] in s; }
    }
  }

  lemma AsciiIsName(s: string)
    requires 1 <= |s| <= 128 && forall i :: 0 <= i < |s| ==> ' ' <= s[i] <= '~'
    ensures GoodName(s)
  {
    AsciiLength(s);
  }

  lemma HashIsName(s: string)
    requires GoodHash(s)
    ensures GoodName(s)
  {
    forall i | 0 <= i < |s| ensures ' ' <= s[i] <= '~' { assert s[i] in s; }
    AsciiIsName(s);
  }

  lemma RuntimeIsName()
    ensures GoodName("trusted-local-1")
  {
    AsciiIsName("trusted-local-1");
  }

  lemma LimitsMean(l: Session)
    ensures LimitsError(l).None? <==> GoodLimits(l)
  {
  }

  /** A session is accepted exactly if every field is. */
  lemma SessionMeans(l: Session)
    ensures ValidSession(l) <==> GoodSession(l)
  {
    NameMeans(l.id);
    NameMeans(l.taskId);
    NameMeans(l.workspaceId);
    NameMeans(l.runtimeVersion);
    NameMeans(l.packageManifestHash);
    NameMeans(l.policyHash);
    HashMeans(l.packageManifestHash);
    HashMeans(l.policyHash);
    LimitsMean(l);
    if GoodSession(l) {
      HashIsName(l.packageManifestHash);
      HashIsName(l.policyHash);
      RuntimeIsName();
    }
  }

  /** What a request must be, field by field. */
  predicate GoodRequest(r: Request) {
    && r.version == 1
    && (forall id :: id in [r.requestId, r.kernelId, r.sessionId, r.correlationId, r.idempotencyKey] ==>
          1 <= Utf8Length(id) <= 128)
    && |r.args| <= 16_384
    && |r.contextRefs| <= 32 && (forall ref :: ref in r.contextRefs ==> Utf8Length(ref) <= 256)
    && r.operation !in {Filesystem, Network, Shell, Credentials}
    && r.requestedCapability == (if r.operation == ArtifactRead then Some("artifact.read")
                                 else if r.operation == ToolRequest then Some("tool.request") else None)
  }

  lemma ShortReferences(refs: seq<string>)
    ensures (exists i :: 0 <= i < |refs| && Utf8Length(refs[i]) > 256) <==>
            !(forall ref :: ref in refs ==> Utf8Length(ref) <= 256)
  {
  }

  lemma BoundedMeans(s: string)
    ensures IsBounded(s) <==> 1 <= Utf8Length(s) <= 128
  {
  }

  /** A request passes validation exactly if every field is as it must be. */
  lemma RequestMeans(r: Request)
    ensures RequestError(r).None? <==> GoodRequest(r)
    ensures RequestError(r) != Some(SensitiveInlinePayload)
  {
    BoundedMeans(r.requestId);
    BoundedMeans(r.kernelId);
    BoundedMeans(r.sessionId);
    BoundedMeans(r.correlationId);
    BoundedMeans(r.idempotencyKey);
    ShortReferences(r.contextRefs);
    var ids := [r.requestId, r.kernelId, r.sessionId, r.correlationId, r.idempotencyKey];
    assert r.requestId == ids[0] && r.kernelId == ids[1] && r.sessionId == ids[2];
    assert r.correlationId == ids[3] && r.idempotencyKey == ids[4];
    assert forall id :: id in ids <==>
      id == r.requestId || id == r.kernelId || id == r.sessionId || id == r.correlationId || id == r.idempotencyKey;
  }

  /** The word stands somewhere in the bytes, in upper or lower case. */
  ghost predicate Mentions(args: seq<u8>, word: string) {
    exists i: nat :: MentionsAt(args, i, word)
  }

  predicate MentionsAt(args: seq<u8>, i: nat, word: string) {
    i + |word| <= |args| && forall k :: 0 <= k < |word| ==> IsLetter(args[i + k], word[k])
  }

  predicate IsLetter(b: u8, c: char) {
    b == c as int || ('a' <= c <= 'z' && b + 32 == c as int)
  }

  predicate IsPlain(word: string) {
    forall k :: 0 <= k < |word| ==> 'a' <= word[k] <= 'z' || word[k] == '_'
  }

  lemma SpelledMeans(args: seq<u8>, i: nat, word: string)
    requires IsPlain(word)
    ensures SpellsAt(args, i, word) <==> MentionsAt(args, i, word)
  {
  }

  /** Words that must not be passed on inline. */
  ghost predicate MentionsSecret(args: seq<u8>) {
    || Mentions(args, "api_key") || Mentions(args, "apikey") || Mentions(args, "access_token")
    || Mentions(args, "password") || Mentions(args, "secret") || Mentions(args, "private_key")
  }

  lemma MarkersPlain(m: nat)
    requires m < |MARKERS|
    ensures IsPlain(MARKERS[m])
  {
  }

  lemma MarkerAt(args: seq<u8>, m: nat, i: nat)
    requires m < |MARKERS| && i <= |args| && SpellsAt(args, i, MARKERS[m])
    ensures MentionsSecret(args)
  {
    MarkersPlain(m);
    SpelledMeans(args, i, MARKERS[m]);
    assert Mentions(args, MARKERS[m]);
  }

  lemma MentionMarks(args: seq<u8>, m: nat)
    requires m < |MARKERS| && Mentions(args, MARKERS[m])
    ensures HasMarker(args)
  {
    MarkersPlain(m);
    var i: nat :| MentionsAt(args, i, MARKERS[m]);
    SpelledMeans(args, i, MARKERS[m]);
  }

  lemma MarkerMeans(args: seq<u8>)
    ensures HasMarker(args) <==> MentionsSecret(args)
  {
    if HasMarker(args) {
      var m, i :| 0 <= m < |MARKERS| && 0 <= i <= |args| && SpellsAt(args, i, MARKERS[m]);
      MarkerAt(args, m, i);
    }
    if MentionsSecret(args) {
      var m := if Mentions(args, "api_key") then 0 else if Mentions(args, "apikey") then 1
               else if Mentions(args, "access_token") then 2 else if Mentions(args, "password") then 3
               else if Mentions(args, "secret") then 4 else 5;
      MentionMarks(args, m);
    }
  }

  // --------------------------------------------------------------- when a request is admitted

  /** Requests counted since the last successful start: those admitted and those refused for what they mention. */
  ghost function Counted(l: Session, ops: seq<Op>): nat {
    if ops == [] then 0
    else
      var j := |ops| - 1;
      if ops[j].Start? && Answer(l, ops, j).Ok? then 0
      else Counted(l, ops[..j]) + (if ops[j].Admit? && IsCounted(Answer(l, ops, j)) then 1 else 0)
  }

  predicate IsCounted(r: Result<(), Failure>) {
    r.Ok? || r.error == Contract(SensitiveInlinePayload)
  }

  lemma CountedStep(l: Session, s: State, op: Op)
    requires Sound(l, s) && l.hostRequestsPerMinute <= 10_000 && Step(l, s, op).0.phase == Running
    ensures var (after, r) := Step(l, s, op);
      if op.Start? && r.Ok? then after.requests == 0
      else s.phase == Running && after.requests == s.requests + if op.Admit? && IsCounted(r) then 1 else 0
  {
    if op.Admit? { RequestMeans(op.request); }
  }

  /** A running kernel knows how many requests it has counted. */
  lemma {:induction false} CountedExact(l: Session, ops: seq<Op>)
    requires l.hostRequestsPerMinute <= 10_000 && Run(l, ops).phase == Running
    ensures Run(l, ops).requests == Counted(l, ops)
  {
    if ops != [] {
      var front, op := ops[..|ops| - 1], ops[|ops| - 1];
      EveryRunIsSound(l, front);
      CountedStep(l, Run(l, front), op);
      if Run(l, front).phase == Running { CountedExact(l, front); }
    }
  }

  /** The request comes within the lifetime of the running stretch and within the idle time of the latest activity. */
  predicate InTime(l: Session, now: nat, started: nat, active: nat) {
    now <= started + l.lifetimeTimeoutMs && now <= active + l.idleTimeoutMs
  }

  /** What the kernel answers to a request, and what that does to it. */
  ghost predicate Judged(l: Session, ops: seq<Op>, j: nat, inTime: bool)
    requires j < |ops| && ops[j].Admit?
  {
    var r, answer, s, after := ops[j].request, Answer(l, ops, j), Run(l, ops[..j]), Run(l, ops[..j + 1]);
    var room := Counted(l, ops[..j]) < l.hostRequestsPerMinute;
    if !GoodRequest(r) then answer.Err? && answer.error.Contract? && !IsCounted(answer) && after == s
    else if s.phase != Running then answer == Err(NotRunning) && after == s
    else if !inTime then answer == Err(Time) && after.phase == OverLimit && after.objects == map[]
    else if !room then answer == Err(RequestRate) && after.phase == OverLimit && after.objects == map[]
    else if MentionsSecret(r.args)
    then answer == Err(Contract(SensitiveInlinePayload)) && after == s.(requests := after.requests)
    else answer == Ok(()) && after == s.(requests := after.requests, lastActivity := Some(ops[j].now))
  }

  lemma JudgedStep(l: Session, ops: seq<Op>, j: nat)
    requires l.hostRequestsPerMinute <= 10_000 && j < |ops| && ops[j].Admit?
    ensures var s := Run(l, ops[..j]);
      && (s.phase == Running ==> s.startedAt.Some? && s.lastActivity.Some?)
      && Judged(l, ops, j, s.phase == Running && InTime(l, ops[j].now, s.startedAt.value, s.lastActivity.value))
  {
    var s := Run(l, ops[..j]);
    RunStep(l, ops, j);
    EveryRunIsSound(l, ops[..j]);
    RequestMeans(ops[j].request);
    MarkerMeans(ops[j].request.args);
    if s.phase == Running { CountedExact(l, ops[..j]); }
  }

  /** A request is admitted if and only if it is well-formed, the kernel runs, it comes in time after the start and
      after the latest activity, fewer requests than the limit have been counted since the start, and its bytes mention
      no secret; every other answer is the first of these that fails. */
  lemma AdmittedExactly(l: Session, ops: seq<Op>, j: nat) returns (first: nat, last: nat)
    requires ValidSession(l) && j < |ops| && ops[j].Admit?
    ensures Run(l, ops[..j]).phase == Running ==> StartOf(l, ops, first, j) && ActivityBefore(l, ops, last, j)
    ensures var inTime := Run(l, ops[..j]).phase == Running && InTime(l, ops[j].now, ops[first].now, ops[last].now);
      && Judged(l, ops, j, inTime)
      && (Answer(l, ops, j).Ok? <==>
            && GoodRequest(ops[j].request) && Run(l, ops[..j]).phase == Running && inTime
            && Counted(l, ops[..j]) < l.hostRequestsPerMinute && !MentionsSecret(ops[j].request.args))
  {
    first, last := j, j;
    JudgedStep(l, ops, j);
    if Run(l, ops[..j]).phase == Running {
      assert j > 0;
      first, last := RunningSince(l, ops, j);
    }
  }

  /** Only a start, an admission, a reset or a crash moves the time of the latest activity. */
  lemma ActivityMoves(l: Session, ops: seq<Op>, j: nat)
    requires j < |ops| && Run(l, ops[..j + 1]).lastActivity != Run(l, ops[..j]).lastActivity
    ensures ops[j].Reset? || ops[j].MarkCrashed? || Active(l, ops, j)
  {
    RunStep(l, ops, j);
  }

  /** A start succeeds exactly in a fresh, stopped or reset kernel, and begins a new count; stop, reset and crash always
      succeed and leave no object, and only a stop keeps the times and the count. */
  lemma LifecycleExactly(l: Session, ops: seq<Op>, j: nat)
    requires j < |ops|
    ensures var s, after := Run(l, ops[..j]), Run(l, ops[..j + 1]);
      && (ops[j].Start? ==>
            && (Answer(l, ops, j).Ok? <==> s.phase !in {Running, Crashed, OverLimit})
            && after == (if Answer(l, ops, j).Err? then s
                         else State(Running, Some(ops[j].now), Some(ops[j].now), 0, map[])))
      && (ops[j].Stop? || ops[j].Reset? || ops[j].MarkCrashed? ==> Answer(l, ops, j).Ok? && after.objects == map[])
      && (ops[j].Stop? ==> after.phase == Stopped && after.startedAt == s.startedAt && after.requests == s.requests)
      && (ops[j].Reset? ==> after == NEW.(phase := WasReset))
      && (ops[j].MarkCrashed? ==> after.phase == Crashed && after.startedAt.None? && after.lastActivity.None?)
  {
    RunStep(l, ops, j);
    EveryRunIsSound(l, ops[..j]);
  }

  /** An output is accepted exactly if it is within both limits, in any phase; otherwise the run is over. */
  lemma OutputAcceptedExactly(l: Session, ops: seq<Op>, j: nat)
    requires j < |ops| && ops[j].AcceptOutput?
    ensures Answer(l, ops, j).Ok? <==> ops[j].size <= l.outputBytes && ops[j].size <= 1_048_576
    ensures var s, after := Run(l, ops[..j]), Run(l, ops[..j + 1]);
      if Answer(l, ops, j).Ok? then after == s else after == s.(phase := OverLimit, objects := map[])
  {
    RunStep(l, ops, j);
  }

  // ------------------------------------------------------------------ refused but held

  /** The object named by a put has its value. */
  predicate Holds(m: Objects, op: Op)
    requires op.Put?
  {
    op.name in m && m[op.name] == op.value
  }

  ghost predicate Fits(l: Session, m: Objects, op: Op)
    requires op.Put?
  {
    var after := m[op.name := op.value];
    |after| <= l.objectCount && Bytes(after) <= l.objectBytes
  }

  /** A put is refused exactly if the kernel does not run, the value does not fit or the reference to it is invalid;
      and a refused put leaves its value held, unless it was held before, exactly if only the reference is at fault. */
  lemma RefusedPutIsHeld(l: Session, ops: seq<Op>, j: nat)
    requires j < |ops| && ops[j].Put?
    ensures var s, after := Run(l, ops[..j]), Run(l, ops[..j + 1]);
      var stores, invalid := s.phase == Running && Fits(l, s.objects, ops[j]), !GoodReference(l.id, ops[j]);
      && (Answer(l, ops, j).Err? <==> !stores || invalid)
      && (Answer(l, ops, j).Err? ==> (Holds(after.objects, ops[j]) <==> Holds(s.objects, ops[j]) || stores))
  {
    RunStep(l, ops, j);
    ReferenceMeans(l.id, ops[j]);
    EveryRunIsSound(l, ops[..j]);
    StoredIfItFits(l, Run(l, ops[..j]).objects, ops[j].name, ops[j].value);
  }

  /** A first put of one byte, marked as a secret. */
  const SECRET_PUT: seq<Op> := [Start(0), Put("key", "bytes", [7], Secret, 1)]

  lemma OneByteFits(l: Session)
    requires ValidSession(l)
    ensures PutFailure(l, map[], "key", [7]).None?
  {
    assert Bytes(map[]) == 0;
  }

  /** Under every valid session a secret is refused, but held all the same. */
  lemma RefusedSecretIsHeld(l: Session)
    requires ValidSession(l)
    ensures Answer(l, SECRET_PUT, 1).Err? && Run(l, SECRET_PUT).objects == map["key" := [7]]
  {
    var ops := SECRET_PUT;
    assert ops[..0] == [] && ops[..2] == ops;
    RunStep(l, ops, 0);
    RunStep(l, ops, 1);
    OneByteFits(l);
  }
}
