/**
 `HandshakeVerifier`: single-use, time-bounded nonces and the proof that binds a client to one
 (crates/desktop-ipc/src/session.rs).
 */
module Handshake {
  import opened Machine
  import opened Texts

  const MAX_NONCE_TTL_MS: u64 := 300_000
  const MAX_IDENTIFIER_CHARS: nat := 128
  const MAX_CAPABILITIES: nat := 64
  const SECRET_BYTES: nat := 32
  const PIPE_PREFIX: string := "\\\\.\\pipe\\"
  const ALLOWED_CLIENT_ROLES: seq<string> := ["shell", "listener", "cli"]

  datatype AuthNonce = AuthNonce(value: string, expiresAtMs: u64)

  datatype PeerIdentity = PeerIdentity(userSid: string, logonSession: string)

  /** What the supervisor hands to Core; `mac` is the hash keyed with its secret. */
  datatype LaunchContext = LaunchContext(
    pipeName: string, secret: string, expectedUserSid: string, expectedLogonSession: string,
    supervisorLivenessEvent: string, supervisorPipeName: Option<string>, supervisorSecret: Option<string>,
    mac: string -> string)

  datatype SessionError = InvalidIdentifier | MalformedValue | InvalidTtl

  datatype HandshakeRequest = HandshakeRequest(
    protocolMajor: u32, clientId: string, clientRole: string, nonce: string, proof: string,
    capabilities: seq<string>, peer: PeerIdentity)

  datatype Rejection =
    | NonceUnavailable | MajorMismatch | MalformedIdentity | UnknownRole | UnboundedCapabilities
    | NonceExpired | NonceMismatch | IdentityMismatch | ProofMismatch

  datatype Verified = Verified(clientId: string, clientRole: string)

  // ----------------------------------------------------------- comparing in constant time

  /** `constant_time_eq` on the bytes: no early exit, and exactly equality. */
  method ConstantTimeEq(left: seq<bv8>, right: seq<bv8>) returns (equal: bool)
    ensures equal <==> left == right
  {
    if |left| != |right| { return false; }
    var difference: bv8 := 0;
    for i := 0 to |left|
      invariant difference == 0 <==> left[..i] == right[..i]
    {
      assert left[..i + 1] == left[..i] + [left[i]] && right[..i + 1] == right[..i] + [right[i]];
      OrZero(difference, left[i] ^ right[i]);
      XorZero(left[i], right[i]);
      difference := difference | (left[i] ^ right[i]);
      if left[..i] == right[..i] && left[i] == right[i] {
      } else {
        PrefixDiffers(left, right, i);
      }
    }
    assert left[..|left|] == left && right[..|right|] == right;
    return difference == 0;
  }

  lemma OrZero(a: bv8, b: bv8)
    ensures a | b == 0 <==> a == 0 && b == 0
  {
  }

  lemma XorZero(a: bv8, b: bv8)
    ensures a ^ b == 0 <==> a == b
  {
  }

  lemma PrefixDiffers(left: seq<bv8>, right: seq<bv8>, i: nat)
    requires i < |left| && i < |right|
    requires left[..i] != right[..i] || left[i] != right[i]
    ensures left[..i + 1] != right[..i + 1]
  {
    assert left[..i + 1][..i] == left[..i] && right[..i + 1][..i] == right[..i];
    assert left[..i + 1][i] == left[i] && right[..i + 1][i] == right[i];
  }

  // ------------------------------------------------------------------ the proof message

  function Message(role: string, clientId: string, nonce: string): string {
    role + ['\n'] + clientId + ['\n'] + nonce
  }

  predicate IsIdentifier(id: string) {
    id != "" && |id| <= MAX_IDENTIFIER_CHARS && forall i :: 0 <= i < |id| ==> !IsControl(id[i])
  }

  /** For roles and client ids that verification lets through, the message says which role, client and nonce it is
      for. */
  lemma MessageIdentifies(role: string, id: string, nonce: string, role': string, id': string, nonce': string)
    requires role in ALLOWED_CLIENT_ROLES && role' in ALLOWED_CLIENT_ROLES && IsIdentifier(id) && IsIdentifier(id')
    requires Message(role, id, nonce) == Message(role', id', nonce')
    ensures role == role' && id == id' && nonce == nonce'
  {
    RoleHasNoNewline(role);
    RoleHasNoNewline(role');
    var x, y := id + ['\n'] + nonce, id' + ['\n'] + nonce';
    assert Message(role, id, nonce) == role + ['\n'] + x && Message(role', id', nonce') == role' + ['\n'] + y;
    FirstMark('\n', role, role', x, y);
    FirstMark('\n', id, id', nonce, nonce');
  }

  lemma RoleHasNoNewline(role: string)
    requires role in ALLOWED_CLIENT_ROLES
    ensures '\n' !in role
  {
  }

  // ------------------------------------------------------------------ the verifier

  function Proof(context: LaunchContext, role: string, clientId: string, nonce: string): string {
    context.mac(Message(role, clientId, nonce))
  }

  /** The checks of `verify` on a nonce that was taken, in their order. */
  function Check(context: LaunchContext, issued: AuthNonce, request: HandshakeRequest,
                 now: u64): Result<Verified, Rejection>
  {
    if request.protocolMajor != 1 then Err(MajorMismatch)
    else if !IsIdentifier(request.clientId) then Err(MalformedIdentity)
    else if request.clientRole !in ALLOWED_CLIENT_ROLES then Err(UnknownRole)
    else if |request.capabilities| > MAX_CAPABILITIES then Err(UnboundedCapabilities)
    else if now > issued.expiresAtMs then Err(NonceExpired)
    else if request.nonce != issued.value then Err(NonceMismatch)
    else if context.expectedUserSid != "" && request.peer.userSid == "" then Err(MalformedIdentity)
    else if context.expectedUserSid != "" && request.peer.userSid != context.expectedUserSid then Err(IdentityMismatch)
    else if context.expectedUserSid != "" && context.expectedLogonSession != ""
            && request.peer.logonSession != context.expectedLogonSession
      then Err(IdentityMismatch)
    else if request.proof != Proof(context, request.clientRole, request.clientId, issued.value) then Err(ProofMismatch)
    else Ok(Verified(request.clientId, request.clientRole))
  }

  function VerifyResult(context: LaunchContext, issued: Option<AuthNonce>, request: HandshakeRequest,
                        now: u64): Result<Verified, Rejection>
  {
    if issued.None? then Err(NonceUnavailable) else Check(context, issued.value, request, now)
  }

  class HandshakeVerifier {
    const context: LaunchContext
    const nonceTtlMs: u64
    var issued: Option<AuthNonce>

    constructor (context: LaunchContext, nonceTtlMs: u64)
      requires 0 < nonceTtlMs <= MAX_NONCE_TTL_MS
      ensures this.context == context && this.nonceTtlMs == nonceTtlMs && issued == None
    {
      this.context, this.nonceTtlMs, issued := context, nonceTtlMs, None;
    }

    /** Issues `value` for a new connection and forgets any unanswered nonce. */
    method IssueNonce(value: string, now: u64) returns (nonce: AuthNonce)
      modifies this`issued
      ensures issued == Some(nonce) && nonce == AuthNonce(value, SatAdd64(now, nonceTtlMs))
    {
      nonce := AuthNonce(value, SatAdd64(now, nonceTtlMs));
      issued := Some(nonce);
    }

    /** Takes the nonce first, so that no outcome leaves it usable. */
    method Verify(request: HandshakeRequest, now: u64) returns (r: Result<Verified, Rejection>)
      modifies this`issued
      ensures issued == None
      ensures r == VerifyResult(context, old(issued), request, now)
    {
      var taken := issued;
      issued := None;
      if taken.None? { return Err(NonceUnavailable); }
      return Check(context, taken.value, request, now);
    }
  }

  // ------------------------------------------------------------------ the launch context

  predicate InPipeName(c: char) {
    IsAlphanumeric(c) || c == '-' || c == '_'
  }

  /** `validate_pipe_name`. */
  predicate IsPipeName(s: string) {
    && PIPE_PREFIX <= s && 1 <= |s| - |PIPE_PREFIX| <= MAX_IDENTIFIER_CHARS
    && forall i :: |PIPE_PREFIX| <= i < |s| ==> InPipeName(s[i])
  }

  /** `SessionSecret::parse`. */
  predicate IsSecret(s: string) {
    |s| == 2 * SECRET_BYTES && forall i :: 0 <= i < |s| ==> IsHexDigit(s[i])
  }

  /** The name of the liveness event: empty, or bounded and made of safe characters. */
  predicate IsEventName(s: string) {
    |s| <= MAX_IDENTIFIER_CHARS && forall i :: 0 <= i < |s| ==> InPipeName(s[i]) || s[i] == '.' || s[i] == '\\'
  }

  /** `LaunchContext::validate`, in the order of its checks. */
  function ContextError(c: LaunchContext): Option<SessionError> {
    if !IsPipeName(c.pipeName) then Some(InvalidIdentifier)
    else if !IsSecret(c.secret) then Some(MalformedValue)
    else if |c.expectedUserSid| > MAX_IDENTIFIER_CHARS || |c.expectedLogonSession| > MAX_IDENTIFIER_CHARS
        then Some(InvalidIdentifier)
    else if !IsEventName(c.supervisorLivenessEvent) then Some(InvalidIdentifier)
    else if c.supervisorPipeName.Some? && !IsPipeName(c.supervisorPipeName.value) then Some(InvalidIdentifier)
    else if c.supervisorSecret.Some? && !IsSecret(c.supervisorSecret.value) then Some(MalformedValue)
    else None
  }

  /** `HandshakeVerifier::new`: the context must be valid and the lifetime of a nonce bounded. */
  method NewVerifier(context: LaunchContext, nonceTtlMs: u64) returns (r: Result<HandshakeVerifier, SessionError>)
    ensures r.Ok? <==> ContextError(context).None? && 0 < nonceTtlMs <= MAX_NONCE_TTL_MS
    ensures r.Err? ==> r.error == if ContextError(context).Some? then ContextError(context).value else InvalidTtl
    ensures r.Ok? ==> fresh(r.value) && r.value.issued == None
    ensures r.Ok? ==> r.value.context == context && r.value.nonceTtlMs == nonceTtlMs
  {
    var error := ContextError(context);
    if error.Some? { return Err(error.value); }
    if nonceTtlMs == 0 || nonceTtlMs > MAX_NONCE_TTL_MS { return Err(InvalidTtl); }
    var verifier := new HandshakeVerifier(context, nonceTtlMs);
    return Ok(verifier);
  }

  // ------------------------------------------------------------------ what verification means

  /** A peer passes in a context that expects nobody in particular, or as the expected user in the expected session. */
  predicate PeerMatches(context: LaunchContext, peer: PeerIdentity) {
    context.expectedUserSid != "" ==>
      peer.userSid == context.expectedUserSid
      && (context.expectedLogonSession != "" ==> peer.logonSession == context.expectedLogonSession)
  }

  /** One to 128 characters, none of them a control character. */
  predicate IsCleanName(s: string) {
    1 <= |s| <= 128 && forall c :: c in s ==> ' ' <= c && !('\U{007F}' <= c <= '\U{009F}')
  }

  lemma IdentifierMeans(s: string)
    ensures IsIdentifier(s) <==> IsCleanName(s)
  {
    if IsCleanName(s) {
      forall i | 0 <= i < |s| ensures !IsControl(s[i]) { assert s[i] in s; }
    }
  }

  predicate IsKnownRole(role: string) {
    role == "shell" || role == "listener" || role == "cli"
  }

  lemma RoleMeans(role: string)
    ensures role in ALLOWED_CLIENT_ROLES <==> IsKnownRole(role)
  {
    if IsKnownRole(role) {
      assert ALLOWED_CLIENT_ROLES[0] == "shell" && ALLOWED_CLIENT_ROLES[1] == "listener";
      assert ALLOWED_CLIENT_ROLES[2] == "cli";
    }
  }

  /** The proof is the keyed hash of role, client and nonce on three lines. */
  predicate IsProven(context: LaunchContext, request: HandshakeRequest, nonce: string) {
    request.proof == context.mac(request.clientRole + "\n" + request.clientId + "\n" + nonce)
  }

  /** A handshake is accepted if and only if it answers a pending nonce in time, in form, from the right peer and with
      the right proof. */
  lemma AcceptedExactly(context: LaunchContext, issued: Option<AuthNonce>, request: HandshakeRequest, now: u64)
    ensures VerifyResult(context, issued, request, now).Ok? <==>
      && issued.Some? && now <= issued.value.expiresAtMs && request.nonce == issued.value.value
      && request.protocolMajor == 1 && IsCleanName(request.clientId) && IsKnownRole(request.clientRole)
      && |request.capabilities| <= 64 && PeerMatches(context, request.peer)
      && IsProven(context, request, request.nonce)
    ensures VerifyResult(context, issued, request, now).Ok? ==>
      VerifyResult(context, issued, request, now).value == Verified(request.clientId, request.clientRole)
  {
    IdentifierMeans(request.clientId);
    RoleMeans(request.clientRole);
  }

  /** Every other handshake is rejected for the first thing that is wrong with it. */
  lemma RejectedExactly(context: LaunchContext, issued: Option<AuthNonce>, request: HandshakeRequest, now: u64)
    ensures var r := VerifyResult(context, issued, request, now);
      if issued.None? then r == Err(NonceUnavailable)
      else if request.protocolMajor != 1 then r == Err(MajorMismatch)
      else if !IsCleanName(request.clientId) then r == Err(MalformedIdentity)
      else if !IsKnownRole(request.clientRole) then r == Err(UnknownRole)
      else if |request.capabilities| > 64 then r == Err(UnboundedCapabilities)
      else if now > issued.value.expiresAtMs then r == Err(NonceExpired)
      else if request.nonce != issued.value.value then r == Err(NonceMismatch)
      else if !PeerMatches(context, request.peer)
      then r == Err(if request.peer.userSid == "" then MalformedIdentity else IdentityMismatch)
      else r.Ok? || r == Err(ProofMismatch)
  {
    IdentifierMeans(request.clientId);
    RoleMeans(request.clientRole);
  }

  // -------------------------------------------------------------------- whole runs

  /** An issue may fail for want of randomness; then nothing changes. */
  datatype Op = Issue(value: string, at: u64) | IssueFails | Verify(request: HandshakeRequest, at: u64)

  datatype Config = Config(context: LaunchContext, ttl: u64)

  /** The pending nonce after a run. */
  function Pending(c: Config, ops: seq<Op>): Option<AuthNonce> {
    if ops == [] then None
    else match ops[|ops| - 1]
      case Issue(value, at) => Some(AuthNonce(value, SatAdd64(at, c.ttl)))
      case IssueFails => Pending(c, ops[..|ops| - 1])
      case Verify(_, _) => None
  }

  predicate Accepted(c: Config, ops: seq<Op>, j: nat)
    requires j < |ops|
  {
    ops[j].Verify? && VerifyResult(c.context, Pending(c, ops[..j]), ops[j].request, ops[j].at).Ok?
  }

  /** Operation `i` issued the nonce that operation `j` may answer: no other issue and no verification came in
      between. */
  ghost predicate Standing(ops: seq<Op>, i: nat, j: nat) {
    i < j <= |ops| && ops[i].Issue? && forall k :: i < k < j ==> ops[k].IssueFails?
  }

  lemma {:induction false} PendingWasIssued(c: Config, ops: seq<Op>, j: nat) returns (i: nat)
    requires j <= |ops| && Pending(c, ops[..j]).Some?
    ensures Standing(ops, i, j) && Pending(c, ops[..j]) == Some(AuthNonce(ops[i].value, SatAdd64(ops[i].at, c.ttl)))
  {
    assert ops[..j][..j - 1] == ops[..j - 1] && ops[..j][j - 1] == ops[j - 1];
    if ops[j - 1].Issue? { i := j - 1; } else { i := PendingWasIssued(c, ops, j - 1); }
  }

  /** What an acceptance proves about the issue it answers. */
  ghost predicate Answers(c: Config, ops: seq<Op>, i: nat, j: nat) {
    && Standing(ops, i, j) && j < |ops| && ops[j].Verify?
    && ops[j].request.nonce == ops[i].value && ops[j].at <= SatAdd64(ops[i].at, c.ttl)
    && ops[j].request.proof == Proof(c.context, ops[j].request.clientRole, ops[j].request.clientId, ops[i].value)
    && IsIdentifier(ops[j].request.clientId) && ops[j].request.clientRole in ALLOWED_CLIENT_ROLES
  }

  /** Every acceptance answers the latest issue, with no other verification in between and within the lifetime of the
      nonce, and its proof covers that nonce, the role and the client id. */
  lemma AcceptedAnswersIssue(c: Config, ops: seq<Op>, j: nat) returns (i: nat)
    requires j < |ops| && Accepted(c, ops, j)
    ensures Answers(c, ops, i, j)
  {
    i := PendingWasIssued(c, ops, j);
  }

  /** Two acceptances answer two different issues. */
  lemma AcceptancesAreOneToOne(c: Config, ops: seq<Op>, j: nat, j': nat) returns (i: nat, i': nat)
    requires j < j' < |ops| && Accepted(c, ops, j) && Accepted(c, ops, j')
    ensures Answers(c, ops, i, j) && Answers(c, ops, i', j') && i < j < i' < j'
  {
    i := AcceptedAnswersIssue(c, ops, j);
    i' := AcceptedAnswersIssue(c, ops, j');
  }

  /** If issued values are never repeated, a nonce that was accepted once is never accepted again. */
  lemma NonceIsSingleUse(c: Config, ops: seq<Op>, j: nat, j': nat)
    requires j < j' < |ops| && Accepted(c, ops, j) && Accepted(c, ops, j')
    requires forall a, b :: 0 <= a < b < |ops| && ops[a].Issue? && ops[b].Issue? ==> ops[a].value != ops[b].value
    ensures ops[j].request.nonce != ops[j'].request.nonce
  {
    var i, i' := AcceptancesAreOneToOne(c, ops, j, j');
  }

  /** With a keyed hash without collisions, a proof accepted for one client cannot pass for another role, client or
      nonce. */
  lemma ProofBinds(c: Config, ops: seq<Op>, j: nat, j': nat)
    requires j < |ops| && j' < |ops| && Accepted(c, ops, j) && Accepted(c, ops, j')
    requires forall m, n :: c.context.mac(m) == c.context.mac(n) ==> m == n
    requires ops[j].request.proof == ops[j'].request.proof
    ensures ops[j].request.clientRole == ops[j'].request.clientRole
    ensures ops[j].request.clientId == ops[j'].request.clientId
    ensures ops[j].request.nonce == ops[j'].request.nonce
  {
    var i := AcceptedAnswersIssue(c, ops, j);
    var i' := AcceptedAnswersIssue(c, ops, j');
    var a, b := ops[j].request, ops[j'].request;
    MessageIdentifies(a.clientRole, a.clientId, a.nonce, b.clientRole, b.clientId, b.nonce);
  }
}
