/** The login state machine of one connection (server/src/auth.rs): challenge, response, session. */
module Login {
  import opened Protocol
  import opened Codec
  import opened Payload
  import opened Rooms

  /** An Ed25519 implementation (RFC 8032) as a black box: keys come from 32-byte seeds. */
  datatype Ed25519 = Ed25519(
    publicKey: Bytes32 -> Bytes32,
    sign: (Bytes32, seq<Byte>) -> Bytes64,
    isValidKey: Bytes32 -> bool,
    verifyStrict: (Bytes32, seq<Byte>, Bytes64) -> bool)

  /** Five seconds, on a clock that counts nanoseconds. */
  const AUTH_CHALLENGE_TTL: nat := 5_000_000_000

  datatype PendingChallenge = PendingChallenge(claims: Claims, issuedAt: nat)

  datatype AuthenticationState =
    | Connected
    | ChallengeIssued(challenge: PendingChallenge)
    | Authenticated(session: SessionData)

  datatype SignatureVerificationError = NotBase64 | InvalidSignatureLength | InvalidPublicKey | SignatureMismatch

  datatype AuthenticationResult = Reply(message: ServerMessage) | Granted(message: ServerMessage)

  /** One message with what the server drew and read off its clocks for it. */
  datatype AuthInput = AuthInput(message: ClientMessage, nonce: Bytes32, timestamp: U64, now: nat)

  /** Elapsed time; a clock that went backwards counts as no time at all. */
  function DurationSince(now: nat, earlier: nat): nat {
    if now < earlier then 0 else now - earlier
  }

  function VerifySignature(ed: Ed25519, claims: Claims, signatureBase64: string): Result<(), SignatureVerificationError> {
    var decoded := Base64Decode(signatureBase64);
    if decoded.None? then Err(NotBase64)
    else if |decoded.value| != 64 then Err(InvalidSignatureLength)
    else if !ed.isValidKey(claims.clientUid.bytes) then Err(InvalidPublicKey)
    else if !ed.verifyStrict(claims.clientUid.bytes, AuthSignaturePayload(claims), decoded.value) then Err(SignatureMismatch)
    else Ok(())
  }

  function Failure(reason: AuthFailureReason): AuthenticationResult {
    Reply(AuthFailure(reason))
  }

  function HandleMessage(ed: Ed25519, serverName: string, state: AuthenticationState, input: AuthInput)
    : (AuthenticationState, AuthenticationResult)
  {
    if state.Connected? && input.message.AuthIdentify? then
      if input.message.protocolVersion == PROTOCOL_VERSION then
        (ChallengeIssued(PendingChallenge(
           Claims(PROTOCOL_VERSION, input.nonce, input.timestamp, input.message.clientUid), input.now)),
         Reply(AuthChallenge(Base64Encode(input.nonce), input.timestamp)))
      else (state, Failure(UnsupportedProtocolVersion))
    else if state.ChallengeIssued? && input.message.AuthResponse? then
      var claims := state.challenge.claims;
      if DurationSince(input.now, state.challenge.issuedAt) > AUTH_CHALLENGE_TTL then (Connected, Failure(RequestExpired))
      else if VerifySignature(ed, claims, input.message.signatureBase64).Err? then (Connected, Failure(InvalidCredentials))
      else
        var name := DefaultDisplayName(claims.clientUid);
        (Authenticated(SessionData(claims.clientUid, name, None)),
         Granted(AuthSuccess(claims.clientUid, name, serverName)))
    else (state, Failure(InvalidCredentials))
  }

  function TakeAuthenticatedSession(state: AuthenticationState): (AuthenticationState, Option<SessionData>) {
    if state.Authenticated? then (Connected, Some(state.session)) else (state, None)
  }

  // ----- Whole conversations -----

  datatype Turned = Turned(state: AuthenticationState, reply: ServerMessage, session: Option<SessionData>)

  /** One round of a connection's login loop: handle the message, then take the session if there is one. */
  function Turn(ed: Ed25519, state: AuthenticationState, input: AuthInput): Turned {
    var (handled, result) := HandleMessage(ed, SERVER_NAME, state, input);
    var (next, session) := TakeAuthenticatedSession(handled);
    Turned(next, result.message, session)
  }

  function StateAfter(ed: Ed25519, inputs: seq<AuthInput>): AuthenticationState {
    if inputs == [] then Connected
    else Turn(ed, StateAfter(ed, inputs[..|inputs| - 1]), inputs[|inputs| - 1]).state
  }

  function ReplyTo(ed: Ed25519, inputs: seq<AuthInput>, k: nat): ServerMessage
    requires k < |inputs|
  {
    Turn(ed, StateAfter(ed, inputs[..k]), inputs[k]).reply
  }

  /** The challenge issued for input `j` is still unanswered just before input `k`. */
  ghost predicate OpenBetween(ed: Ed25519, inputs: seq<AuthInput>, j: nat, k: nat) {
    && j < k <= |inputs|
    && ReplyTo(ed, inputs, j).AuthChallenge?
    && forall i :: j < i < k ==> !inputs[i].message.AuthResponse?
  }

  /** What answering the challenge issued for an input has to prove. */
  function ChallengeOf(input: AuthInput): PendingChallenge
    requires input.message.AuthIdentify?
  {
    PendingChallenge(Claims(PROTOCOL_VERSION, input.nonce, input.timestamp, input.message.clientUid), input.now)
  }

  /** The text is a signature of these claims by the key they name. */
  ghost predicate SignedFor(ed: Ed25519, claims: Claims, text: string) {
    exists signature: Bytes64 ::
      && text == Base64Encode(signature)
      && ed.isValidKey(claims.clientUid.bytes)
      && ed.verifyStrict(claims.clientUid.bytes, AuthSignaturePayload(claims), signature)
  }

  /** An answer read no later than five seconds after its challenge was issued, and signed for it. */
  ghost predicate Accepts(ed: Ed25519, challenge: PendingChallenge, input: AuthInput) {
    && input.message.AuthResponse?
    && input.now <= challenge.issuedAt + 5_000_000_000
    && SignedFor(ed, challenge.claims, input.message.signatureBase64)
  }

  lemma VerifiesText(ed: Ed25519, claims: Claims, text: string)
    ensures VerifySignature(ed, claims, text).Ok? <==> SignedFor(ed, claims, text)
  {
    if VerifySignature(ed, claims, text).Ok? {
      var signature: Bytes64 := Base64Decode(text).value;
      Base64IsExact(text, signature);
    }
    if SignedFor(ed, claims, text) {
      var signature: Bytes64 :| text == Base64Encode(signature) && ed.isValidKey(claims.clientUid.bytes)
                                && ed.verifyStrict(claims.clientUid.bytes, AuthSignaturePayload(claims), signature);
      Base64IsExact(text, signature);
    }
  }

  lemma StateStep(ed: Ed25519, inputs: seq<AuthInput>, k: nat)
    requires k < |inputs|
    ensures StateAfter(ed, inputs[..k + 1]) == Turn(ed, StateAfter(ed, inputs[..k]), inputs[k]).state
  {
    assert inputs[..k + 1][..k] == inputs[..k];
  }

  lemma ChallengesAnswerIdentify(ed: Ed25519, inputs: seq<AuthInput>, j: nat)
    requires j < |inputs|
    ensures ReplyTo(ed, inputs, j).AuthChallenge? ==>
      inputs[j].message.AuthIdentify? && inputs[j].message.protocolVersion == PROTOCOL_VERSION
      && StateAfter(ed, inputs[..j]).Connected?
      && StateAfter(ed, inputs[..j + 1]) == ChallengeIssued(ChallengeOf(inputs[j]))
  {
    StateStep(ed, inputs, j);
  }

  /** A challenge is replaced by nothing and dropped only by a response. */
  lemma TurnKeepsChallenge(ed: Ed25519, state: AuthenticationState, input: AuthInput)
    requires !state.Authenticated?
    ensures var turned := Turn(ed, state, input);
            && !turned.state.Authenticated?
            && (turned.state.ChallengeIssued? <==>
                  turned.reply.AuthChallenge? || (state.ChallengeIssued? && !input.message.AuthResponse?))
            && (turned.state.ChallengeIssued? && !turned.reply.AuthChallenge? ==> turned.state == state)
            && (turned.reply.AuthChallenge? ==> state.Connected? && input.message.AuthIdentify?
                                                && turned.state == ChallengeIssued(ChallengeOf(input)))
  {
  }

  lemma OpenStep(ed: Ed25519, inputs: seq<AuthInput>, j: nat, k: nat)
    requires 0 < k <= |inputs|
    ensures OpenBetween(ed, inputs, j, k) <==>
      || (j == k - 1 && ReplyTo(ed, inputs, k - 1).AuthChallenge?)
      || (OpenBetween(ed, inputs, j, k - 1) && !inputs[k - 1].message.AuthResponse?)
  {
  }

  ghost predicate SomeOpen(ed: Ed25519, inputs: seq<AuthInput>, k: nat) {
    exists j: nat :: OpenBetween(ed, inputs, j, k)
  }

  /** A connection waits for an answer exactly while a challenge is open, and for exactly that challenge. */
  lemma {:induction false} OpenChallenge(ed: Ed25519, inputs: seq<AuthInput>, k: nat)
    requires k <= |inputs|
    ensures !StateAfter(ed, inputs[..k]).Authenticated?
    ensures StateAfter(ed, inputs[..k]).ChallengeIssued? <==> SomeOpen(ed, inputs, k)
    ensures forall j: nat :: OpenBetween(ed, inputs, j, k) ==>
      inputs[j].message.AuthIdentify? && StateAfter(ed, inputs[..k]) == ChallengeIssued(ChallengeOf(inputs[j]))
  {
    if k > 0 {
      var before := StateAfter(ed, inputs[..k - 1]);
      var reply := ReplyTo(ed, inputs, k - 1);
      OpenChallenge(ed, inputs, k - 1);
      StateStep(ed, inputs, k - 1);
      TurnKeepsChallenge(ed, before, inputs[k - 1]);
      if SomeOpen(ed, inputs, k - 1) {
        var j: nat :| OpenBetween(ed, inputs, j, k - 1);
        OpenStep(ed, inputs, j, k);
      }
      OpenStep(ed, inputs, k - 1, k);
      forall j: nat | OpenBetween(ed, inputs, j, k)
        ensures inputs[j].message.AuthIdentify?
        ensures StateAfter(ed, inputs[..k]) == ChallengeIssued(ChallengeOf(inputs[j]))
      {
        OpenStep(ed, inputs, j, k);
      }
    }
  }

  /** Only one challenge can be open at a time. */
  lemma OpenChallengeIsUnique(ed: Ed25519, inputs: seq<AuthInput>, j: nat, j': nat, k: nat)
    requires OpenBetween(ed, inputs, j, k) && OpenBetween(ed, inputs, j', k)
    ensures j == j'
  {
    var first, second := if j < j' then j else j', if j < j' then j' else j;
    if first < second {
      assert OpenBetween(ed, inputs, first, second);
      OpenChallenge(ed, inputs, second);
      ChallengesAnswerIdentify(ed, inputs, second);
    }
  }

  /** What a connection answers while it waits for the answer to a challenge. */
  ghost function ReplyWhenOpen(ed: Ed25519, challenge: PendingChallenge, input: AuthInput): ServerMessage {
    var uid := challenge.claims.clientUid;
    if !input.message.AuthResponse? then AuthFailure(InvalidCredentials)
    else if input.now > challenge.issuedAt + 5_000_000_000 then AuthFailure(RequestExpired)
    else if SignedFor(ed, challenge.claims, input.message.signatureBase64) then
      AuthSuccess(uid, DefaultDisplayName(uid), "VTNet")
    else AuthFailure(InvalidCredentials)
  }

  /** What it answers otherwise. */
  function ReplyWhenIdle(input: AuthInput): ServerMessage {
    if !input.message.AuthIdentify? then AuthFailure(InvalidCredentials)
    else if input.message.protocolVersion != 1 then AuthFailure(UnsupportedProtocolVersion)
    else AuthChallenge(Base64Encode(input.nonce), input.timestamp)
  }

  lemma TurnReplies(ed: Ed25519, state: AuthenticationState, input: AuthInput)
    requires !state.Authenticated?
    ensures Turn(ed, state, input).reply
         == if state.ChallengeIssued? then ReplyWhenOpen(ed, state.challenge, input) else ReplyWhenIdle(input)
  {
    if state.ChallengeIssued? && input.message.AuthResponse? {
      VerifiesText(ed, state.challenge.claims, input.message.signatureBase64);
    }
  }

  /** Every reply of every conversation: while a challenge is open, to an answer in time and signed for it a welcome, to
      a late one that it is late, to anything else a refusal; and otherwise, to an identification with the right
      version a challenge, with a wrong one that it is wrong, to anything else a refusal. */
  lemma EveryReplyExactly(ed: Ed25519, inputs: seq<AuthInput>, k: nat)
    requires k < |inputs|
    ensures forall j: nat :: OpenBetween(ed, inputs, j, k) ==>
      inputs[j].message.AuthIdentify? && ReplyTo(ed, inputs, k) == ReplyWhenOpen(ed, ChallengeOf(inputs[j]), inputs[k])
    ensures !SomeOpen(ed, inputs, k) ==> ReplyTo(ed, inputs, k) == ReplyWhenIdle(inputs[k])
  {
    OpenChallenge(ed, inputs, k);
    TurnReplies(ed, StateAfter(ed, inputs[..k]), inputs[k]);
  }

  /** A login succeeds exactly when it answers, in time and with a valid signature, the one challenge
      that is open; and it is that challenge's identity that logs in. */
  lemma LoginSucceedsExactly(ed: Ed25519, inputs: seq<AuthInput>, k: nat)
    requires k < |inputs|
    ensures ReplyTo(ed, inputs, k).AuthSuccess? <==>
      exists j: nat :: OpenBetween(ed, inputs, j, k) && inputs[j].message.AuthIdentify?
                       && Accepts(ed, ChallengeOf(inputs[j]), inputs[k])
    ensures forall j: nat :: OpenBetween(ed, inputs, j, k) && ReplyTo(ed, inputs, k).AuthSuccess? ==>
      && inputs[j].message.AuthIdentify?
      && Accepts(ed, ChallengeOf(inputs[j]), inputs[k])
      && ReplyTo(ed, inputs, j) == AuthChallenge(Base64Encode(inputs[j].nonce), inputs[j].timestamp)
      && ReplyTo(ed, inputs, k) == AuthSuccess(inputs[j].message.clientUid,
                                               DefaultDisplayName(inputs[j].message.clientUid), SERVER_NAME)
  {
    EveryReplyExactly(ed, inputs, k);
    if ReplyTo(ed, inputs, k).AuthSuccess? {
      assert SomeOpen(ed, inputs, k);
      var j: nat :| OpenBetween(ed, inputs, j, k);
      assert Accepts(ed, ChallengeOf(inputs[j]), inputs[k]);
    }
    forall j: nat | OpenBetween(ed, inputs, j, k)
      ensures ReplyTo(ed, inputs, j) == AuthChallenge(Base64Encode(inputs[j].nonce), inputs[j].timestamp)
    {
      ChallengesAnswerIdentify(ed, inputs, j);
    }
  }

  /** No challenge is good for two logins. */
  lemma ChallengesAreUsedOnce(ed: Ed25519, inputs: seq<AuthInput>, j: nat, k: nat, k': nat)
    requires k < |inputs| && k' < |inputs|
    requires OpenBetween(ed, inputs, j, k) && ReplyTo(ed, inputs, k).AuthSuccess?
    requires OpenBetween(ed, inputs, j, k') && ReplyTo(ed, inputs, k').AuthSuccess?
    ensures k == k'
  {
    LoginSucceedsExactly(ed, inputs, k);
    LoginSucceedsExactly(ed, inputs, k');
  }

  function ChallengesIssued(ed: Ed25519, inputs: seq<AuthInput>, k: nat): nat
    requires k <= |inputs|
  {
    if k == 0 then 0
    else ChallengesIssued(ed, inputs, k - 1) + if ReplyTo(ed, inputs, k - 1).AuthChallenge? then 1 else 0
  }

  /** Responses that met an open challenge, whatever came of them. */
  function ChallengesConsumed(ed: Ed25519, inputs: seq<AuthInput>, k: nat): nat
    requires k <= |inputs|
  {
    if k == 0 then 0
    else ChallengesConsumed(ed, inputs, k - 1)
         + if StateAfter(ed, inputs[..k - 1]).ChallengeIssued? && inputs[k - 1].message.AuthResponse? then 1 else 0
  }

  /** Every challenge issued has been consumed, except the one that may be open. */
  lemma {:induction false} ChallengeAccounting(ed: Ed25519, inputs: seq<AuthInput>, k: nat)
    requires k <= |inputs|
    ensures ChallengesIssued(ed, inputs, k)
         == ChallengesConsumed(ed, inputs, k) + if StateAfter(ed, inputs[..k]).ChallengeIssued? then 1 else 0
  {
    if k > 0 {
      ChallengeAccounting(ed, inputs, k - 1);
      StateStep(ed, inputs, k - 1);
      assert !StateAfter(ed, inputs[..k - 1]).Authenticated? by {
        OpenChallenge(ed, inputs, k - 1);
      }
      TurnKeepsChallenge(ed, StateAfter(ed, inputs[..k - 1]), inputs[k - 1]);
    }
  }
}
