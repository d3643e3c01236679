/** Both ends of the login together: the client's answer to the server's challenge. */
module Handshake {
  import opened Protocol
  import opened Codec
  import opened Payload
  import opened Login
  import opened Identity

  /** A key pair whose own signatures verify. */
  ghost predicate SignsCorrectly(ed: Ed25519, seed: Bytes32) {
    && ed.isValidKey(ed.publicKey(seed))
    && forall m :: ed.verifyStrict(ed.publicKey(seed), m, ed.sign(seed, m))
  }

  /** A signature that no one can pass off as one for a different payload. */
  ghost predicate Binds(ed: Ed25519, signature: Bytes64) {
    forall key, key', m, m' :: ed.verifyStrict(key, m, signature) && ed.verifyStrict(key', m', signature) ==> m == m'
  }

  lemma VerifiesExactly(ed: Ed25519, claims: Claims, signature: Bytes64)
    ensures VerifySignature(ed, claims, Base64Encode(signature)).Ok? <==>
      && ed.isValidKey(claims.clientUid.bytes)
      && ed.verifyStrict(claims.clientUid.bytes, AuthSignaturePayload(claims), signature)
  {
    DecodeOfEncode(signature);
  }

  /** An answer is good for one challenge only: accepted for two, they agree in version, nonce, timestamp and key. */
  lemma AnswersAreNotTransferable(ed: Ed25519, a: Claims, b: Claims, signatureBase64: string)
    requires forall signature: Bytes64 :: Base64Decode(signatureBase64) == Some(signature) ==> Binds(ed, signature)
    requires VerifySignature(ed, a, signatureBase64).Ok? && VerifySignature(ed, b, signatureBase64).Ok?
    ensures a == b
  {
    var signature: Bytes64 := Base64Decode(signatureBase64).value;
    assert Binds(ed, signature);
    PayloadIsInjective(a, b);
  }

  /** A client's signature is good for the challenge it was made for, whatever its version, and for no other. */
  lemma SignaturesAreForTheirClaims(ed: Ed25519, seed: Bytes32, version: U16, nonce: Bytes32, timestamp: U64, claims: Claims)
    requires SignsCorrectly(ed, seed)
    requires Binds(ed, ed.sign(seed, AuthSignaturePayload(
                         Claims(version, nonce, timestamp, UserUid(ed.publicKey(seed))))))
    ensures var signed := SignWithSeed(ed, seed, version, Base64Encode(nonce), timestamp);
            && signed.Ok?
            && (VerifySignature(ed, claims, signed.value).Ok?
                <==> claims == Claims(version, nonce, timestamp, UserUid(ed.publicKey(seed))))
  {
    var own := Claims(version, nonce, timestamp, UserUid(ed.publicKey(seed)));
    var signature := ed.sign(seed, AuthSignaturePayload(own));
    DecodeOfEncode(nonce);
    VerifiesExactly(ed, own, signature);
    VerifiesExactly(ed, claims, signature);
    if VerifySignature(ed, claims, Base64Encode(signature)).Ok? {
      PayloadIsInjective(claims, own);
    }
  }

  /** The whole exchange: the client identifies itself at `issued`, is sent a challenge, signs the timestamp
      as it saw it, and the server handles the answer at `answered`. */
  function Exchange(
    ed: Ed25519, seed: Bytes32, nonce: Bytes32, timestamp: U64, seen: U64, issued: nat, answered: nat,
    spareNonce: Bytes32, spareTimestamp: U64): Turned
  {
    var identify := AuthIdentify(PROTOCOL_VERSION, UserUid(ed.publicKey(seed)));
    var challenged := Turn(ed, Connected, AuthInput(identify, nonce, timestamp, issued));
    if challenged.reply.AuthChallenge? then
      var signature := SignWithSeed(ed, seed, PROTOCOL_VERSION, challenged.reply.nonceBase64, seen);
      if signature.Ok? then
        Turn(ed, challenged.state, AuthInput(AuthResponse(signature.value), spareNonce, spareTimestamp, answered))
      else challenged
    else challenged
  }

  lemma ExchangeSigns(
    ed: Ed25519, seed: Bytes32, nonce: Bytes32, timestamp: U64, seen: U64, issued: nat, answered: nat,
    spareNonce: Bytes32, spareTimestamp: U64)
    ensures var uid := UserUid(ed.publicKey(seed));
            var server := PendingChallenge(Claims(PROTOCOL_VERSION, nonce, timestamp, uid), issued);
            var signed := AuthSignaturePayload(Claims(PROTOCOL_VERSION, nonce, seen, uid));
            var answer := AuthResponse(Base64Encode(ed.sign(seed, signed)));
            Exchange(ed, seed, nonce, timestamp, seen, issued, answered, spareNonce, spareTimestamp)
            == Turn(ed, ChallengeIssued(server), AuthInput(answer, spareNonce, spareTimestamp, answered))
  {
    DecodeOfEncode(nonce);
  }

  /** The login completes exactly when the answer is in time and the client saw the timestamp the server sent;
      it then yields the client's own identity. Late answers are told so, wrong ones only that they are wrong. */
  lemma HandshakeCompletesExactly(
    ed: Ed25519, seed: Bytes32, nonce: Bytes32, timestamp: U64, seen: U64, issued: nat, answered: nat,
    spareNonce: Bytes32, spareTimestamp: U64)
    requires SignsCorrectly(ed, seed)
    requires var uid := UserUid(ed.publicKey(seed));
             Binds(ed, ed.sign(seed, AuthSignaturePayload(Claims(PROTOCOL_VERSION, nonce, seen, uid))))
    ensures var uid := UserUid(ed.publicKey(seed));
            var turned := Exchange(ed, seed, nonce, timestamp, seen, issued, answered, spareNonce, spareTimestamp);
            && turned.reply ==
               (if answered > issued + 5_000_000_000 then AuthFailure(RequestExpired)
                else if seen == timestamp then AuthSuccess(uid, DefaultDisplayName(uid), SERVER_NAME)
                else AuthFailure(InvalidCredentials))
            && (turned.session.Some? <==> turned.reply.AuthSuccess?)
            && (turned.session.Some? ==> turned.session.value.userUid == uid)
  {
    var uid := UserUid(ed.publicKey(seed));
    var server := Claims(PROTOCOL_VERSION, nonce, timestamp, uid);
    var client := Claims(PROTOCOL_VERSION, nonce, seen, uid);
    var signature := ed.sign(seed, AuthSignaturePayload(client));
    ExchangeSigns(ed, seed, nonce, timestamp, seen, issued, answered, spareNonce, spareTimestamp);
    VerifiesExactly(ed, server, signature);
    if ed.verifyStrict(uid.bytes, AuthSignaturePayload(server), signature) {
      assert ed.verifyStrict(uid.bytes, AuthSignaturePayload(client), signature);
      PayloadIsInjective(server, client);
    }
  }

  /** JavaScript numbers are exact below 2^53, so every challenge with such a timestamp can be answered. */
  lemma HandshakeSurvivesJavaScript(
    ed: Ed25519, seed: Bytes32, nonce: Bytes32, timestamp: U64, throughNumber: U64 -> U64, issued: nat, answered: nat,
    spareNonce: Bytes32, spareTimestamp: U64)
    requires SignsCorrectly(ed, seed)
    requires forall t: U64 :: t < 0x20_0000_0000_0000 ==> throughNumber(t) == t
    requires timestamp < 0x20_0000_0000_0000
    requires answered <= issued + 5_000_000_000
    ensures var turned := Exchange(ed, seed, nonce, timestamp, throughNumber(timestamp), issued, answered,
                                   spareNonce, spareTimestamp);
            turned.session.Some? && turned.session.value.userUid == UserUid(ed.publicKey(seed))
  {
    var claims := Claims(PROTOCOL_VERSION, nonce, timestamp, UserUid(ed.publicKey(seed)));
    ExchangeSigns(ed, seed, nonce, timestamp, timestamp, issued, answered, spareNonce, spareTimestamp);
    VerifiesExactly(ed, claims, ed.sign(seed, AuthSignaturePayload(claims)));
  }
}
