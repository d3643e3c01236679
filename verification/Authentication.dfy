/** The authenticator object a connection keeps (server/src/auth.rs). */
module Authentication {
  import opened Protocol
  import opened Codec
  import opened Payload
  import opened Rooms
  import opened Login

  class ConnectionAuthenticator {
    const serverName: string
    var state: AuthenticationState

    constructor (serverName: string)
      ensures this.serverName == serverName && state == Connected
    {
      this.serverName := serverName;
      state := Connected;
    }

    method HandleMessage(ed: Ed25519, message: ClientMessage, nonce: Bytes32, serverTimestamp: U64, now: nat)
      returns (result: AuthenticationResult)
      modifies this`state
      ensures (state, result) == Login.HandleMessage(ed, serverName, old(state), AuthInput(message, nonce, serverTimestamp, now))
    {
      match (state, message) {
        case (Connected, AuthIdentify(protocolVersion, clientUid)) =>
          if protocolVersion == PROTOCOL_VERSION {
            state := ChallengeIssued(PendingChallenge(Claims(protocolVersion, nonce, serverTimestamp, clientUid), now));
            result := Reply(AuthChallenge(Base64Encode(nonce), serverTimestamp));
          } else {
            result := Failure(UnsupportedProtocolVersion);
          }
        case (ChallengeIssued(challenge), AuthResponse(signatureBase64)) =>
          state := Connected;
          if DurationSince(now, challenge.issuedAt) > AUTH_CHALLENGE_TTL {
            return Failure(RequestExpired);
          }
          if VerifySignature(ed, challenge.claims, signatureBase64).Err? {
            return Failure(InvalidCredentials);
          }
          var assignedName := DefaultDisplayName(challenge.claims.clientUid);
          state := Authenticated(SessionData(challenge.claims.clientUid, assignedName, None));
          result := Granted(AuthSuccess(challenge.claims.clientUid, assignedName, serverName));
        case _ =>
          result := Failure(InvalidCredentials);
      }
    }

    /** Gives up the session, once; the next login starts from scratch. */
    method TakeAuthenticatedSession() returns (session: Option<SessionData>)
      modifies this`state
      ensures (state, session) == Login.TakeAuthenticatedSession(old(state))
    {
      if !state.Authenticated? {
        return None;
      }
      session := Some(state.session);
      state := Connected;
    }
  }
}
