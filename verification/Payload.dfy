/** The canonical byte sequence a client signs and the server verifies (shared/src/lib.rs). */
module Payload {
  import opened Protocol
  import opened Codec

  /** The ASCII bytes of "VTNET_AUTH_v1". */
  const AUTH_DOMAIN_SEPARATOR: seq<Byte> := [86, 84, 78, 69, 84, 95, 65, 85, 84, 72, 95, 118, 49]

  const PAYLOAD_BYTES: nat := 87

  datatype Claims = Claims(protocolVersion: U16, nonce: Bytes32, serverTimestamp: U64, clientUid: UserUid)

  function AuthSignaturePayload(claims: Claims): seq<Byte> {
    AUTH_DOMAIN_SEPARATOR + ToBigEndian(claims.protocolVersion, 2) + claims.nonce
    + ToBigEndian(claims.serverTimestamp, 8) + claims.clientUid.bytes
  }

  /** The payload as it is assembled, part by part. */
  method BuildAuthSignaturePayload(protocolVersion: U16, nonce: Bytes32, serverTimestamp: U64, clientUid: UserUid)
    returns (payload: seq<Byte>)
    ensures payload == AuthSignaturePayload(Claims(protocolVersion, nonce, serverTimestamp, clientUid))
    ensures |payload| == PAYLOAD_BYTES
  {
    payload := [];
    payload := payload + AUTH_DOMAIN_SEPARATOR;
    payload := payload + ToBigEndian(protocolVersion, 2);
    payload := payload + nonce;
    payload := payload + ToBigEndian(serverTimestamp, 8);
    payload := payload + clientUid.bytes;
  }

  lemma Powers()
    ensures Power256(2) == 0x1_0000 && Power256(8) == 0x1_0000_0000_0000_0000
  {
    assert Power256(3) == 0x100_0000;
    assert Power256(4) == 0x1_0000_0000;
    assert Power256(5) == 0x100_0000_0000;
    assert Power256(6) == 0x1_0000_0000_0000;
    assert Power256(7) == 0x100_0000_0000_0000;
  }

  lemma BigEndianBound(bytes: seq<Byte>, width: nat)
    requires |bytes| == width
    ensures FromBigEndian(bytes) < Power256(width)
  {
    BigEndianIsCanonical(bytes);
  }

  /** Reads a payload back; anything that is not one is refused. */
  function ParsePayload(payload: seq<Byte>): Option<Claims> {
    if |payload| != PAYLOAD_BYTES || payload[..13] != AUTH_DOMAIN_SEPARATOR then None
    else
      Powers();
      BigEndianBound(payload[13..15], 2);
      BigEndianBound(payload[47..55], 8);
      Some(Claims(FromBigEndian(payload[13..15]), payload[15..47], FromBigEndian(payload[47..55]), UserUid(payload[55..])))
  }

  lemma PayloadParts(claims: Claims)
    ensures var payload := AuthSignaturePayload(claims);
            && |payload| == PAYLOAD_BYTES
            && payload[..13] == AUTH_DOMAIN_SEPARATOR
            && payload[13..15] == ToBigEndian(claims.protocolVersion, 2)
            && payload[15..47] == claims.nonce
            && payload[47..55] == ToBigEndian(claims.serverTimestamp, 8)
            && payload[55..] == claims.clientUid.bytes
  {
  }

  /** What stands where: the separator in ASCII, then version, nonce, timestamp and key. */
  lemma PayloadLayout(claims: Claims)
    ensures var payload := AuthSignaturePayload(claims);
            && |payload| == 87
            && (forall i :: 0 <= i < 13 ==> payload[i] == "VTNET_AUTH_v1"[i] as int)
            && payload[13] as int * 256 + payload[14] == claims.protocolVersion
            && payload[15..47] == claims.nonce
            && FromBigEndian(payload[47..55]) == claims.serverTimestamp
            && payload[55..] == claims.clientUid.bytes
  {
    var payload := AuthSignaturePayload(claims);
    PayloadParts(claims);
    Powers();
    BigEndianRoundTrip(claims.serverTimestamp, 8);
    BigEndianRoundTrip(claims.protocolVersion, 2);
    assert payload[13..15] == [payload[13], payload[14]];
    TwoBytesRead(payload[13], payload[14]);
    assert forall i :: 0 <= i < 13 ==> payload[i] == payload[..13][i];
  }

  lemma ParseOfPayload(claims: Claims)
    ensures ParsePayload(AuthSignaturePayload(claims)) == Some(claims)
  {
    PayloadParts(claims);
    assert FromBigEndian(ToBigEndian(claims.protocolVersion, 2)) == claims.protocolVersion
        && FromBigEndian(ToBigEndian(claims.serverTimestamp, 8)) == claims.serverTimestamp by {
      Powers();
      BigEndianRoundTrip(claims.protocolVersion, 2);
      BigEndianRoundTrip(claims.serverTimestamp, 8);
    }
  }

  lemma Assemble(payload: seq<Byte>)
    requires |payload| == PAYLOAD_BYTES
    ensures payload == payload[..13] + payload[13..15] + payload[15..47] + payload[47..55] + payload[55..]
  {
  }

  lemma PayloadOfParse(payload: seq<Byte>)
    requires ParsePayload(payload).Some?
    ensures AuthSignaturePayload(ParsePayload(payload).value) == payload
  {
    var claims := ParsePayload(payload).value;
    assert ToBigEndian(claims.protocolVersion, 2) == payload[13..15] by {
      BigEndianIsCanonical(payload[13..15]);
    }
    assert ToBigEndian(claims.serverTimestamp, 8) == payload[47..55] by {
      BigEndianIsCanonical(payload[47..55]);
    }
    Assemble(payload);
  }

  /** The payload is a faithful encoding: a byte sequence parses to some claims exactly when it is their payload. */
  lemma PayloadIsExact(payload: seq<Byte>, claims: Claims)
    ensures ParsePayload(payload) == Some(claims) <==> payload == AuthSignaturePayload(claims)
    ensures |AuthSignaturePayload(claims)| == PAYLOAD_BYTES
  {
    ParseOfPayload(claims);
    if ParsePayload(payload).Some? {
      PayloadOfParse(payload);
    }
  }

  /** No two different claims share a payload. */
  lemma PayloadIsInjective(a: Claims, b: Claims)
    requires AuthSignaturePayload(a) == AuthSignaturePayload(b)
    ensures a == b
  {
    PayloadIsExact(AuthSignaturePayload(a), a);
    PayloadIsExact(AuthSignaturePayload(b), b);
  }
}
