/** The wire contract shared by client and server (shared/src/lib.rs): identities, room
    identifiers and the two message enums. */
module Protocol {

  datatype Option<+T> = None | Some(value: T)

  datatype Result<+T, +E> = Ok(value: T) | Err(error: E)

  type Byte = b: int | 0 <= b < 256

  type Bytes16 = s: seq<Byte> | |s| == 16 witness seq(16, _ => 0)
  type Bytes32 = s: seq<Byte> | |s| == 32 witness seq(32, _ => 0)
  type Bytes64 = s: seq<Byte> | |s| == 64 witness seq(64, _ => 0)

  type U16 = n: nat | n < 0x1_0000
  type U64 = n: nat | n < 0x1_0000_0000_0000_0000

  const PROTOCOL_VERSION: U16 := 1
  const SERVER_NAME: string := "VTNet"

  /** An Ed25519 public key. */
  datatype UserUid = UserUid(bytes: Bytes32)

  datatype Uuid = Uuid(bytes: Bytes16)

  /** A JSON value the server forwards without looking into it. */
  type Json = string

  datatype SdpType = Offer | Answer

  datatype AuthFailureReason =
    | InvalidCredentials
    | UnsupportedProtocolVersion
    | RequestExpired
    | RateLimited

  datatype ClientMessage =
    | AuthIdentify(protocolVersion: U16, clientUid: UserUid)
    | AuthResponse(signatureBase64: string)
    | JoinVoiceRoom(roomId: Uuid)
    | LeaveVoiceRoom(roomId: Uuid)
    | SendTextMessage(roomId: Uuid, textContent: string)
    | SendWebRtcSdp(roomId: Uuid, targetUid: UserUid, sdpType: SdpType, sdpRaw: string)
    | SendWebRtcIce(roomId: Uuid, targetUid: UserUid, candidate: Json)

  datatype ServerMessage =
    | AuthChallenge(nonceBase64: string, serverTimestamp: U64)
    | AuthSuccess(verifiedUid: UserUid, assignedName: string, serverName: string)
    | AuthFailure(reason: AuthFailureReason)
    | VoiceRoomJoined(roomId: Uuid)
    | VoiceRoomLeft(roomId: Uuid)
    | PeerJoinedRoom(roomId: Uuid, peerUid: UserUid, peerName: string)
    | PeerLeftRoom(roomId: Uuid, peerUid: UserUid)
    | BroadcastTextMessage(roomId: Uuid, senderUid: UserUid, senderName: string,
                           textContent: string, timestamp: U64)
    | ForwardWebRtcSdp(roomId: Uuid, senderUid: UserUid, sdpType: SdpType, sdpRaw: string)
    | ForwardWebRtcIce(roomId: Uuid, senderUid: UserUid, candidate: Json)

  /** One lower-case hexadecimal digit. */
  function HexDigit(d: int): (r: char)
    requires 0 <= d < 16
  {
    "0123456789abcdef"[d]
  }

  function HexByte(b: Byte): (r: string) {
    [HexDigit(b / 16), HexDigit(b % 16)]
  }

  /** The name given to an identity that has not chosen one: `Guest-` and the first four key bytes. */
  function DefaultDisplayName(uid: UserUid): (r: string) {
    "Guest-" + HexByte(uid.bytes[0]) + HexByte(uid.bytes[1]) + HexByte(uid.bytes[2]) + HexByte(uid.bytes[3])
  }
}
