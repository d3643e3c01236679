/** The part of the client that follows its stream (client/src/App.tsx): the active room and the table
    of peer connections. The active room is taken to change in the same step as the message that
    changes it. */
module PeerTable {
  import opened Protocol

  /** What a handler still has to do when its asynchronous calls have finished, and the network candidates
      that a connection has gathered and not yet passed on. */
  datatype Pending =
    | SignChallenge(nonceBase64: string, serverTimestamp: U64)
    | OfferTo(roomId: Uuid, peer: UserUid, connection: nat)
    | AnswerTo(peer: UserUid, connection: nat)
    | CandidateFor(peer: UserUid, candidate: Json)

  /** welcomed is the status `connected`; created lists the peers of all connections ever created, in order; a connection is known by its
      position there, and peers is the table of those in use. */
  datatype ClientState = ClientState(
    ident: UserUid, welcomed: bool, activeRoom: Option<Uuid>, peers: map<UserUid, nat>, created: seq<UserUid>,
    pending: seq<Pending>)

  function NewClient(ident: UserUid): ClientState {
    ClientState(ident, false, None, map[], [], [])
  }

  /** The peer's connection, created if there is none. */
  function WithPeer(a: ClientState, peer: UserUid): (r: ClientState)
    ensures peer in r.peers
  {
    if peer in a.peers then a
    else a.(peers := a.peers[peer := |a.created|], created := a.created + [peer])
  }

  /** The socket has closed: every connection goes, the room and the status are forgotten. */
  function HandleClose(a: ClientState): ClientState {
    a.(welcomed := false, activeRoom := None, peers := map[])
  }

  function HandleServerMessage(a: ClientState, message: ServerMessage): ClientState {
    match message
    case AuthChallenge(nonce, timestamp) => a.(pending := a.pending + [SignChallenge(nonce, timestamp)])
    case AuthSuccess(_, _, _) => a.(welcomed := true)
    case AuthFailure(_) => a
    case VoiceRoomJoined(room) => a.(activeRoom := Some(room), peers := map[])
    case VoiceRoomLeft(_) => a.(activeRoom := None, peers := map[])
    case PeerJoinedRoom(room, peer, _) =>
      if a.activeRoom != Some(room) || peer == a.ident then a
      else
        var b := WithPeer(a, peer);
        b.(pending := b.pending + [OfferTo(room, peer, b.peers[peer])])
    case PeerLeftRoom(room, peer) =>
      if a.activeRoom == Some(room) then a.(peers := a.peers - {peer}) else a
    case BroadcastTextMessage(_, _, _, _, _) => a
    case ForwardWebRtcSdp(room, sender, sdpType, _) =>
      if a.activeRoom != Some(room) then a
      else
        var b := WithPeer(a, sender);
        if sdpType == Offer then b.(pending := b.pending + [AnswerTo(sender, b.peers[sender])]) else b
    case ForwardWebRtcIce(room, sender, _) =>
      if a.activeRoom != Some(room) then a else WithPeer(a, sender)
  }
}
