/** The object that holds the peer table (client/src/App.tsx). */
module Client {
  import opened Protocol
  import opened PeerTable

  /** The table's own object: every message updates it in place. */
  class App {
    const ident: UserUid
    var welcomed: bool
    var activeRoom: Option<Uuid>
    var peers: map<UserUid, nat>
    var created: seq<UserUid>
    var pending: seq<Pending>

    constructor (ident: UserUid)
      ensures Value() == NewClient(ident)
    {
      this.ident := ident;
      welcomed, activeRoom, peers, created, pending := false, None, map[], [], [];
    }

    function Value(): ClientState
      reads this
    {
      ClientState(ident, welcomed, activeRoom, peers, created, pending)
    }

    method PeerConnection(peer: UserUid) returns (connection: nat)
      modifies this`peers, this`created
      ensures Value() == WithPeer(old(Value()), peer)
      ensures connection == peers[peer]
    {
      if peer in peers {
        return peers[peer];
      }
      connection := |created|;
      created := created + [peer];
      peers := peers[peer := connection];
    }

    method RemovePeer(peer: UserUid)
      modifies this`peers
      ensures peers == old(peers) - {peer}
    {
      peers := peers - {peer};
    }

    method HandleClose()
      modifies this`welcomed, this`activeRoom, this`peers
      ensures Value() == PeerTable.HandleClose(old(Value()))
    {
      welcomed := false;
      activeRoom := None;
      peers := map[];
    }

    method HandleServerMessage(message: ServerMessage)
      modifies this
      ensures Value() == PeerTable.HandleServerMessage(old(Value()), message)
    {
      match message
      case AuthChallenge(nonce, timestamp) =>
        pending := pending + [SignChallenge(nonce, timestamp)];
      case AuthSuccess(_, _, _) =>
        welcomed := true;
      case VoiceRoomJoined(room) =>
        peers := map[];
        activeRoom := Some(room);
      case VoiceRoomLeft(_) =>
        activeRoom := None;
        peers := map[];
      case PeerJoinedRoom(room, peer, _) =>
        if activeRoom != Some(room) || peer == ident {
          return;
        }
        var connection := PeerConnection(peer);
        pending := pending + [OfferTo(room, peer, connection)];
      case PeerLeftRoom(room, peer) =>
        if activeRoom == Some(room) {
          RemovePeer(peer);
        }
      case ForwardWebRtcSdp(room, sender, sdpType, _) =>
        if activeRoom == Some(room) {
          var connection := PeerConnection(sender);
          if sdpType == Offer {
            pending := pending + [AnswerTo(sender, connection)];
          }
        }
      case ForwardWebRtcIce(room, sender, _) =>
        if activeRoom == Some(room) {
          var _ := PeerConnection(sender);
        }
      case _ =>
    }
  }
}
