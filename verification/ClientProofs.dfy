/** A client's peer table follows the replay of its stream. */
module ClientProofs {
  import opened Protocol
  import opened Rooms
  import opened Replay
  import opened PeerTable
  import opened LogProofs

  /** The active room, the keys of the peer table and whether the client is welcomed are what the replay says. */
  ghost predicate Follows(app: ClientState, s: Standing) {
    && app.activeRoom == s.room && app.peers.Keys == s.peers
    && (s.me == None || s.me == Some(app.ident)) && app.welcomed == s.me.Some?
  }

  lemma HandleFollowsReplay(permissions: Permissions, app: ClientState, s: Standing, note: Note)
    requires Follows(app, s) && Admits(permissions, s, note)
    requires note.message.AuthSuccess? ==> note.message.verifiedUid == app.ident
    ensures Follows(HandleServerMessage(app, note.message), Advance(s, note))
  {
    assert app.peers.Keys == s.peers;
  }

  /** Messages about peers, signals and texts of a room the client is not in change nothing; entering or leaving any
      room empties the table. */
  lemma StrayMessagesChangeNothing(app: ClientState, message: ServerMessage)
    requires IsRoomMessage(message)
    ensures message.VoiceRoomJoined? ==>
      HandleServerMessage(app, message) == app.(activeRoom := Some(message.roomId), peers := map[])
    ensures message.VoiceRoomLeft? ==> HandleServerMessage(app, message) == app.(activeRoom := None, peers := map[])
    ensures !message.VoiceRoomJoined? && !message.VoiceRoomLeft? && app.activeRoom != Some(message.roomId) ==>
      HandleServerMessage(app, message) == app
  {
  }

  /** No client ever connects to itself. */
  predicate Outward(app: ClientState) {
    && app.ident !in app.created
    && forall p :: p in app.pending && !p.SignChallenge? ==> p.peer != app.ident
  }

  lemma HandleStaysOutward(app: ClientState, message: ServerMessage)
    requires Outward(app) && Fits(message, app.ident)
    ensures Outward(HandleServerMessage(app, message))
  {
  }

  lemma {:induction false} ReplayIsOutward(permissions: Permissions, history: seq<Note>, ident: UserUid)
    requires Legal(permissions, history)
    requires forall i :: 0 <= i < |history| ==> Fits(history[i].message, ident)
    ensures Replayed(history).me == None || Replayed(history).me == Some(ident)
    ensures ident !in Replayed(history).peers
    decreases |history|
  {
    if history != [] {
      var n := |history| - 1;
      ReplayIsOutward(permissions, history[..n], ident);
      assert Fits(history[n].message, ident);
    }
  }

  /** Whoever is in the table without having been seen to arrive has signalled, and had the power to. */
  lemma {:induction false} PeersMaySignal(permissions: Permissions, history: seq<Note>, peer: UserUid)
    requires Legal(permissions, history) && peer in Replayed(history).peers && peer !in Replayed(history).view
    ensures Replayed(history).room.Some? && permissions.IsAllowed(peer, Replayed(history).room.value, Signal)
    decreases |history|
  {
    var n := |history| - 1;
    var before := Replayed(history[..n]);
    if peer in before.peers && peer !in before.view {
      PeersMaySignal(permissions, history[..n], peer);
    }
  }

  predicate IsArrival(message: ServerMessage, roomId: Uuid, peer: UserUid) {
    message.PeerJoinedRoom? && message.roomId == roomId && message.peerUid == peer
  }

  /** A peer in the view that was not there at some point has been announced since, for the current room. */
  lemma {:induction false} SeenSince(permissions: Permissions, history: seq<Note>, k: nat, roomId: Uuid, v: UserUid)
    requires Legal(permissions, history) && k <= |history|
    requires v in Replayed(history).view && v !in Replayed(history[..k]).view
    requires Replayed(history).room == Some(roomId)
    ensures exists i :: k <= i < |history| && IsArrival(history[i].message, roomId, v)
    decreases |history|
  {
    assert history[..|history|] == history;
    var n := |history| - 1;
    if !IsArrival(history[n].message, roomId, v) {
      assert history[..n][..k] == history[..k];
      SeenSince(permissions, history[..n], k, roomId, v);
    }
  }
}
