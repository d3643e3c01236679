/** Reading a connection's stream back: what a recipient can reconstruct from the messages it was
    sent, and which message the server may send next. */
module Replay {
  import opened Protocol
  import opened Rooms

  /** A sent message with two facts a reader of the history may use but the recipient never sees: the
      other members of the room a `VoiceRoomJoined` refers to at that moment, and the position of the
      send in the order of all sends of the server. */
  datatype Note = Note(message: ServerMessage, others: set<UserUid>, at: nat)

  /** - me:       the identity the stream authenticated
      - room:     the room the recipient is in
      - present:  the other members of that room, starting from those already there
      - view:     the same fold started from the empty set: the peers whose arrival was announced
      - peers:    view plus every peer a signal came from: the keys of the client's peer table
      - joinedAt: the position of the latest `VoiceRoomJoined` */
  datatype Standing = Standing(
    me: Option<UserUid>, room: Option<Uuid>,
    present: set<UserUid>, view: set<UserUid>, peers: set<UserUid>, joinedAt: nat)

  const NOWHERE := Standing(None, None, {}, {}, {}, 0)

  function Advance(s: Standing, note: Note): Standing {
    match note.message
    case AuthChallenge(_, _) => s
    case AuthFailure(_) => s
    case AuthSuccess(uid, _, _) => s.(me := Some(uid))
    case VoiceRoomJoined(room) =>
      s.(room := Some(room), present := note.others, view := {}, peers := {}, joinedAt := note.at)
    case VoiceRoomLeft(_) => s.(room := None, present := {}, view := {}, peers := {})
    case PeerJoinedRoom(_, peer, _) =>
      s.(present := s.present + {peer}, view := s.view + {peer}, peers := s.peers + {peer})
    case PeerLeftRoom(_, peer) =>
      s.(present := s.present - {peer}, view := s.view - {peer}, peers := s.peers - {peer})
    case BroadcastTextMessage(_, _, _, _, _) => s
    case ForwardWebRtcSdp(_, sender, _, _) => s.(peers := s.peers + {sender})
    case ForwardWebRtcIce(_, sender, _) => s.(peers := s.peers + {sender})
  }

  function Replayed(history: seq<Note>): Standing {
    if history == [] then NOWHERE
    else Advance(Replayed(history[..|history| - 1]), history[|history| - 1])
  }

  /** Whether a recipient standing at `s` may be sent this message next. */
  predicate Admits(permissions: Permissions, s: Standing, note: Note) {
    match note.message
    case AuthChallenge(_, _) => s.me.None?
    case AuthFailure(_) => s.me.None?
    case AuthSuccess(uid, name, server) =>
      s.me.None? && name == DefaultDisplayName(uid) && server == SERVER_NAME
    case VoiceRoomJoined(room) =>
      && s.me.Some? && s.room != Some(room) && s.me.value !in note.others
      && permissions.IsAllowed(s.me.value, room, Join)
    case VoiceRoomLeft(room) => s.me.Some? && s.room == Some(room)
    case PeerJoinedRoom(room, peer, name) =>
      && s.me.Some? && s.room == Some(room) && peer != s.me.value && peer !in s.present
      && name == DefaultDisplayName(peer) && permissions.IsAllowed(peer, room, Join)
    case PeerLeftRoom(room, peer) => s.me.Some? && s.room == Some(room) && peer in s.present
    case BroadcastTextMessage(room, sender, name, _, _) =>
      && s.me.Some? && s.room == Some(room) && sender in s.present
      && name == DefaultDisplayName(sender) && permissions.IsAllowed(sender, room, Write)
    case ForwardWebRtcSdp(room, sender, _, _) =>
      && s.me.Some? && s.room == Some(room) && (sender in s.present || sender == s.me.value)
      && permissions.IsAllowed(sender, room, Signal)
    case ForwardWebRtcIce(room, sender, _) =>
      && s.me.Some? && s.room == Some(room) && (sender in s.present || sender == s.me.value)
      && permissions.IsAllowed(sender, room, Signal)
  }

  /** Every message of the history was admissible when it was sent. */
  predicate Legal(permissions: Permissions, history: seq<Note>) {
    history == [] ||
    (var n := |history| - 1;
     Legal(permissions, history[..n]) && Admits(permissions, Replayed(history[..n]), history[n]))
  }

  lemma Extend(permissions: Permissions, history: seq<Note>, note: Note)
    ensures Replayed(history + [note]) == Advance(Replayed(history), note)
    ensures Legal(permissions, history + [note])
       <==> Legal(permissions, history) && Admits(permissions, Replayed(history), note)
  {
    assert (history + [note])[..|history|] == history;
  }

  lemma {:induction false} LegalAt(permissions: Permissions, history: seq<Note>, i: nat)
    requires Legal(permissions, history) && i <= |history|
    ensures Legal(permissions, history[..i])
    ensures i < |history| ==> Admits(permissions, Replayed(history[..i]), history[i])
  {
    var n := |history| - 1;
    if i == |history| {
      assert history[..i] == history;
    } else if i < n {
      LegalAt(permissions, history[..n], i);
      assert history[..n][..i] == history[..i];
    }
  }

  /** The history as its recipient sees it. */
  function Messages(history: seq<Note>): (r: seq<ServerMessage>)
    ensures |r| == |history|
    ensures forall i :: 0 <= i < |r| ==> r[i] == history[i].message
  {
    if history == [] then []
    else Messages(history[..|history| - 1]) + [history[|history| - 1].message]
  }

  lemma MessagesExtend(history: seq<Note>, note: Note)
    ensures Messages(history + [note]) == Messages(history) + [note.message]
  {
    assert (history + [note])[..|history|] == history;
  }

  predicate IsAuthReply(message: ServerMessage) {
    message.AuthChallenge? || message.AuthFailure?
  }

  predicate IsRoomMessage(message: ServerMessage) {
    !IsAuthReply(message) && !message.AuthSuccess?
  }
}
