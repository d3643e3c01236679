/** What the server does while it holds the state lock (server/src/main.rs): the effect of one
    client message or one disconnect on the rooms, the session and the outbound queues. */
module Dispatch {
  import opened Protocol
  import opened Rooms

  /** One message and the users it is sent to. */
  datatype Outgoing = Outgoing(to: set<UserUid>, message: ServerMessage)

  datatype Effect = Effect(members: Members, session: SessionData, sends: seq<Outgoing>)

  /** What is announced when a session enters a room: a switch is first announced to the users left
      behind, then the newcomer is told, then the users already in the room. */
  function EntryAnnouncements(
    me: UserUid, displayName: string, roomId: Uuid, transition: VoiceRoomTransition,
    leftBehind: set<UserUid>, alreadyThere: set<UserUid>): seq<Outgoing>
  {
    var arrival := [Outgoing({me}, VoiceRoomJoined(roomId)),
                    Outgoing(alreadyThere, PeerJoinedRoom(roomId, me, displayName))];
    match transition
    case Joined(_) => arrival
    case Switched(from, _) => [Outgoing(leftBehind, PeerLeftRoom(from, me))] + arrival
    case _ => []
  }

  function HandleAuthenticatedMessage(
    members: Members, session: SessionData, message: ClientMessage, serverTimestamp: U64, permissions: Permissions)
    : Effect
  {
    var me := session.userUid;
    match message
    case JoinVoiceRoom(roomId) =>
      var outcome := Rooms.JoinVoiceRoom(members, session, roomId, permissions);
      var leftBehind :=
        if session.activeVoiceRoomId.Some? then OtherMembers(members, session.activeVoiceRoomId.value, me) else {};
      Effect(outcome.members, outcome.session,
             if outcome.result.Err? then []
             else EntryAnnouncements(me, session.displayName, roomId, outcome.result.value,
                                     leftBehind, OtherMembers(members, roomId, me)))
    case LeaveVoiceRoom(roomId) =>
      var outcome := Rooms.LeaveVoiceRoom(members, session, roomId);
      if outcome.transition.Left? then
        Effect(outcome.members, outcome.session,
               [Outgoing({me}, VoiceRoomLeft(roomId)),
                Outgoing(OtherMembers(members, roomId, me), PeerLeftRoom(roomId, me))])
      else Effect(outcome.members, outcome.session, [])
    case _ =>
      match RouteClientRoomMessage(members, session, message, serverTimestamp, permissions)
      case Ok(routed) => Effect(members, session, [Outgoing(routed.recipients, routed.message)])
      case Err(_) => Effect(members, session, [])
  }

  /** The session itself is left alone: the room is left through a copy of it. */
  function DisconnectSession(members: Members, session: SessionData): Effect {
    match session.activeVoiceRoomId
    case None => Effect(members, session, [])
    case Some(roomId) =>
      var outcome := Rooms.LeaveVoiceRoom(members, session, roomId);
      if outcome.transition.Left? then
        Effect(outcome.members, session,
               [Outgoing(OtherMembers(members, roomId, session.userUid), PeerLeftRoom(roomId, session.userUid))])
      else Effect(outcome.members, session, [])
  }

  function Pick(outgoing: Outgoing, userUid: UserUid): seq<ServerMessage> {
    if userUid in outgoing.to then [outgoing.message] else []
  }

  /** The messages of an effect that one user is sent, in order. */
  function MessagesFor(sends: seq<Outgoing>, userUid: UserUid): (r: seq<ServerMessage>)
    ensures |r| <= |sends|
  {
    if sends == [] then []
    else MessagesFor(sends[..|sends| - 1], userUid) + Pick(sends[|sends| - 1], userUid)
  }

  lemma MessagesForAppend(sends: seq<Outgoing>, last: Outgoing, userUid: UserUid)
    ensures MessagesFor(sends + [last], userUid) == MessagesFor(sends, userUid) + Pick(last, userUid)
  {
    assert (sends + [last])[..|sends|] == sends;
  }
}
