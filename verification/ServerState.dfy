/** The mutable state shared by all connections (server/src/main.rs), kept under one lock, and the
    loops that notify its users. */
module ServerStates {
  import opened Protocol
  import opened Rooms
  import opened RoomRegistries
  import opened Dispatch

  /** The sending half of a connection's unbounded channel; `sent` is everything ever sent. */
  class OutboundQueue {
    var sent: seq<ServerMessage>

    constructor ()
      ensures sent == []
    {
      sent := [];
    }

    method Send(message: ServerMessage)
      modifies this
      ensures sent == old(sent) + [message]
    {
      sent := sent + [message];
    }
  }

  lemma OneMoreSend(first: seq<ServerMessage>, sends: seq<Outgoing>, last: Outgoing, u: UserUid)
    ensures first + MessagesFor(sends, u) + Pick(last, u) == first + MessagesFor(sends + [last], u)
  {
    MessagesForAppend(sends, last, u);
  }

  ghost predicate Enumerates(order: seq<UserUid>, users: set<UserUid>) {
    && (forall i, j :: 0 <= i < j < |order| ==> order[i] != order[j])
    && (forall u :: u in order <==> u in users)
  }

  /** Lists a hash set in whatever order iteration yields it. */
  method ListUsers(users: set<UserUid>) returns (order: seq<UserUid>)
    ensures Enumerates(order, users)
  {
    order := [];
    var rest := users;
    while rest != {}
      invariant forall u :: u in users <==> u in order || u in rest
      invariant forall u :: u in order ==> u !in rest
      invariant forall i, j :: 0 <= i < j < |order| ==> order[i] != order[j]
      decreases rest
    {
      var u :| u in rest;
      order := order + [u];
      rest := rest - {u};
    }
  }

  class ServerState {
    const rooms: RoomRegistry
    var connections: map<UserUid, OutboundQueue>

    /** No two identities share a queue. */
    ghost predicate Valid()
      reads this
    {
      forall u, v :: u in connections && v in connections && u != v ==> connections[u] != connections[v]
    }

    constructor ()
      ensures Valid() && fresh(rooms)
      ensures rooms.membersByRoom == map[] && connections == map[]
    {
      rooms := new RoomRegistry();
      connections := map[];
    }

    /** Every connected recipient gets the message once, whatever the order of the recipients. */
    method SendToUsers(recipients: seq<UserUid>, message: ServerMessage)
      requires Valid()
      requires forall i, j :: 0 <= i < j < |recipients| ==> recipients[i] != recipients[j]
      modifies connections.Values
      ensures forall u :: u in connections ==>
        connections[u].sent == old(connections[u].sent) + (if u in recipients then [message] else [])
    {
      for i := 0 to |recipients|
        invariant forall u :: u in connections ==>
          connections[u].sent == old(connections[u].sent) + (if u in recipients[..i] then [message] else [])
      {
        var recipient := recipients[i];
        if recipient in connections {
          assert recipient !in recipients[..i];
          connections[recipient].Send(message);
        }
        assert recipients[..i + 1] == recipients[..i] + [recipient];
      }
      assert recipients[..|recipients|] == recipients;
    }

    /** Since `before`, every connected user has been sent exactly its share of `sends`. */
    ghost predicate Announced(before: map<UserUid, seq<ServerMessage>>, sends: seq<Outgoing>)
      reads this, connections.Values
    {
      forall u :: u in connections ==> u in before && connections[u].sent == before[u] + MessagesFor(sends, u)
    }

    /** One more send on top of those already announced. */
    method Announce(recipients: seq<UserUid>, message: ServerMessage, ghost to: set<UserUid>,
                    ghost before: map<UserUid, seq<ServerMessage>>, ghost sends: seq<Outgoing>)
      requires Valid() && Enumerates(recipients, to) && Announced(before, sends)
      modifies connections.Values
      ensures Announced(before, sends + [Outgoing(to, message)])
    {
      SendToUsers(recipients, message);
      ghost var last := Outgoing(to, message);
      forall u | u in connections ensures connections[u].sent == before[u] + MessagesFor(sends + [last], u) {
        assert connections[u].sent == before[u] + MessagesFor(sends, u) + Pick(last, u);
        OneMoreSend(before[u], sends, last, u);
      }
    }

    /** One connection per identity: a second login only gets a refusal on its own queue. */
    method Register(userUid: UserUid, queue: OutboundQueue) returns (registered: bool)
      requires Valid() && queue !in connections.Values
      modifies this`connections, queue
      ensures Valid()
      ensures registered <==> userUid !in old(connections)
      ensures connections == if registered then old(connections)[userUid := queue] else old(connections)
      ensures queue.sent == old(queue.sent) + if registered then [] else [AuthFailure(InvalidCredentials)]
    {
      if userUid in connections {
        queue.Send(AuthFailure(InvalidCredentials));
        return false;
      }
      forall v | v in connections ensures connections[v] != queue {
        assert connections[v] in connections.Values;
      }
      connections := connections[userUid := queue];
      return true;
    }

    method HandleAuthenticatedMessage(
      session: Session, message: ClientMessage, serverTimestamp: U64, permissions: Permissions)
      requires Valid()
      modifies rooms, session, connections.Values
      ensures Valid()
      ensures var effect := Dispatch.HandleAuthenticatedMessage(
                old(rooms.membersByRoom), old(session.Value()), message, serverTimestamp, permissions);
              && rooms.membersByRoom == effect.members
              && session.Value() == effect.session
              && forall u :: u in connections ==>
                   connections[u].sent == old(connections[u].sent) + MessagesFor(effect.sends, u)
    {
      if message.JoinVoiceRoom? {
        HandleJoin(session, message.roomId, serverTimestamp, permissions);
      } else if message.LeaveVoiceRoom? {
        HandleLeave(session, message.roomId, serverTimestamp, permissions);
      } else {
        var routed := RouteClientRoomMessage(
          rooms.membersByRoom, session.Value(), message, serverTimestamp, permissions);
        if routed.Ok? {
          var recipients := ListUsers(routed.value.recipients);
          SendToUsers(recipients, routed.value.message);
        }
      }
    }

    method HandleJoin(session: Session, roomId: Uuid, serverTimestamp: U64, permissions: Permissions)
      requires Valid()
      modifies rooms, session, connections.Values
      ensures Valid()
      ensures var effect := Dispatch.HandleAuthenticatedMessage(
                old(rooms.membersByRoom), old(session.Value()), JoinVoiceRoom(roomId), serverTimestamp, permissions);
              && rooms.membersByRoom == effect.members
              && session.Value() == effect.session
              && forall u :: u in connections ==>
                   connections[u].sent == old(connections[u].sent) + MessagesFor(effect.sends, u)
    {
      var me := session.userUid;
      // The registry is about to change: whom to tell is decided now.
      ghost var leftBehind := {};
      var leavingRecipients := [];
      if session.activeVoiceRoomId.Some? {
        leftBehind := OtherMembers(rooms.membersByRoom, session.activeVoiceRoomId.value, me);
        leavingRecipients := ListUsers(OtherMembers(rooms.membersByRoom, session.activeVoiceRoomId.value, me));
      }
      ghost var alreadyThere := OtherMembers(rooms.membersByRoom, roomId, me);
      var joiningRecipients := ListUsers(OtherMembers(rooms.membersByRoom, roomId, me));
      var result := rooms.JoinVoiceRoom(session, roomId, permissions);
      if result.Err? {
        return;
      }
      AnnounceEntry(me, session.displayName, roomId, result.value,
                    leavingRecipients, joiningRecipients, leftBehind, alreadyThere,
                    map u | u in connections :: connections[u].sent);
    }

    method AnnounceEntry(
      me: UserUid, displayName: string, roomId: Uuid, transition: VoiceRoomTransition,
      leavingRecipients: seq<UserUid>, joiningRecipients: seq<UserUid>,
      ghost leftBehind: set<UserUid>, ghost alreadyThere: set<UserUid>,
      ghost before: map<UserUid, seq<ServerMessage>>)
      requires Valid()
      requires Enumerates(leavingRecipients, leftBehind) && Enumerates(joiningRecipients, alreadyThere)
      requires forall u :: u in connections ==> u in before && connections[u].sent == before[u]
      modifies connections.Values
      ensures Announced(before, EntryAnnouncements(me, displayName, roomId, transition, leftBehind, alreadyThere))
    {
      ghost var announced := [];
      if transition.Switched? {
        announced := [Outgoing(leftBehind, PeerLeftRoom(transition.fromRoomId, me))];
        Announce(leavingRecipients, PeerLeftRoom(transition.fromRoomId, me), leftBehind, before, []);
      }
      if transition.Joined? || transition.Switched? {
        Announce([me], VoiceRoomJoined(roomId), {me}, before, announced);
        Announce(joiningRecipients, PeerJoinedRoom(roomId, me, displayName), alreadyThere, before,
                 announced + [Outgoing({me}, VoiceRoomJoined(roomId))]);
        announced := announced + [Outgoing({me}, VoiceRoomJoined(roomId))]
                               + [Outgoing(alreadyThere, PeerJoinedRoom(roomId, me, displayName))];
      }
      assert announced == EntryAnnouncements(me, displayName, roomId, transition, leftBehind, alreadyThere);
    }

    method HandleLeave(session: Session, roomId: Uuid, serverTimestamp: U64, permissions: Permissions)
      requires Valid()
      modifies rooms, session, connections.Values
      ensures Valid()
      ensures var effect := Dispatch.HandleAuthenticatedMessage(
                old(rooms.membersByRoom), old(session.Value()), LeaveVoiceRoom(roomId), serverTimestamp, permissions);
              && rooms.membersByRoom == effect.members
              && session.Value() == effect.session
              && forall u :: u in connections ==>
                   connections[u].sent == old(connections[u].sent) + MessagesFor(effect.sends, u)
    {
      ghost var before := map u | u in connections :: connections[u].sent;
      var recipients := ListUsers(OtherMembers(rooms.membersByRoom, roomId, session.userUid));
      var transition := rooms.LeaveVoiceRoom(session, roomId);
      if transition.Left? {
        AnnounceExit(session.userUid, roomId, recipients,
                     OtherMembers(old(rooms.membersByRoom), roomId, session.userUid), before);
      }
    }

    method AnnounceExit(me: UserUid, roomId: Uuid, recipients: seq<UserUid>, ghost others: set<UserUid>,
                        ghost before: map<UserUid, seq<ServerMessage>>)
      requires Valid() && Enumerates(recipients, others)
      requires forall u :: u in connections ==> u in before && connections[u].sent == before[u]
      modifies connections.Values
      ensures Announced(before, [Outgoing({me}, VoiceRoomLeft(roomId)), Outgoing(others, PeerLeftRoom(roomId, me))])
    {
      Announce([me], VoiceRoomLeft(roomId), {me}, before, []);
      Announce(recipients, PeerLeftRoom(roomId, me), others, before, [Outgoing({me}, VoiceRoomLeft(roomId))]);
    }

    method DisconnectSession(session: Session)
      requires Valid()
      modifies this`connections, rooms, connections.Values
      ensures Valid()
      ensures connections == old(connections) - {session.userUid}
      ensures session.userUid in old(connections) ==>
        old(connections)[session.userUid].sent == old(connections[session.userUid].sent)
      ensures var effect := Dispatch.DisconnectSession(old(rooms.membersByRoom), session.Value());
              && rooms.membersByRoom == effect.members
              && forall u :: u in connections ==>
                   connections[u].sent == old(connections[u].sent) + MessagesFor(effect.sends, u)
    {
      connections := connections - {session.userUid};
      if session.activeVoiceRoomId.None? {
        return;
      }
      var roomId := session.activeVoiceRoomId.value;
      var recipients := ListUsers(OtherMembers(rooms.membersByRoom, roomId, session.userUid));
      var copy := new Session.Clone(session);
      var transition := rooms.LeaveVoiceRoom(copy, roomId);
      if transition.Left? {
        SendToUsers(recipients, PeerLeftRoom(roomId, session.userUid));
      }
    }
  }
}
