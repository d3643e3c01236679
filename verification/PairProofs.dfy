/** How a pair of co-members comes about and what happens to it from step to step. */
module PairProofs {
  import opened Protocol
  import opened Rooms
  import opened Dispatch
  import opened Replay
  import opened Presence
  import opened PresenceProofs
  import opened Server
  import opened ServerProofs

  /** `u` and `v` share a room and `u` has seen `v` arrive. */
  ghost predicate Owes(lobby: Lobby, u: UserUid, v: UserUid) {
    SameRoom(lobby, u, v) && v in Replayed(lobby.users[u].history).view
  }

  /** The pair was there before, and `v` has not forgotten `u`. */
  ghost predicate PairKept(lobby: Lobby, after: Lobby, u: UserUid, v: UserUid)
    requires u in after.users && v in after.users
  {
    && Owes(lobby, u, v) && after.users[u].room == lobby.users[u].room
    && (u in Replayed(lobby.users[v].history).peers ==> u in Replayed(after.users[v].history).peers)
  }

  /** `u` has just been told that `v` arrived. */
  ghost predicate PairFormed(lobby: Lobby, after: Lobby, u: UserUid, v: UserUid)
    requires u in after.users && after.users[u].room.Some?
  {
    && u in lobby.users && |after.users[u].history| == |lobby.users[u].history| + 1
    && (var last := after.users[u].history[|lobby.users[u].history|].message;
        last.PeerJoinedRoom? && last.roomId == after.users[u].room.value && last.peerUid == v)
  }

  ghost predicate PairExplained(lobby: Lobby, after: Lobby, u: UserUid, v: UserUid) {
    Owes(after, u, v) ==> PairKept(lobby, after, u, v) || PairFormed(lobby, after, u, v)
  }

  lemma DeliverKeys(lobby: Lobby, actor: UserUid, effect: Effect)
    ensures Deliver(lobby, actor, effect).users.Keys == lobby.users.Keys
  {
  }

  lemma NewcomerSeesNobody(lobby: Lobby, actor: UserUid, roomId: Uuid, s: Standing)
    requires actor in lobby.users
    ensures AdvanceBy(s, EntryNotes(lobby, actor, roomId, actor)).view == {}
  {
  }

  lemma NewcomerIsSeen(lobby: Lobby, actor: UserUid, roomId: Uuid, u: UserUid)
    requires actor in lobby.users && u in lobby.users && u != actor
    requires lobby.users[actor].room != Some(roomId) && lobby.users[u].room == Some(roomId)
    ensures var notes := EntryNotes(lobby, actor, roomId, u);
            && |notes| == 1 && notes[0].message.PeerJoinedRoom?
            && notes[0].message.roomId == roomId && notes[0].message.peerUid == actor
  {
  }

  /** A switch or a first join takes nobody but the actor out of what others have reconstructed, and brings nobody else in. */
  lemma EntryIsSeenAs(lobby: Lobby, actor: UserUid, roomId: Uuid, w: UserUid, s: Standing)
    requires actor in lobby.users && w in lobby.users && w != actor
    ensures var t := AdvanceBy(s, EntryNotes(lobby, actor, roomId, w));
            && t.view <= s.view + {actor}
            && forall x :: x in s.peers && x != actor ==> x in t.peers
  {
  }

  /** A user's room after a transition, and what its notes have made of its history. */
  ghost predicate Moved(lobby: Lobby, after: Lobby, w: UserUid, room: Option<Uuid>, notes: seq<Note>) {
    && w in lobby.users && w in after.users && after.users[w].room == room
    && after.users[w].history == lobby.users[w].history + notes
    && Replayed(after.users[w].history) == AdvanceBy(Replayed(lobby.users[w].history), notes)
  }

  lemma BystandersAreKept(lobby: Lobby, after: Lobby, actor: UserUid, roomId: Uuid, u: UserUid, v: UserUid)
    requires actor in lobby.users && u in lobby.users && v in lobby.users && u != actor && v != actor
    requires Moved(lobby, after, u, lobby.users[u].room, EntryNotes(lobby, actor, roomId, u))
    requires Moved(lobby, after, v, lobby.users[v].room, EntryNotes(lobby, actor, roomId, v))
    requires Owes(after, u, v)
    ensures PairKept(lobby, after, u, v)
  {
    EntryIsSeenAs(lobby, actor, roomId, u, Replayed(lobby.users[u].history));
    EntryIsSeenAs(lobby, actor, roomId, v, Replayed(lobby.users[v].history));
  }

  /** Whoever has just entered has seen nobody arrive; those in its room have seen it arrive last. */
  lemma EntryExplains(lobby: Lobby, after: Lobby, actor: UserUid, roomId: Uuid, u: UserUid, v: UserUid)
    requires u in lobby.users && v in lobby.users && actor in lobby.users && lobby.users[actor].room != Some(roomId)
    requires Moved(lobby, after, u, if u == actor then Some(roomId) else lobby.users[u].room,
                   EntryNotes(lobby, actor, roomId, u))
    requires Moved(lobby, after, v, if v == actor then Some(roomId) else lobby.users[v].room,
                   EntryNotes(lobby, actor, roomId, v))
    requires Owes(after, u, v)
    ensures PairKept(lobby, after, u, v) || PairFormed(lobby, after, u, v)
  {
    if u == actor {
      NewcomerSeesNobody(lobby, actor, roomId, Replayed(lobby.users[u].history));
    } else if v == actor {
      NewcomerIsSeen(lobby, actor, roomId, u);
    } else {
      BystandersAreKept(lobby, after, actor, roomId, u, v);
    }
  }

  lemma EntryPair(permissions: Permissions, lobby: Lobby, actor: UserUid, roomId: Uuid, u: UserUid, v: UserUid)
    requires RegistryOk(permissions, lobby) && Enters(lobby, actor, roomId, permissions)
    ensures PairExplained(lobby, Deliver(lobby, actor, PresenceProofs.Entry(lobby, actor, roomId, permissions)), u, v)
  {
    var after := Deliver(lobby, actor, PresenceProofs.Entry(lobby, actor, roomId, permissions));
    if Owes(after, u, v) {
      assert u in lobby.users && v in lobby.users by {
        DeliverKeys(lobby, actor, PresenceProofs.Entry(lobby, actor, roomId, permissions));
      }
      EntryStanding(permissions, lobby, actor, roomId, u);
      EntryStanding(permissions, lobby, actor, roomId, v);
      EntryExplains(lobby, after, actor, roomId, u, v);
    }
  }

  /** A departure takes nobody but the actor out of what others have reconstructed, and brings nobody in. */
  lemma DepartureIsSeen(lobby: Lobby, actor: UserUid, quits: bool, w: UserUid, s: Standing)
    requires Leaves(lobby, actor) && w in lobby.users && w != actor
    ensures var t := AdvanceBy(s, ExitNotes(lobby, actor, quits, w));
            && t.view <= s.view
            && forall x :: x in s.peers && x != actor ==> x in t.peers
  {
  }

  lemma DepartureExplains(lobby: Lobby, after: Lobby, actor: UserUid, quits: bool, u: UserUid, v: UserUid)
    requires u in lobby.users && v in lobby.users && Leaves(lobby, actor)
    requires Moved(lobby, after, u, if u == actor then None else lobby.users[u].room, ExitNotes(lobby, actor, quits, u))
    requires Moved(lobby, after, v, if v == actor then None else lobby.users[v].room, ExitNotes(lobby, actor, quits, v))
    requires Owes(after, u, v)
    ensures PairKept(lobby, after, u, v)
  {
    assert u != actor && v != actor;
    DepartureIsSeen(lobby, actor, quits, u, Replayed(lobby.users[u].history));
    DepartureIsSeen(lobby, actor, quits, v, Replayed(lobby.users[v].history));
  }

  lemma ExitPair(permissions: Permissions, lobby: Lobby, actor: UserUid, u: UserUid, v: UserUid)
    requires RegistryOk(permissions, lobby) && Leaves(lobby, actor)
    ensures PairExplained(lobby, Deliver(lobby, actor, Exit(lobby, actor, permissions)), u, v)
  {
    var after := Deliver(lobby, actor, Exit(lobby, actor, permissions));
    if Owes(after, u, v) {
      assert u in lobby.users && v in lobby.users by {
        DeliverKeys(lobby, actor, Exit(lobby, actor, permissions));
      }
      ExitStanding(permissions, lobby, after, actor, false, u);
      ExitStanding(permissions, lobby, after, actor, false, v);
      DepartureExplains(lobby, after, actor, false, u, v);
    }
  }

  lemma RemovePair(permissions: Permissions, lobby: Lobby, actor: UserUid, u: UserUid, v: UserUid)
    requires RegistryOk(permissions, lobby) && actor in lobby.users
    ensures PairExplained(lobby, Remove(lobby, actor), u, v)
  {
    var after := Remove(lobby, actor);
    if Owes(after, u, v) {
      assert u in lobby.users && v in lobby.users && u != actor && v != actor by {
        RemovedKeys(lobby, actor);
      }
      if lobby.users[actor].room.Some? {
        ExitStanding(permissions, lobby, after, actor, true, u);
        ExitStanding(permissions, lobby, after, actor, true, v);
        DepartureExplains(lobby, after, actor, true, u, v);
      } else {
        RemoveQuietly(lobby, actor);
      }
    }
  }

  lemma RelayPair(permissions: Permissions, lobby: Lobby, actor: UserUid, outgoing: Outgoing, u: UserUid, v: UserUid)
    requires MayRelay(permissions, lobby, actor, outgoing)
    ensures PairExplained(lobby, Relay(lobby, outgoing), u, v)
    ensures v in lobby.users && v in outgoing.to && outgoing.message.ForwardWebRtcSdp? ==>
      outgoing.message.senderUid in Replayed(Relay(lobby, outgoing).users[v].history).peers
  {
    if v in lobby.users {
      AdvanceByNotes(lobby.users[v].history, NoteFor(outgoing, lobby.members, lobby.time, v));
    }
    if u in lobby.users {
      AdvanceByNotes(lobby.users[u].history, NoteFor(outgoing, lobby.members, lobby.time, u));
    }
  }

  lemma RoomEventPair(permissions: Permissions, lobby: Lobby, actor: UserUid, message: ClientMessage, timestamp: U64,
                      u: UserUid, v: UserUid)
    requires RegistryOk(permissions, lobby) && actor in lobby.users
    ensures PairExplained(lobby, RoomEvent(lobby, actor, message, timestamp, permissions), u, v)
  {
    RoomEventCases(permissions, lobby, actor, message, timestamp);
    match KindOf(lobby, actor, message, timestamp, permissions)
    case Nothing =>
    case Entering(roomId) => EntryPair(permissions, lobby, actor, roomId, u, v);
    case Exiting => ExitPair(permissions, lobby, actor, u, v);
    case Relaying(outgoing) => RelayPair(permissions, lobby, actor, outgoing, u, v);
  }

  /** An offer from one member of a room to another reaches it. */
  lemma OfferIsRelayed(permissions: Permissions, lobby: Lobby, u: UserUid, v: UserUid, roomId: Uuid, sdp: string, timestamp: U64)
    requires RegistryOk(permissions, lobby) && SameRoom(lobby, u, v) && lobby.users[u].room == Some(roomId)
    requires permissions.IsAllowed(u, roomId, Signal)
    ensures var after := RoomEvent(lobby, u, SendWebRtcSdp(roomId, v, Offer, sdp), timestamp, permissions);
            v in after.users && u in Replayed(after.users[v].history).peers
  {
    var message := SendWebRtcSdp(roomId, v, Offer, sdp);
    assert u in MembersOf(lobby.members, roomId) && v in MembersOf(lobby.members, roomId);
    RoomEventCases(permissions, lobby, u, message, timestamp);
    var outgoing := Outgoing({v}, ForwardWebRtcSdp(roomId, u, Offer, sdp));
    assert KindOf(lobby, u, message, timestamp, permissions) == Relaying(outgoing);
    RelayPair(permissions, lobby, u, outgoing, u, v);
  }

  lemma AddPair(lobby: Lobby, uid: UserUid, history: seq<Note>, u: UserUid, v: UserUid)
    ensures PairExplained(lobby, Add(lobby, uid, history), u, v)
  {
  }

  lemma AnnouncePair(permissions: Permissions, lobby: Lobby, uid: UserUid, u: UserUid, v: UserUid)
    requires uid in lobby.users && lobby.users[uid].room.None?
    ensures PairExplained(lobby, Announce(lobby, uid), u, v)
  {
  }

  // ----- At the server -----

  lemma QuietPair(lobby: Lobby, after: Lobby, u: UserUid, v: UserUid)
    requires after.users == lobby.users
    ensures PairExplained(lobby, after, u, v)
  {
  }

  lemma PrivateSendUsers(s: State, c: ConnId, task: Task, message: ServerMessage)
    requires TableOk(s) && c in s.tasks && s.tasks[c].session.None? && task.session.None? && !IsLive(task)
    ensures ConnectionsOk(Send(WithTask(s, c, task), {c}, message, {}))
    ensures LobbyOf(Send(WithTask(s, c, task), {c}, message, {})).users == LobbyOf(s).users
  {
    QuietUpdateKeepsTable(s, c, task);
    SendKeepsTable(WithTask(s, c, task), {c}, message, {});
    PrivateSendLobby(WithTask(s, c, task), c, message);
  }

  lemma RegisterPair(permissions: Permissions, s: State, c: ConnId, u: UserUid, v: UserUid)
    requires TableOk(s) && c in s.tasks && s.tasks[c].pc.AwaitingLock? && TaskOk(permissions, s, c, s.tasks[c])
    ensures ConnectionsOk(DoRegister(s, c))
    ensures PairExplained(LobbyOf(s), LobbyOf(DoRegister(s, c)), u, v)
  {
    if s.tasks[c].pc.claimed.userUid in s.connections {
      PrivateSendUsers(s, c, s.tasks[c].(pc := Closing), AuthFailure(InvalidCredentials));
      QuietPair(LobbyOf(s), LobbyOf(DoRegister(s, c)), u, v);
    } else {
      RegisterKeepsTable(s, c);
      RegisterAddsUser(s, c);
      AddPair(LobbyOf(s), s.tasks[c].pc.claimed.userUid, History(s, c), u, v);
    }
  }

  lemma SendReplyPair(permissions: Permissions, s: State, c: ConnId, u: UserUid, v: UserUid)
    requires StateOk(permissions, s) && c in s.tasks && s.tasks[c].pc.Replying?
    ensures ConnectionsOk(DoSendReply(s, c))
    ensures PairExplained(LobbyOf(s), LobbyOf(DoSendReply(s, c)), u, v)
  {
    assert TaskOk(permissions, s, c, s.tasks[c]);
    SendReplyKeepsTable(s, c);
    if s.tasks[c].session.None? {
      PrivateSendUsers(s, c, s.tasks[c].(pc := Reading), s.tasks[c].pc.reply);
      QuietPair(LobbyOf(s), LobbyOf(DoSendReply(s, c)), u, v);
    } else {
      var me := s.tasks[c].session.value.userUid;
      AnnounceLobby(s, c);
      assert UserOk(permissions, LobbyOf(s).members, LobbyOf(s).time, me, LobbyOf(s).users[me]);
      AnnouncePair(permissions, LobbyOf(s), me, u, v);
    }
  }

  lemma RoomMessagePair(cfg: Config, s: State, c: ConnId, message: ClientMessage, timestamp: U64, u: UserUid, v: UserUid)
    requires StateOk(cfg.permissions, s) && c in s.tasks && s.tasks[c].pc.Reading? && s.tasks[c].session.Some?
    ensures ConnectionsOk(DoRoomMessage(cfg, s, c, message, timestamp))
    ensures PairExplained(LobbyOf(s), LobbyOf(DoRoomMessage(cfg, s, c, message, timestamp)), u, v)
  {
    assert TaskOk(cfg.permissions, s, c, s.tasks[c]);
    RoomMessageLobby(cfg, s, c, message, timestamp);
    RoomEventPair(cfg.permissions, LobbyOf(s), s.tasks[c].session.value.userUid, message, timestamp, u, v);
  }

  lemma CleanUpPair(permissions: Permissions, s: State, c: ConnId, u: UserUid, v: UserUid)
    requires StateOk(permissions, s) && c in s.tasks && s.tasks[c].pc.Closing?
    ensures ConnectionsOk(DoCleanUp(s, c))
    ensures PairExplained(LobbyOf(s), LobbyOf(DoCleanUp(s, c)), u, v)
  {
    assert TaskOk(permissions, s, c, s.tasks[c]);
    if s.tasks[c].session.None? {
      QuietUpdateKeepsTable(s, c, s.tasks[c].(pc := Draining));
    } else {
      CleanUpLobby(s, c);
      RemovePair(permissions, LobbyOf(s), s.tasks[c].session.value.userUid, u, v);
    }
  }

  /** Whatever step the server takes, a pair that owes an offer was there before or has just been announced. */
  lemma StepPair(cfg: Config, s: State, step: Step, u: UserUid, v: UserUid)
    requires StateOk(cfg.permissions, s)
    ensures ConnectionsOk(Next(cfg, s, step))
    ensures PairExplained(LobbyOf(s), LobbyOf(Next(cfg, s, step)), u, v)
  {
    if Enabled(s, step) {
      match step
      case Open(c) => OpenKeepsState(cfg.permissions, s, c);
      case AuthMessage(c, input) => AuthMessageKeepsState(cfg, s, c, input);
      case Register(c) =>
        assert TaskOk(cfg.permissions, s, c, s.tasks[c]);
        RegisterPair(cfg.permissions, s, c, u, v);
      case SendReply(c) => SendReplyPair(cfg.permissions, s, c, u, v);
      case RoomMessage(c, message, timestamp) => RoomMessagePair(cfg, s, c, message, timestamp, u, v);
      case CleanUp(c) => CleanUpPair(cfg.permissions, s, c, u, v);
      case _ => LocalStepKeepsState(cfg, s, step);
    }
  }
}
