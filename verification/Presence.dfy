/** The server seen from its registered users: who is in which room and what each user's connection
    has been sent. Every run of the server is a run of this smaller model. */
module Presence {
  import opened Protocol
  import opened Rooms
  import opened Dispatch
  import opened Replay

  /** - announced: the connection has been sent `AuthSuccess` */
  datatype User = User(room: Option<Uuid>, history: seq<Note>, announced: bool)

  /** - time: the number of sends made so far by the whole server */
  datatype Lobby = Lobby(members: Members, users: map<UserUid, User>, time: nat)

  function SessionOf(uid: UserUid, room: Option<Uuid>): SessionData {
    SessionData(uid, DefaultDisplayName(uid), room)
  }

  function Snapshot(before: Members, outgoing: Outgoing): set<UserUid> {
    if outgoing.message.VoiceRoomJoined? then MembersOf(before, outgoing.message.roomId) - outgoing.to else {}
  }

  function NoteFor(outgoing: Outgoing, before: Members, at: nat, uid: UserUid): seq<Note> {
    if uid in outgoing.to then [Note(outgoing.message, Snapshot(before, outgoing), at)] else []
  }

  /** What one user receives of an effect, annotated. */
  function NotesFor(sends: seq<Outgoing>, before: Members, at: nat, uid: UserUid): seq<Note> {
    if sends == [] then []
    else
      var n := |sends| - 1;
      NotesFor(sends[..n], before, at, uid) + NoteFor(sends[n], before, at + n, uid)
  }

  lemma OneNote(a: Outgoing, before: Members, at: nat, uid: UserUid)
    ensures NotesFor([a], before, at, uid) == NoteFor(a, before, at, uid)
  {
    assert [a][..0] == [];
  }

  lemma TwoNotes(a: Outgoing, b: Outgoing, before: Members, at: nat, uid: UserUid)
    ensures NotesFor([a, b], before, at, uid) == NoteFor(a, before, at, uid) + NoteFor(b, before, at + 1, uid)
  {
    assert [a, b][..1] == [a];
    OneNote(a, before, at, uid);
  }

  lemma ThreeNotes(a: Outgoing, b: Outgoing, c: Outgoing, before: Members, at: nat, uid: UserUid)
    ensures NotesFor([a, b, c], before, at, uid)
         == NoteFor(a, before, at, uid) + NoteFor(b, before, at + 1, uid) + NoteFor(c, before, at + 2, uid)
  {
    assert [a, b, c][..2] == [a, b];
    TwoNotes(a, b, before, at, uid);
  }

  // ----- Transitions -----

  /** Deliver an effect of `actor`'s to every user, the actor included. */
  function Deliver(lobby: Lobby, actor: UserUid, effect: Effect): Lobby {
    Lobby(effect.members,
         map w | w in lobby.users ::
           User(if w == actor then effect.session.activeVoiceRoomId else lobby.users[w].room,
                lobby.users[w].history + NotesFor(effect.sends, lobby.members, lobby.time, w),
                lobby.users[w].announced),
         lobby.time + |effect.sends|)
  }

  function RoomEvent(lobby: Lobby, actor: UserUid, message: ClientMessage, timestamp: U64, permissions: Permissions): Lobby
    requires actor in lobby.users
  {
    Deliver(lobby, actor,
            HandleAuthenticatedMessage(lobby.members, SessionOf(actor, lobby.users[actor].room),
                                       message, timestamp, permissions))
  }

  function Remove(lobby: Lobby, actor: UserUid): Lobby
    requires actor in lobby.users
  {
    Deliver(lobby.(users := lobby.users - {actor}), actor,
            DisconnectSession(lobby.members, SessionOf(actor, lobby.users[actor].room)))
  }

  function Add(lobby: Lobby, uid: UserUid, history: seq<Note>): Lobby {
    lobby.(users := lobby.users[uid := User(None, history, false)])
  }

  function Announce(lobby: Lobby, uid: UserUid): Lobby
    requires uid in lobby.users
  {
    var note := Note(AuthSuccess(uid, DefaultDisplayName(uid), SERVER_NAME), {}, lobby.time);
    lobby.(users := lobby.users[uid := lobby.users[uid].(history := lobby.users[uid].history + [note], announced := true)],
          time := lobby.time + 1)
  }

  // ----- The invariant -----

  ghost predicate RegistryOk(permissions: Permissions, lobby: Lobby) {
    && (forall r :: r in lobby.members ==> lobby.members[r] != {})
    && (forall r, u :: u in MembersOf(lobby.members, r) <==> u in lobby.users && lobby.users[u].room == Some(r))
    && (forall r, u :: u in MembersOf(lobby.members, r) ==> permissions.IsAllowed(u, r, Join))
  }

  ghost predicate UserOk(permissions: Permissions, members: Members, time: nat, uid: UserUid, user: User) {
    var s := Replayed(user.history);
    && Legal(permissions, user.history)
    && s.me == (if user.announced then Some(uid) else None)
    && s.room == user.room
    && (!user.announced ==> user.room.None?)
    && s.present == (if user.room.Some? then OtherMembers(members, user.room.value, uid) else {})
    && s.view <= s.present && s.view <= s.peers && s.peers <= s.present + {uid}
    && (user.room.None? ==> s.peers == {})
    && (user.room.Some? ==> s.joinedAt < time)
  }

  ghost predicate SameRoom(lobby: Lobby, u: UserUid, v: UserUid) {
    && u in lobby.users && v in lobby.users && u != v
    && lobby.users[u].room.Some? && lobby.users[u].room == lobby.users[v].room
  }

  /** Of two members of a room, exactly the one that joined first has seen the other arrive. */
  ghost predicate PairOk(lobby: Lobby, u: UserUid, v: UserUid)
    requires u in lobby.users && v in lobby.users
  {
    var s, t := Replayed(lobby.users[u].history), Replayed(lobby.users[v].history);
    && s.joinedAt != t.joinedAt
    && (v in s.view <==> s.joinedAt < t.joinedAt)
  }

  ghost predicate UsersOk(permissions: Permissions, lobby: Lobby) {
    forall u :: u in lobby.users ==> UserOk(permissions, lobby.members, lobby.time, u, lobby.users[u])
  }

  ghost predicate PairsOk(lobby: Lobby) {
    forall u, v :: SameRoom(lobby, u, v) ==> PairOk(lobby, u, v)
  }

  ghost predicate LobbyOk(permissions: Permissions, lobby: Lobby) {
    RegistryOk(permissions, lobby) && UsersOk(permissions, lobby) && PairsOk(lobby)
  }
}
