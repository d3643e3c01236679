/** Every transition of the lobby keeps its invariant. */
module PresenceProofs {
  import opened Protocol
  import opened Rooms
  import opened Dispatch
  import opened Replay
  import opened Presence

  // ----- What each user is sent -----

  /** The effect of a permitted join of a room the actor is not in. */
  function Entry(lobby: Lobby, actor: UserUid, roomId: Uuid, permissions: Permissions): Effect
    requires actor in lobby.users
  {
    HandleAuthenticatedMessage(lobby.members, SessionOf(actor, lobby.users[actor].room), JoinVoiceRoom(roomId), 0, permissions)
  }

  predicate Enters(lobby: Lobby, actor: UserUid, roomId: Uuid, permissions: Permissions) {
    && actor in lobby.users && lobby.users[actor].room != Some(roomId)
    && permissions.IsAllowed(actor, roomId, Join)
  }

  function EntryNotes(lobby: Lobby, actor: UserUid, roomId: Uuid, uid: UserUid): seq<Note>
    requires actor in lobby.users && uid in lobby.users
  {
    var from := lobby.users[actor].room;
    var first := if from.Some? then lobby.time + 1 else lobby.time;
    if uid == actor then [Note(VoiceRoomJoined(roomId), OtherMembers(lobby.members, roomId, actor), first)]
    else if from.Some? && lobby.users[uid].room == from then [Note(PeerLeftRoom(from.value, actor), {}, lobby.time)]
    else if lobby.users[uid].room == Some(roomId) then
      [Note(PeerJoinedRoom(roomId, actor, DefaultDisplayName(actor)), {}, first + 1)]
    else []
  }

  function EntrySends(lobby: Lobby, actor: UserUid, roomId: Uuid): seq<Outgoing>
    requires actor in lobby.users
  {
    var told := Outgoing({actor}, VoiceRoomJoined(roomId));
    var others := Outgoing(OtherMembers(lobby.members, roomId, actor),
                           PeerJoinedRoom(roomId, actor, DefaultDisplayName(actor)));
    match lobby.users[actor].room
    case None => [told, others]
    case Some(from) => [Outgoing(OtherMembers(lobby.members, from, actor), PeerLeftRoom(from, actor)), told, others]
  }

  lemma EntryEffect(lobby: Lobby, actor: UserUid, roomId: Uuid, permissions: Permissions)
    requires Enters(lobby, actor, roomId, permissions)
    ensures var effect := Entry(lobby, actor, roomId, permissions);
            effect.sends == EntrySends(lobby, actor, roomId) && effect.session == SessionOf(actor, Some(roomId))
  {
  }

  function ArrivalNote(lobby: Lobby, actor: UserUid, roomId: Uuid, at: nat, uid: UserUid): seq<Note>
    requires uid in lobby.users
  {
    if uid != actor && lobby.users[uid].room == Some(roomId)
    then [Note(PeerJoinedRoom(roomId, actor, DefaultDisplayName(actor)), {}, at)] else []
  }

  function DepartureNote(lobby: Lobby, actor: UserUid, roomId: Uuid, at: nat, uid: UserUid): seq<Note>
    requires uid in lobby.users
  {
    if uid != actor && lobby.users[uid].room == Some(roomId) then [Note(PeerLeftRoom(roomId, actor), {}, at)] else []
  }

  function EntryNote(lobby: Lobby, actor: UserUid, roomId: Uuid, at: nat, uid: UserUid): seq<Note> {
    if uid == actor then [Note(VoiceRoomJoined(roomId), OtherMembers(lobby.members, roomId, actor), at)] else []
  }

  /** Whoever is told of an arrival or a departure is in the room, and not the actor itself. */
  lemma OthersAreTold(lobby: Lobby, actor: UserUid, roomId: Uuid, permissions: Permissions, at: nat, uid: UserUid)
    requires RegistryOk(permissions, lobby) && actor in lobby.users && uid in lobby.users
    ensures NoteFor(Outgoing(OtherMembers(lobby.members, roomId, actor),
                             PeerJoinedRoom(roomId, actor, DefaultDisplayName(actor))), lobby.members, at, uid)
         == ArrivalNote(lobby, actor, roomId, at, uid)
    ensures NoteFor(Outgoing(OtherMembers(lobby.members, roomId, actor), PeerLeftRoom(roomId, actor)), lobby.members, at, uid)
         == DepartureNote(lobby, actor, roomId, at, uid)
  {
    assert uid in MembersOf(lobby.members, roomId) <==> lobby.users[uid].room == Some(roomId);
  }

  lemma ActorIsTold(lobby: Lobby, actor: UserUid, roomId: Uuid, at: nat, uid: UserUid)
    ensures NoteFor(Outgoing({actor}, VoiceRoomJoined(roomId)), lobby.members, at, uid)
         == EntryNote(lobby, actor, roomId, at, uid)
  {
  }

  /** The notes of a switch, part by part: no user gets more than one. */
  lemma SwitchNotes(lobby: Lobby, actor: UserUid, roomId: Uuid, uid: UserUid)
    requires actor in lobby.users && uid in lobby.users
    requires lobby.users[actor].room.Some? && lobby.users[actor].room != Some(roomId)
    ensures EntryNotes(lobby, actor, roomId, uid)
         == DepartureNote(lobby, actor, lobby.users[actor].room.value, lobby.time, uid)
          + EntryNote(lobby, actor, roomId, lobby.time + 1, uid)
          + ArrivalNote(lobby, actor, roomId, lobby.time + 2, uid)
  {
  }

  lemma FirstEntryIsSeen(lobby: Lobby, actor: UserUid, roomId: Uuid, permissions: Permissions, uid: UserUid)
    requires RegistryOk(permissions, lobby) && actor in lobby.users && uid in lobby.users && lobby.users[actor].room.None?
    ensures NotesFor(EntrySends(lobby, actor, roomId), lobby.members, lobby.time, uid)
         == EntryNotes(lobby, actor, roomId, uid)
  {
    var sends := EntrySends(lobby, actor, roomId);
    TwoNotes(sends[0], sends[1], lobby.members, lobby.time, uid);
    ActorIsTold(lobby, actor, roomId, lobby.time, uid);
    OthersAreTold(lobby, actor, roomId, permissions, lobby.time + 1, uid);
  }

  lemma SwitchIsSeen(lobby: Lobby, actor: UserUid, roomId: Uuid, permissions: Permissions, uid: UserUid)
    requires RegistryOk(permissions, lobby) && actor in lobby.users && uid in lobby.users
    requires lobby.users[actor].room.Some? && lobby.users[actor].room != Some(roomId)
    ensures NotesFor(EntrySends(lobby, actor, roomId), lobby.members, lobby.time, uid)
         == EntryNotes(lobby, actor, roomId, uid)
  {
    var from := lobby.users[actor].room.value;
    ThreeNotes(Outgoing(OtherMembers(lobby.members, from, actor), PeerLeftRoom(from, actor)),
               Outgoing({actor}, VoiceRoomJoined(roomId)),
               Outgoing(OtherMembers(lobby.members, roomId, actor),
                        PeerJoinedRoom(roomId, actor, DefaultDisplayName(actor))),
               lobby.members, lobby.time, uid);
    OthersAreTold(lobby, actor, from, permissions, lobby.time, uid);
    ActorIsTold(lobby, actor, roomId, lobby.time + 1, uid);
    OthersAreTold(lobby, actor, roomId, permissions, lobby.time + 2, uid);
    SwitchNotes(lobby, actor, roomId, uid);
  }

  lemma EntryIsSeen(lobby: Lobby, actor: UserUid, roomId: Uuid, permissions: Permissions, uid: UserUid)
    requires RegistryOk(permissions, lobby) && Enters(lobby, actor, roomId, permissions) && uid in lobby.users
    ensures NotesFor(EntrySends(lobby, actor, roomId), lobby.members, lobby.time, uid)
         == EntryNotes(lobby, actor, roomId, uid)
  {
    if lobby.users[actor].room.None? {
      FirstEntryIsSeen(lobby, actor, roomId, permissions, uid);
    } else {
      SwitchIsSeen(lobby, actor, roomId, permissions, uid);
    }
  }

  lemma EntryMembers(lobby: Lobby, actor: UserUid, roomId: Uuid, permissions: Permissions)
    requires RegistryOk(permissions, lobby) && Enters(lobby, actor, roomId, permissions)
    ensures var members := Entry(lobby, actor, roomId, permissions).members;
            && (forall r :: r in members ==> members[r] != {})
            && forall r :: MembersOf(members, r) ==
                 if r == roomId then MembersOf(lobby.members, r) + {actor} else MembersOf(lobby.members, r) - {actor}
  {
    assert forall r :: actor in MembersOf(lobby.members, r) ==> lobby.users[actor].room == Some(r);
  }

  /** The effect of leaving the current room, by request or by disconnecting. */
  function ExitMembers(lobby: Lobby, actor: UserUid): Members
    requires actor in lobby.users && lobby.users[actor].room.Some?
  {
    WithoutMember(lobby.members, lobby.users[actor].room.value, actor)
  }

  lemma ExitMembersOf(lobby: Lobby, actor: UserUid, permissions: Permissions)
    requires RegistryOk(permissions, lobby) && actor in lobby.users && lobby.users[actor].room.Some?
    ensures var members := ExitMembers(lobby, actor);
            && (forall r :: r in members ==> members[r] != {})
            && forall r :: MembersOf(members, r) == MembersOf(lobby.members, r) - {actor}
  {
    assert forall r :: actor in MembersOf(lobby.members, r) ==> lobby.users[actor].room == Some(r);
  }

  // ----- What one user makes of it -----

  lemma SeesDeparture(permissions: Permissions, members: Members, members': Members, time: nat, time': nat,
                      actor: UserUid, uid: UserUid, user: User, at: nat)
    requires UserOk(permissions, members, time, uid, user) && user.room.Some? && uid != actor && time <= time'
    requires actor in MembersOf(members, user.room.value)
    requires MembersOf(members', user.room.value) == MembersOf(members, user.room.value) - {actor}
    ensures var note := Note(PeerLeftRoom(user.room.value, actor), {}, at);
            && UserOk(permissions, members', time', uid, user.(history := user.history + [note]))
            && Replayed(user.history + [note]) == Advance(Replayed(user.history), note)
  {
    Extend(permissions, user.history, Note(PeerLeftRoom(user.room.value, actor), {}, at));
  }

  lemma SeesArrival(permissions: Permissions, members: Members, members': Members, time: nat, time': nat,
                    actor: UserUid, uid: UserUid, user: User, at: nat)
    requires UserOk(permissions, members, time, uid, user) && user.room.Some? && uid != actor && time <= time'
    requires actor !in MembersOf(members, user.room.value)
    requires MembersOf(members', user.room.value) == MembersOf(members, user.room.value) + {actor}
    requires permissions.IsAllowed(actor, user.room.value, Join)
    ensures var note := Note(PeerJoinedRoom(user.room.value, actor, DefaultDisplayName(actor)), {}, at);
            && UserOk(permissions, members', time', uid, user.(history := user.history + [note]))
            && Replayed(user.history + [note]) == Advance(Replayed(user.history), note)
  {
    Extend(permissions, user.history, Note(PeerJoinedRoom(user.room.value, actor, DefaultDisplayName(actor)), {}, at));
  }

  lemma EntersItself(permissions: Permissions, members: Members, members': Members, time: nat, time': nat,
                     actor: UserUid, user: User, roomId: Uuid, at: nat)
    requires UserOk(permissions, members, time, actor, user) && user.announced && user.room != Some(roomId)
    requires at < time'
    requires permissions.IsAllowed(actor, roomId, Join)
    requires MembersOf(members', roomId) == MembersOf(members, roomId) + {actor}
    ensures var note := Note(VoiceRoomJoined(roomId), OtherMembers(members, roomId, actor), at);
            && UserOk(permissions, members', time', actor, user.(room := Some(roomId), history := user.history + [note]))
            && Replayed(user.history + [note]) == Advance(Replayed(user.history), note)
  {
    Extend(permissions, user.history, Note(VoiceRoomJoined(roomId), OtherMembers(members, roomId, actor), at));
    assert OtherMembers(members', roomId, actor) == OtherMembers(members, roomId, actor);
  }

  lemma LeavesItself(permissions: Permissions, members: Members, members': Members, time: nat, time': nat,
                     actor: UserUid, user: User, at: nat)
    requires UserOk(permissions, members, time, actor, user) && user.room.Some?
    ensures var note := Note(VoiceRoomLeft(user.room.value), {}, at);
            && UserOk(permissions, members', time', actor, user.(room := None, history := user.history + [note]))
            && Replayed(user.history + [note]) == Advance(Replayed(user.history), note)
  {
    Extend(permissions, user.history, Note(VoiceRoomLeft(user.room.value), {}, at));
  }

  // ----- Entering -----

  ghost predicate MembersMoved(members: Members, members': Members, actor: UserUid, to: Option<Uuid>) {
    && (forall r :: r in members' ==> members'[r] != {})
    && forall r :: MembersOf(members', r) ==
         if to == Some(r) then MembersOf(members, r) + {actor} else MembersOf(members, r) - {actor}
  }

  function AdvanceBy(s: Standing, notes: seq<Note>): Standing {
    if notes == [] then s else Advance(s, notes[0])
  }

  lemma AdvanceByNotes(history: seq<Note>, notes: seq<Note>)
    requires |notes| <= 1
    ensures Replayed(history + notes) == AdvanceBy(Replayed(history), notes)
  {
    if notes == [] {
      assert history + notes == history;
    } else {
      assert history + notes == history + [notes[0]];
      assert (history + [notes[0]])[..|history|] == history;
    }
  }

  lemma EntryKeepsObserver(lobby: Lobby, members': Members, time': nat, actor: UserUid, roomId: Uuid,
                           permissions: Permissions, uid: UserUid)
    requires RegistryOk(permissions, lobby) && Enters(lobby, actor, roomId, permissions)
    requires uid in lobby.users && uid != actor && time' >= lobby.time
    requires UserOk(permissions, lobby.members, lobby.time, uid, lobby.users[uid])
    requires MembersMoved(lobby.members, members', actor, Some(roomId))
    ensures var user := lobby.users[uid];
            var notes := EntryNotes(lobby, actor, roomId, uid);
            && UserOk(permissions, members', time', uid, user.(history := user.history + notes))
            && Replayed(user.history + notes) == AdvanceBy(Replayed(user.history), notes)
  {
    var user := lobby.users[uid];
    var from := lobby.users[actor].room;
    var first := if from.Some? then lobby.time + 1 else lobby.time;
    if from.Some? && user.room == from {
      SeesDeparture(permissions, lobby.members, members', lobby.time, time', actor, uid, user, lobby.time);
    } else if user.room == Some(roomId) {
      SeesArrival(permissions, lobby.members, members', lobby.time, time', actor, uid, user, first + 1);
    } else {
      assert user.history + [] == user.history;
    }
  }

  lemma EntryKeepsUser(lobby: Lobby, members': Members, time': nat, actor: UserUid, roomId: Uuid,
                       permissions: Permissions, uid: UserUid)
    requires RegistryOk(permissions, lobby) && Enters(lobby, actor, roomId, permissions)
    requires lobby.users[actor].announced && uid in lobby.users
    requires UserOk(permissions, lobby.members, lobby.time, uid, lobby.users[uid])
    requires MembersMoved(lobby.members, members', actor, Some(roomId))
    requires time' >= lobby.time + if lobby.users[actor].room.Some? then 3 else 2
    ensures var user := lobby.users[uid];
            var notes := EntryNotes(lobby, actor, roomId, uid);
            && UserOk(permissions, members', time', uid,
                      User(if uid == actor then Some(roomId) else user.room, user.history + notes, user.announced))
            && Replayed(user.history + notes) == AdvanceBy(Replayed(user.history), notes)
  {
    if uid == actor {
      var first := if lobby.users[actor].room.Some? then lobby.time + 1 else lobby.time;
      EntersItself(permissions, lobby.members, members', lobby.time, time', actor, lobby.users[uid], roomId, first);
    } else {
      EntryKeepsObserver(lobby, members', time', actor, roomId, permissions, uid);
    }
  }

  lemma EntryDelivers(lobby: Lobby, actor: UserUid, roomId: Uuid, permissions: Permissions, uid: UserUid)
    requires RegistryOk(permissions, lobby) && Enters(lobby, actor, roomId, permissions) && uid in lobby.users
    ensures var after := Deliver(lobby, actor, Entry(lobby, actor, roomId, permissions));
            var user := lobby.users[uid];
            && after.users.Keys == lobby.users.Keys
            && after.users[uid] == User(if uid == actor then Some(roomId) else user.room,
                                        user.history + EntryNotes(lobby, actor, roomId, uid), user.announced)
            && after.time == lobby.time + (if lobby.users[actor].room.Some? then 3 else 2)
            && MembersMoved(lobby.members, after.members, actor, Some(roomId))
  {
    EntryEffect(lobby, actor, roomId, permissions);
    EntryIsSeen(lobby, actor, roomId, permissions, uid);
    EntryMembers(lobby, actor, roomId, permissions);
  }

  ghost predicate Ordered(s: Standing, t: Standing, v: UserUid) {
    s.joinedAt != t.joinedAt && (v in s.view <==> s.joinedAt < t.joinedAt)
  }

  /** The newcomer is the last of the join order: everybody in the room sees it arrive, it sees nobody arrive. */
  lemma EntryOrders(lobby: Lobby, actor: UserUid, roomId: Uuid, u: UserUid, v: UserUid, s: Standing, t: Standing)
    requires actor in lobby.users && u in lobby.users && v in lobby.users && u != v
    requires lobby.users[actor].room != Some(roomId)
    requires u != actor && v != actor ==>
      lobby.users[u].room.Some? && lobby.users[u].room == lobby.users[v].room && Ordered(s, t, v)
    requires u == actor ==> lobby.users[v].room == Some(roomId)
    requires v == actor ==> lobby.users[u].room == Some(roomId)
    requires u != actor ==> s.joinedAt < lobby.time
    requires v != actor ==> t.joinedAt < lobby.time
    ensures Ordered(AdvanceBy(s, EntryNotes(lobby, actor, roomId, u)), AdvanceBy(t, EntryNotes(lobby, actor, roomId, v)), v)
  {
  }

  /** A user's room and history after an entry. */
  lemma EntryStanding(permissions: Permissions, lobby: Lobby, actor: UserUid, roomId: Uuid, uid: UserUid)
    requires RegistryOk(permissions, lobby) && Enters(lobby, actor, roomId, permissions) && uid in lobby.users
    ensures var after := Deliver(lobby, actor, Entry(lobby, actor, roomId, permissions));
            var notes := EntryNotes(lobby, actor, roomId, uid);
            && uid in after.users
            && after.users[uid].room == (if uid == actor then Some(roomId) else lobby.users[uid].room)
            && after.users[uid].history == lobby.users[uid].history + notes
            && Replayed(after.users[uid].history) == AdvanceBy(Replayed(lobby.users[uid].history), notes)
  {
    EntryDelivers(lobby, actor, roomId, permissions, uid);
    AdvanceByNotes(lobby.users[uid].history, EntryNotes(lobby, actor, roomId, uid));
  }

  lemma EntryKeepsPair(permissions: Permissions, lobby: Lobby, after: Lobby, actor: UserUid, roomId: Uuid,
                       u: UserUid, v: UserUid)
    requires RegistryOk(permissions, lobby)
    requires u in lobby.users && UserOk(permissions, lobby.members, lobby.time, u, lobby.users[u])
    requires v in lobby.users && UserOk(permissions, lobby.members, lobby.time, v, lobby.users[v])
    requires SameRoom(lobby, u, v) ==> PairOk(lobby, u, v)
    requires Enters(lobby, actor, roomId, permissions)
    requires after == Deliver(lobby, actor, Entry(lobby, actor, roomId, permissions))
    requires SameRoom(after, u, v)
    ensures PairOk(after, u, v)
  {
    EntryStanding(permissions, lobby, actor, roomId, u);
    EntryStanding(permissions, lobby, actor, roomId, v);
    EntryOrders(lobby, actor, roomId, u, v, Replayed(lobby.users[u].history), Replayed(lobby.users[v].history));
  }

  lemma EnteredRegistry(permissions: Permissions, lobby: Lobby, after: Lobby, actor: UserUid, roomId: Uuid)
    requires RegistryOk(permissions, lobby) && MembersMoved(lobby.members, after.members, actor, Some(roomId))
    requires actor in lobby.users && after.users.Keys == lobby.users.Keys && permissions.IsAllowed(actor, roomId, Join)
    requires forall u :: u in lobby.users ==> after.users[u].room == if u == actor then Some(roomId) else lobby.users[u].room
    ensures RegistryOk(permissions, after)
  {
  }

  lemma EntryKeepsRegistry(permissions: Permissions, lobby: Lobby, actor: UserUid, roomId: Uuid)
    requires RegistryOk(permissions, lobby) && Enters(lobby, actor, roomId, permissions)
    ensures RegistryOk(permissions, Deliver(lobby, actor, Entry(lobby, actor, roomId, permissions)))
  {
    var after := Deliver(lobby, actor, Entry(lobby, actor, roomId, permissions));
    forall u | u in lobby.users
      ensures after.users[u].room == if u == actor then Some(roomId) else lobby.users[u].room
    {
      EntryDelivers(lobby, actor, roomId, permissions, u);
    }
    assert MembersMoved(lobby.members, after.members, actor, Some(roomId)) && after.users.Keys == lobby.users.Keys by {
      EntryDelivers(lobby, actor, roomId, permissions, actor);
    }
    EnteredRegistry(permissions, lobby, after, actor, roomId);
  }

  lemma EntryKeepsLobby(permissions: Permissions, lobby: Lobby, actor: UserUid, roomId: Uuid)
    requires LobbyOk(permissions, lobby)
    requires Enters(lobby, actor, roomId, permissions) && lobby.users[actor].announced
    ensures LobbyOk(permissions, Deliver(lobby, actor, Entry(lobby, actor, roomId, permissions)))
  {
    var after := Deliver(lobby, actor, Entry(lobby, actor, roomId, permissions));
    forall u | u in after.users
      ensures UserOk(permissions, after.members, after.time, u, after.users[u])
    {
      EntryDelivers(lobby, actor, roomId, permissions, u);
      EntryKeepsUser(lobby, after.members, after.time, actor, roomId, permissions, u);
    }
    forall u, v | SameRoom(after, u, v) ensures PairOk(after, u, v) {
      EntryKeepsPair(permissions, lobby, after, actor, roomId, u, v);
    }
    EntryKeepsRegistry(permissions, lobby, actor, roomId);
  }

  // ----- Leaving -----

  /** What a user is sent when `actor` gives up its room; `quits` when its connection is gone as well. */
  function ExitNotes(lobby: Lobby, actor: UserUid, quits: bool, uid: UserUid): seq<Note>
    requires actor in lobby.users && lobby.users[actor].room.Some? && uid in lobby.users
  {
    var room := lobby.users[actor].room.value;
    if uid == actor then (if quits then [] else [Note(VoiceRoomLeft(room), {}, lobby.time)])
    else if lobby.users[uid].room == Some(room) then
      [Note(PeerLeftRoom(room, actor), {}, if quits then lobby.time else lobby.time + 1)]
    else []
  }

  predicate Leaves(lobby: Lobby, actor: UserUid) {
    actor in lobby.users && lobby.users[actor].room.Some?
  }

  function Exit(lobby: Lobby, actor: UserUid, permissions: Permissions): Effect
    requires Leaves(lobby, actor)
  {
    HandleAuthenticatedMessage(lobby.members, SessionOf(actor, lobby.users[actor].room),
                               LeaveVoiceRoom(lobby.users[actor].room.value), 0, permissions)
  }

  function ExitSends(lobby: Lobby, actor: UserUid): seq<Outgoing>
    requires Leaves(lobby, actor)
  {
    var room := lobby.users[actor].room.value;
    [Outgoing({actor}, VoiceRoomLeft(room)),
     Outgoing(OtherMembers(lobby.members, room, actor), PeerLeftRoom(room, actor))]
  }

  lemma ExitEffect(lobby: Lobby, actor: UserUid, permissions: Permissions)
    requires Leaves(lobby, actor)
    ensures Exit(lobby, actor, permissions)
         == Effect(ExitMembers(lobby, actor), SessionOf(actor, None), ExitSends(lobby, actor))
  {
  }

  lemma ExitIsSeen(lobby: Lobby, actor: UserUid, permissions: Permissions, uid: UserUid)
    requires RegistryOk(permissions, lobby) && Leaves(lobby, actor) && uid in lobby.users
    ensures NotesFor(ExitSends(lobby, actor), lobby.members, lobby.time, uid) == ExitNotes(lobby, actor, false, uid)
  {
    var room := lobby.users[actor].room.value;
    TwoNotes(Outgoing({actor}, VoiceRoomLeft(room)),
             Outgoing(OtherMembers(lobby.members, room, actor), PeerLeftRoom(room, actor)),
             lobby.members, lobby.time, uid);
  }

  lemma ExitDelivers(lobby: Lobby, actor: UserUid, permissions: Permissions, uid: UserUid)
    requires RegistryOk(permissions, lobby) && Leaves(lobby, actor) && uid in lobby.users
    ensures var after := Deliver(lobby, actor, Exit(lobby, actor, permissions));
            var user := lobby.users[uid];
            && after.users.Keys == lobby.users.Keys
            && after.users[uid] == User(if uid == actor then None else user.room,
                                        user.history + ExitNotes(lobby, actor, false, uid), user.announced)
            && after.time == lobby.time + 2
            && MembersMoved(lobby.members, after.members, actor, None)
  {
    ExitEffect(lobby, actor, permissions);
    ExitIsSeen(lobby, actor, permissions, uid);
    ExitMembersOf(lobby, actor, permissions);
  }

  lemma RemoveDelivers(lobby: Lobby, actor: UserUid, permissions: Permissions, uid: UserUid)
    requires RegistryOk(permissions, lobby) && Leaves(lobby, actor) && uid in lobby.users && uid != actor
    ensures var after := Remove(lobby, actor);
            var user := lobby.users[uid];
            && after.users.Keys == lobby.users.Keys - {actor}
            && after.users[uid] == User(user.room, user.history + ExitNotes(lobby, actor, true, uid), user.announced)
            && after.time == lobby.time + 1
            && MembersMoved(lobby.members, after.members, actor, None)
  {
    var room := lobby.users[actor].room.value;
    OneNote(Outgoing(OtherMembers(lobby.members, room, actor), PeerLeftRoom(room, actor)),
            lobby.members, lobby.time, uid);
    ExitMembersOf(lobby, actor, permissions);
  }

  lemma ExitKeepsUser(lobby: Lobby, members': Members, time': nat, actor: UserUid, quits: bool,
                      permissions: Permissions, uid: UserUid)
    requires RegistryOk(permissions, lobby) && Leaves(lobby, actor) && uid in lobby.users
    requires quits ==> uid != actor
    requires UserOk(permissions, lobby.members, lobby.time, uid, lobby.users[uid])
    requires MembersMoved(lobby.members, members', actor, None) && time' >= lobby.time
    ensures var user := lobby.users[uid];
            var notes := ExitNotes(lobby, actor, quits, uid);
            && UserOk(permissions, members', time', uid,
                      User(if uid == actor then None else user.room, user.history + notes, user.announced))
            && Replayed(user.history + notes) == AdvanceBy(Replayed(user.history), notes)
  {
    var user := lobby.users[uid];
    var at := if quits then lobby.time else lobby.time + 1;
    if uid == actor {
      LeavesItself(permissions, lobby.members, members', lobby.time, time', actor, user, lobby.time);
    } else if user.room == lobby.users[actor].room {
      SeesDeparture(permissions, lobby.members, members', lobby.time, time', actor, uid, user, at);
    } else {
      assert user.history + [] == user.history;
    }
  }

  /** A user's room and history when the actor leaves or disconnects. */
  lemma ExitStanding(permissions: Permissions, lobby: Lobby, after: Lobby, actor: UserUid, quits: bool, uid: UserUid)
    requires RegistryOk(permissions, lobby) && uid in lobby.users
    requires Leaves(lobby, actor) && (quits ==> uid != actor)
    requires after == if quits then Remove(lobby, actor) else Deliver(lobby, actor, Exit(lobby, actor, permissions))
    ensures var notes := ExitNotes(lobby, actor, quits, uid);
            && uid in after.users
            && after.users[uid].room == (if uid == actor then None else lobby.users[uid].room)
            && after.users[uid].history == lobby.users[uid].history + notes
            && Replayed(after.users[uid].history) == AdvanceBy(Replayed(lobby.users[uid].history), notes)
  {
    if quits {
      RemoveDelivers(lobby, actor, permissions, uid);
    } else {
      ExitDelivers(lobby, actor, permissions, uid);
    }
    AdvanceByNotes(lobby.users[uid].history, ExitNotes(lobby, actor, quits, uid));
  }

  /** Whoever stays in a room keeps its order; only the one that left drops out of the views. */
  lemma ExitOrders(lobby: Lobby, actor: UserUid, quits: bool, u: UserUid, v: UserUid, s: Standing, t: Standing)
    requires Leaves(lobby, actor) && u in lobby.users && v in lobby.users && u != actor && v != actor
    requires Ordered(s, t, v)
    ensures Ordered(AdvanceBy(s, ExitNotes(lobby, actor, quits, u)), AdvanceBy(t, ExitNotes(lobby, actor, quits, v)), v)
  {
  }

  lemma ExitKeepsPair(permissions: Permissions, lobby: Lobby, after: Lobby, actor: UserUid, quits: bool,
                      u: UserUid, v: UserUid)
    requires RegistryOk(permissions, lobby)
    requires u in lobby.users && UserOk(permissions, lobby.members, lobby.time, u, lobby.users[u])
    requires v in lobby.users && UserOk(permissions, lobby.members, lobby.time, v, lobby.users[v])
    requires SameRoom(lobby, u, v) ==> PairOk(lobby, u, v)
    requires Leaves(lobby, actor) && (quits ==> u != actor && v != actor)
    requires after == if quits then Remove(lobby, actor) else Deliver(lobby, actor, Exit(lobby, actor, permissions))
    requires SameRoom(after, u, v)
    ensures PairOk(after, u, v)
  {
    ExitStanding(permissions, lobby, after, actor, quits, u);
    ExitStanding(permissions, lobby, after, actor, quits, v);
    ExitOrders(lobby, actor, quits, u, v, Replayed(lobby.users[u].history), Replayed(lobby.users[v].history));
  }

  lemma MovedRegistry(permissions: Permissions, lobby: Lobby, after: Lobby, actor: UserUid)
    requires RegistryOk(permissions, lobby) && MembersMoved(lobby.members, after.members, actor, None)
    requires forall u :: u in after.users && u != actor ==> u in lobby.users && after.users[u].room == lobby.users[u].room
    requires forall u :: u in lobby.users && u != actor ==> u in after.users
    requires actor in after.users ==> after.users[actor].room.None?
    ensures RegistryOk(permissions, after)
  {
  }

  lemma ExitKeepsLobby(permissions: Permissions, lobby: Lobby, actor: UserUid)
    requires LobbyOk(permissions, lobby) && Leaves(lobby, actor)
    ensures LobbyOk(permissions, Deliver(lobby, actor, Exit(lobby, actor, permissions)))
  {
    var after := Deliver(lobby, actor, Exit(lobby, actor, permissions));
    forall u | u in after.users
      ensures UserOk(permissions, after.members, after.time, u, after.users[u])
    {
      ExitDelivers(lobby, actor, permissions, u);
      ExitKeepsUser(lobby, after.members, after.time, actor, false, permissions, u);
    }
    forall u, v | SameRoom(after, u, v) ensures PairOk(after, u, v) {
      ExitKeepsPair(permissions, lobby, after, actor, false, u, v);
    }
    forall u | u in lobby.users ensures after.users[u].room == if u == actor then None else lobby.users[u].room {
      ExitDelivers(lobby, actor, permissions, u);
    }
    ExitDelivers(lobby, actor, permissions, actor);
    MovedRegistry(permissions, lobby, after, actor);
  }

  lemma RemoveQuietly(lobby: Lobby, actor: UserUid)
    requires actor in lobby.users && lobby.users[actor].room.None?
    ensures Remove(lobby, actor) == lobby.(users := lobby.users - {actor})
  {
    var after := Remove(lobby, actor);
    forall u | u in after.users ensures after.users[u] == lobby.users[u] {
      assert lobby.users[u].history + [] == lobby.users[u].history;
    }
    assert after.users == lobby.users - {actor};
  }

  lemma RemoveKeepsLobby(permissions: Permissions, lobby: Lobby, actor: UserUid)
    requires LobbyOk(permissions, lobby) && actor in lobby.users
    ensures LobbyOk(permissions, Remove(lobby, actor))
  {
    var after := Remove(lobby, actor);
    if lobby.users[actor].room.Some? {
      forall u | u in after.users
        ensures UserOk(permissions, after.members, after.time, u, after.users[u])
        ensures after.users[u].room == lobby.users[u].room
      {
        RemoveDelivers(lobby, actor, permissions, u);
        ExitKeepsUser(lobby, after.members, after.time, actor, true, permissions, u);
      }
      forall u, v | SameRoom(after, u, v) ensures PairOk(after, u, v) {
        ExitKeepsPair(permissions, lobby, after, actor, true, u, v);
      }
      assert MembersMoved(lobby.members, after.members, actor, None) by {
        ExitMembersOf(lobby, actor, permissions);
      }
      MovedRegistry(permissions, lobby, after, actor);
    } else {
      RemoveQuietly(lobby, actor);
      assert after.members == lobby.members && after.time == lobby.time;
      assert MembersMoved(lobby.members, after.members, actor, None);
      MovedRegistry(permissions, lobby, after, actor);
      forall u, v | SameRoom(after, u, v) ensures PairOk(after, u, v) {
        assert SameRoom(lobby, u, v);
      }
    }
  }

  // ----- Relaying -----

  /** A text or signal that passes all checks changes nothing but the recipients' histories. */
  function Relay(lobby: Lobby, outgoing: Outgoing): Lobby {
    Lobby(lobby.members,
          map w | w in lobby.users ::
            lobby.users[w].(history := lobby.users[w].history + NoteFor(outgoing, lobby.members, lobby.time, w)),
          lobby.time + 1)
  }

  /** Recipients of a relayed message share its room with the sender; text never returns to the sender. */
  predicate MayRelay(permissions: Permissions, lobby: Lobby, actor: UserUid, outgoing: Outgoing) {
    match outgoing.message
    case BroadcastTextMessage(room, sender, name, _, _) =>
      && sender == actor && actor in MembersOf(lobby.members, room)
      && name == DefaultDisplayName(actor) && permissions.IsAllowed(actor, room, Write)
      && outgoing.to == OtherMembers(lobby.members, room, actor)
    case ForwardWebRtcSdp(room, sender, _, _) =>
      && sender == actor && actor in MembersOf(lobby.members, room) && permissions.IsAllowed(actor, room, Signal)
      && outgoing.to <= MembersOf(lobby.members, room)
    case ForwardWebRtcIce(room, sender, _) =>
      && sender == actor && actor in MembersOf(lobby.members, room) && permissions.IsAllowed(actor, room, Signal)
      && outgoing.to <= MembersOf(lobby.members, room)
    case _ => false
  }

  lemma RelayIsAdmitted(permissions: Permissions, lobby: Lobby, actor: UserUid, outgoing: Outgoing, uid: UserUid)
    requires RegistryOk(permissions, lobby) && MayRelay(permissions, lobby, actor, outgoing)
    requires uid in lobby.users && UserOk(permissions, lobby.members, lobby.time, uid, lobby.users[uid])
    requires uid in outgoing.to
    ensures Admits(permissions, Replayed(lobby.users[uid].history), Note(outgoing.message, {}, lobby.time))
    ensures lobby.users[uid].room == Some(outgoing.message.roomId) && uid in MembersOf(lobby.members, outgoing.message.roomId)
    ensures outgoing.message.senderUid in OtherMembers(lobby.members, outgoing.message.roomId, uid) + {uid}
  {
  }

  lemma HearsRelay(permissions: Permissions, lobby: Lobby, actor: UserUid, outgoing: Outgoing, uid: UserUid)
    requires RegistryOk(permissions, lobby) && MayRelay(permissions, lobby, actor, outgoing)
    requires uid in lobby.users && UserOk(permissions, lobby.members, lobby.time, uid, lobby.users[uid])
    requires uid in outgoing.to
    ensures var note := Note(outgoing.message, {}, lobby.time);
            var user := lobby.users[uid];
            && UserOk(permissions, lobby.members, lobby.time + 1, uid, user.(history := user.history + [note]))
            && Replayed(user.history + [note]) == Advance(Replayed(user.history), note)
  {
    RelayIsAdmitted(permissions, lobby, actor, outgoing, uid);
    Extend(permissions, lobby.users[uid].history, Note(outgoing.message, {}, lobby.time));
  }

  lemma RelayKeepsUser(permissions: Permissions, lobby: Lobby, actor: UserUid, outgoing: Outgoing, uid: UserUid)
    requires RegistryOk(permissions, lobby) && MayRelay(permissions, lobby, actor, outgoing)
    requires uid in lobby.users && UserOk(permissions, lobby.members, lobby.time, uid, lobby.users[uid])
    ensures var notes := NoteFor(outgoing, lobby.members, lobby.time, uid);
            var user := lobby.users[uid];
            && UserOk(permissions, lobby.members, lobby.time + 1, uid, user.(history := user.history + notes))
            && Replayed(user.history + notes) == AdvanceBy(Replayed(user.history), notes)
  {
    var user := lobby.users[uid];
    if uid in outgoing.to {
      HearsRelay(permissions, lobby, actor, outgoing, uid);
    } else {
      assert user.history + [] == user.history;
    }
  }

  lemma RelayOrders(permissions: Permissions, lobby: Lobby, actor: UserUid, outgoing: Outgoing,
                    u: UserUid, v: UserUid, s: Standing, t: Standing)
    requires MayRelay(permissions, lobby, actor, outgoing) && Ordered(s, t, v)
    ensures Ordered(AdvanceBy(s, NoteFor(outgoing, lobby.members, lobby.time, u)),
                    AdvanceBy(t, NoteFor(outgoing, lobby.members, lobby.time, v)), v)
  {
  }

  lemma RelayKeepsPair(permissions: Permissions, lobby: Lobby, actor: UserUid, outgoing: Outgoing, u: UserUid, v: UserUid)
    requires RegistryOk(permissions, lobby) && MayRelay(permissions, lobby, actor, outgoing)
    requires u in lobby.users && UserOk(permissions, lobby.members, lobby.time, u, lobby.users[u])
    requires v in lobby.users && UserOk(permissions, lobby.members, lobby.time, v, lobby.users[v])
    requires PairOk(lobby, u, v)
    ensures PairOk(Relay(lobby, outgoing), u, v)
  {
    RelayKeepsUser(permissions, lobby, actor, outgoing, u);
    RelayKeepsUser(permissions, lobby, actor, outgoing, v);
    RelayOrders(permissions, lobby, actor, outgoing, u, v,
                Replayed(lobby.users[u].history), Replayed(lobby.users[v].history));
  }

  lemma RelayKeepsLobby(permissions: Permissions, lobby: Lobby, actor: UserUid, outgoing: Outgoing)
    requires LobbyOk(permissions, lobby) && MayRelay(permissions, lobby, actor, outgoing)
    ensures LobbyOk(permissions, Relay(lobby, outgoing))
  {
    var after := Relay(lobby, outgoing);
    forall u | u in lobby.users
      ensures UserOk(permissions, after.members, after.time, u, after.users[u])
    {
      RelayKeepsUser(permissions, lobby, actor, outgoing, u);
    }
    forall u, v | SameRoom(after, u, v) ensures PairOk(after, u, v) {
      assert SameRoom(lobby, u, v);
      RelayKeepsPair(permissions, lobby, actor, outgoing, u, v);
    }
  }

  // ----- Any message of a registered user -----

  datatype RoomEventKind = Nothing | Entering(roomId: Uuid) | Exiting | Relaying(outgoing: Outgoing)

  /** Which of the four things a message of a user in room `room` amounts to. */
  function Kind(members: Members, session: SessionData, message: ClientMessage, timestamp: U64, permissions: Permissions)
    : RoomEventKind
  {
    match message
    case JoinVoiceRoom(roomId) =>
      if permissions.IsAllowed(session.userUid, roomId, Join) && session.activeVoiceRoomId != Some(roomId)
      then Entering(roomId) else Nothing
    case LeaveVoiceRoom(roomId) => if session.activeVoiceRoomId == Some(roomId) then Exiting else Nothing
    case _ =>
      match RouteClientRoomMessage(members, session, message, timestamp, permissions)
      case Ok(routed) => Relaying(Outgoing(routed.recipients, routed.message))
      case Err(_) => Nothing
  }

  function KindOf(lobby: Lobby, actor: UserUid, message: ClientMessage, timestamp: U64, permissions: Permissions)
    : RoomEventKind
    requires actor in lobby.users
  {
    Kind(lobby.members, SessionOf(actor, lobby.users[actor].room), message, timestamp, permissions)
  }

  lemma RelayIsDeliver(lobby: Lobby, actor: UserUid, outgoing: Outgoing)
    requires actor in lobby.users && !outgoing.message.VoiceRoomJoined?
    ensures Deliver(lobby, actor, Effect(lobby.members, SessionOf(actor, lobby.users[actor].room), [outgoing]))
         == Relay(lobby, outgoing)
  {
    forall u | u in lobby.users {
      OneNote(outgoing, lobby.members, lobby.time, u);
    }
  }

  lemma NothingIsDeliver(lobby: Lobby, actor: UserUid)
    requires actor in lobby.users
    ensures Deliver(lobby, actor, Effect(lobby.members, SessionOf(actor, lobby.users[actor].room), [])) == lobby
  {
    forall u | u in lobby.users ensures lobby.users[u].history + [] == lobby.users[u].history {
    }
    assert Deliver(lobby, actor, Effect(lobby.members, SessionOf(actor, lobby.users[actor].room), [])).users == lobby.users;
  }

  lemma RelayingMayRelay(permissions: Permissions, lobby: Lobby, actor: UserUid, message: ClientMessage, timestamp: U64)
    requires actor in lobby.users
    ensures var kind := KindOf(lobby, actor, message, timestamp, permissions);
            kind.Relaying? ==> MayRelay(permissions, lobby, actor, kind.outgoing)
  {
  }

  lemma EffectOfKind(members: Members, session: SessionData, message: ClientMessage, timestamp: U64, permissions: Permissions)
    ensures var effect := HandleAuthenticatedMessage(members, session, message, timestamp, permissions);
            match Kind(members, session, message, timestamp, permissions)
            case Nothing => effect == Effect(members, session, [])
            case Entering(roomId) =>
              effect == HandleAuthenticatedMessage(members, session, JoinVoiceRoom(roomId), 0, permissions)
            case Exiting => message == LeaveVoiceRoom(session.activeVoiceRoomId.value)
            case Relaying(outgoing) => effect == Effect(members, session, [outgoing])
  {
  }

  lemma ExitIgnoresTime(lobby: Lobby, actor: UserUid, timestamp: U64, permissions: Permissions)
    requires Leaves(lobby, actor)
    ensures HandleAuthenticatedMessage(lobby.members, SessionOf(actor, lobby.users[actor].room),
                                       LeaveVoiceRoom(lobby.users[actor].room.value), timestamp, permissions)
         == Exit(lobby, actor, permissions)
  {
  }

  /** Every message a registered user can send is a no-op, an entry, an exit or a relay. */
  lemma RoomEventCases(permissions: Permissions, lobby: Lobby, actor: UserUid, message: ClientMessage, timestamp: U64)
    requires actor in lobby.users
    ensures var after := RoomEvent(lobby, actor, message, timestamp, permissions);
            match KindOf(lobby, actor, message, timestamp, permissions)
            case Nothing => after == lobby
            case Entering(roomId) =>
              Enters(lobby, actor, roomId, permissions)
              && after == Deliver(lobby, actor, Entry(lobby, actor, roomId, permissions))
            case Exiting => Leaves(lobby, actor) && after == Deliver(lobby, actor, Exit(lobby, actor, permissions))
            case Relaying(outgoing) =>
              MayRelay(permissions, lobby, actor, outgoing) && after == Relay(lobby, outgoing)
  {
    EffectOfKind(lobby.members, SessionOf(actor, lobby.users[actor].room), message, timestamp, permissions);
    match KindOf(lobby, actor, message, timestamp, permissions)
    case Nothing => NothingIsDeliver(lobby, actor);
    case Entering(roomId) =>
    case Exiting => ExitIgnoresTime(lobby, actor, timestamp, permissions);
    case Relaying(outgoing) =>
      RelayingMayRelay(permissions, lobby, actor, message, timestamp);
      RelayIsDeliver(lobby, actor, outgoing);
  }

  lemma RoomEventKeepsLobby(permissions: Permissions, lobby: Lobby, actor: UserUid, message: ClientMessage, timestamp: U64)
    requires LobbyOk(permissions, lobby) && actor in lobby.users && lobby.users[actor].announced
    ensures LobbyOk(permissions, RoomEvent(lobby, actor, message, timestamp, permissions))
  {
    RoomEventCases(permissions, lobby, actor, message, timestamp);
    match KindOf(lobby, actor, message, timestamp, permissions)
    case Nothing =>
    case Entering(roomId) => EntryKeepsLobby(permissions, lobby, actor, roomId);
    case Exiting => ExitKeepsLobby(permissions, lobby, actor);
    case Relaying(outgoing) => RelayKeepsLobby(permissions, lobby, actor, outgoing);
  }

  // ----- Registration -----

  lemma AddKeepsLobby(permissions: Permissions, lobby: Lobby, uid: UserUid, history: seq<Note>)
    requires LobbyOk(permissions, lobby) && uid !in lobby.users
    requires Legal(permissions, history) && Replayed(history) == NOWHERE
    ensures LobbyOk(permissions, Add(lobby, uid, history))
  {
    var after := Add(lobby, uid, history);
    forall u, v | SameRoom(after, u, v) ensures PairOk(after, u, v) {
      assert SameRoom(lobby, u, v);
    }
  }

  lemma AnnounceKeepsUser(permissions: Permissions, members: Members, time: nat, uid: UserUid, user: User)
    requires UserOk(permissions, members, time, uid, user) && !user.announced
    ensures var note := Note(AuthSuccess(uid, DefaultDisplayName(uid), SERVER_NAME), {}, time);
            UserOk(permissions, members, time + 1, uid, user.(history := user.history + [note], announced := true))
  {
    Extend(permissions, user.history, Note(AuthSuccess(uid, DefaultDisplayName(uid), SERVER_NAME), {}, time));
  }

  lemma AnnounceKeepsLobby(permissions: Permissions, lobby: Lobby, uid: UserUid)
    requires LobbyOk(permissions, lobby) && uid in lobby.users && !lobby.users[uid].announced
    ensures LobbyOk(permissions, Announce(lobby, uid))
  {
    var after := Announce(lobby, uid);
    forall u | u in after.users ensures UserOk(permissions, after.members, after.time, u, after.users[u]) {
      assert UserOk(permissions, lobby.members, lobby.time, u, lobby.users[u]);
      if u == uid {
        AnnounceKeepsUser(permissions, lobby.members, lobby.time, uid, lobby.users[uid]);
      }
    }
    forall u, v | SameRoom(after, u, v) ensures PairOk(after, u, v) {
      assert UserOk(permissions, lobby.members, lobby.time, uid, lobby.users[uid]);
      assert SameRoom(lobby, u, v);
    }
  }

  /** Sends to connections that are not registered only move the clock. */
  lemma TimeKeepsLobby(permissions: Permissions, lobby: Lobby, time': nat)
    requires LobbyOk(permissions, lobby) && time' >= lobby.time
    ensures LobbyOk(permissions, lobby.(time := time'))
  {
    var after := lobby.(time := time');
    forall u, v | SameRoom(after, u, v) ensures PairOk(after, u, v) {
      assert SameRoom(lobby, u, v);
    }
  }
}
