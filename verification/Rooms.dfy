/** Voice-room membership (server/src/lib.rs): permissions, sessions, the room registry as a
    function on values, and the partial function from users to rooms it stands for. */
module Rooms {
  import opened Protocol

  datatype RoomAction = Join | Speak | Write | Signal | ManageRoom

  /** A permission evaluator: what a user may do against what a room asks for. */
  datatype Permissions = Permissions(
    effectivePower: (UserUid, RoomAction) -> U16,
    requiredPower: (Uuid, RoomAction) -> U16)
  {
    predicate IsAllowed(userUid: UserUid, roomId: Uuid, action: RoomAction) {
      effectivePower(userUid, action) >= requiredPower(roomId, action)
    }
  }

  function AllowAllPermissions(): (p: Permissions)
    ensures forall u, r, a :: p.IsAllowed(u, r, a)
  {
    Permissions((_, _) => 1, (_, _) => 0)
  }

  datatype SessionData = SessionData(userUid: UserUid, displayName: string, activeVoiceRoomId: Option<Uuid>)

  type Members = map<Uuid, set<UserUid>>

  datatype VoiceRoomTransition =
    | NoChange
    | Joined(roomId: Uuid)
    | Switched(fromRoomId: Uuid, toRoomId: Uuid)
    | Left(roomId: Uuid)

  datatype RoomJoinError = JoinDenied

  datatype RoomRoutingError =
    | PermissionDenied(action: RoomAction)
    | SenderNotInActiveVoiceRoom
    | TargetNotInActiveVoiceRoom
    | UnsupportedClientMessage

  datatype RoutedServerMessage = RoutedServerMessage(recipients: set<UserUid>, message: ServerMessage)

  /** A missing room is a room without members. */
  function MembersOf(members: Members, roomId: Uuid): set<UserUid> {
    if roomId in members then members[roomId] else {}
  }

  function OtherMembers(members: Members, roomId: Uuid, userUid: UserUid): set<UserUid> {
    MembersOf(members, roomId) - {userUid}
  }

  function WithMember(members: Members, roomId: Uuid, userUid: UserUid): Members {
    members[roomId := MembersOf(members, roomId) + {userUid}]
  }

  function WithoutMember(members: Members, roomId: Uuid, userUid: UserUid): Members {
    if roomId !in members then members
    else if members[roomId] - {userUid} == {} then members - {roomId}
    else members[roomId := members[roomId] - {userUid}]
  }

  datatype JoinOutcome = JoinOutcome(
    members: Members, session: SessionData, result: Result<VoiceRoomTransition, RoomJoinError>)

  function JoinVoiceRoom(members: Members, session: SessionData, roomId: Uuid, permissions: Permissions): JoinOutcome {
    if !permissions.IsAllowed(session.userUid, roomId, Join) then
      JoinOutcome(members, session, Err(JoinDenied))
    else match session.activeVoiceRoomId
      case Some(previous) =>
        if previous == roomId then JoinOutcome(members, session, Ok(NoChange))
        else JoinOutcome(
          WithMember(WithoutMember(members, previous, session.userUid), roomId, session.userUid),
          session.(activeVoiceRoomId := Some(roomId)),
          Ok(Switched(previous, roomId)))
      case None => JoinOutcome(
          WithMember(members, roomId, session.userUid),
          session.(activeVoiceRoomId := Some(roomId)),
          Ok(Joined(roomId)))
  }

  datatype LeaveOutcome = LeaveOutcome(members: Members, session: SessionData, transition: VoiceRoomTransition)

  function LeaveVoiceRoom(members: Members, session: SessionData, roomId: Uuid): LeaveOutcome {
    if session.activeVoiceRoomId != Some(roomId) then LeaveOutcome(members, session, NoChange)
    else LeaveOutcome(
      WithoutMember(members, roomId, session.userUid),
      session.(activeVoiceRoomId := None),
      Left(roomId))
  }

  predicate IsActiveMember(members: Members, session: SessionData, roomId: Uuid) {
    session.activeVoiceRoomId == Some(roomId) && session.userUid in MembersOf(members, roomId)
  }

  function RouteClientRoomMessage(
    members: Members, session: SessionData, message: ClientMessage, serverTimestamp: U64, permissions: Permissions)
    : Result<RoutedServerMessage, RoomRoutingError>
  {
    match message
    case SendTextMessage(roomId, textContent) =>
      if !IsActiveMember(members, session, roomId) then Err(SenderNotInActiveVoiceRoom)
      else if !permissions.IsAllowed(session.userUid, roomId, Write) then Err(PermissionDenied(Write))
      else Ok(RoutedServerMessage(
                OtherMembers(members, roomId, session.userUid),
                BroadcastTextMessage(roomId, session.userUid, session.displayName, textContent, serverTimestamp)))
    case SendWebRtcSdp(roomId, targetUid, sdpType, sdpRaw) =>
      if !IsActiveMember(members, session, roomId) then Err(SenderNotInActiveVoiceRoom)
      else if !permissions.IsAllowed(session.userUid, roomId, Signal) then Err(PermissionDenied(Signal))
      else if targetUid !in MembersOf(members, roomId) then Err(TargetNotInActiveVoiceRoom)
      else Ok(RoutedServerMessage({targetUid}, ForwardWebRtcSdp(roomId, session.userUid, sdpType, sdpRaw)))
    case SendWebRtcIce(roomId, targetUid, candidate) =>
      if !IsActiveMember(members, session, roomId) then Err(SenderNotInActiveVoiceRoom)
      else if !permissions.IsAllowed(session.userUid, roomId, Signal) then Err(PermissionDenied(Signal))
      else if targetUid !in MembersOf(members, roomId) then Err(TargetNotInActiveVoiceRoom)
      else Ok(RoutedServerMessage({targetUid}, ForwardWebRtcIce(roomId, session.userUid, candidate)))
    case _ => Err(UnsupportedClientMessage)
  }

  // ----- The partial function behind the registry -----

  /** Which room each user occupies; a user outside every room has no entry. */
  type Occupancy = map<UserUid, Uuid>

  /** The registry an occupancy determines: exactly its inverse, with no empty rooms. */
  function Inverse(occupancy: Occupancy): Members {
    map r | r in occupancy.Values :: set u | u in occupancy && occupancy[u] == r
  }

  function RoomIn(occupancy: Occupancy, userUid: UserUid): Option<Uuid> {
    if userUid in occupancy then Some(occupancy[userUid]) else None
  }

  lemma InverseMembers(occupancy: Occupancy, roomId: Uuid)
    ensures MembersOf(Inverse(occupancy), roomId) == set u | u in occupancy && occupancy[u] == roomId
    ensures roomId in Inverse(occupancy) <==> MembersOf(Inverse(occupancy), roomId) != {}
  {
    if roomId in occupancy.Values {
      var u :| u in occupancy && occupancy[u] == roomId;
      assert u in MembersOf(Inverse(occupancy), roomId);
    }
  }

  /** A registry without empty rooms is determined by who is in which room. */
  lemma InverseIsUnique(members: Members, occupancy: Occupancy)
    requires forall r :: r in members ==> members[r] != {}
    requires forall r, u :: u in MembersOf(members, r) <==> (u in occupancy && occupancy[u] == r)
    ensures members == Inverse(occupancy)
  {
    forall r ensures r in members <==> r in Inverse(occupancy)
      ensures MembersOf(members, r) == MembersOf(Inverse(occupancy), r)
    {
      InverseMembers(occupancy, r);
      assert MembersOf(members, r) == set u | u in occupancy && occupancy[u] == r;
    }
    assert members.Keys == Inverse(occupancy).Keys;
    forall r | r in members ensures members[r] == Inverse(occupancy)[r] {
      assert MembersOf(members, r) == MembersOf(Inverse(occupancy), r);
    }
  }

  /** Nothing about who is where is lost in the registry. */
  lemma InverseIsInjective(a: Occupancy, b: Occupancy)
    requires Inverse(a) == Inverse(b)
    ensures a == b
  {
    forall u ensures RoomIn(a, u) == RoomIn(b, u) {
      if u in a {
        InverseMembers(a, a[u]);
        InverseMembers(b, a[u]);
        assert u in MembersOf(Inverse(a), a[u]);
      }
      if u in b {
        InverseMembers(a, b[u]);
        InverseMembers(b, b[u]);
        assert u in MembersOf(Inverse(b), b[u]);
      }
    }
    assert a.Keys == b.Keys by {
      forall u ensures u in a <==> u in b {
        assert RoomIn(a, u) == RoomIn(b, u);
      }
    }
    forall u | u in a ensures a[u] == b[u] {
      assert RoomIn(a, u) == RoomIn(b, u);
    }
  }

  lemma WithMemberCommutes(occupancy: Occupancy, roomId: Uuid, userUid: UserUid)
    requires userUid !in occupancy
    ensures WithMember(Inverse(occupancy), roomId, userUid) == Inverse(occupancy[userUid := roomId])
  {
    var members := WithMember(Inverse(occupancy), roomId, userUid);
    var target := occupancy[userUid := roomId];
    forall r ensures r in members ==> members[r] != {}
      ensures MembersOf(members, r) == set u | u in target && target[u] == r
    {
      InverseMembers(occupancy, r);
    }
    forall r, u ensures u in MembersOf(members, r) <==> (u in target && target[u] == r) {
      assert MembersOf(members, r) == set w | w in target && target[w] == r;
    }
    InverseIsUnique(members, target);
  }

  lemma WithoutMemberCommutes(occupancy: Occupancy, userUid: UserUid)
    requires userUid in occupancy
    ensures WithoutMember(Inverse(occupancy), occupancy[userUid], userUid) == Inverse(occupancy - {userUid})
  {
    var members := WithoutMember(Inverse(occupancy), occupancy[userUid], userUid);
    var target := occupancy - {userUid};
    forall r ensures r in members ==> members[r] != {}
      ensures MembersOf(members, r) == set u | u in target && target[u] == r
    {
      InverseMembers(occupancy, r);
    }
    forall r, u ensures u in MembersOf(members, r) <==> (u in target && target[u] == r) {
      assert MembersOf(members, r) == set w | w in target && target[w] == r;
    }
    InverseIsUnique(members, target);
  }

  /** Joining is a plain update of the partial function: permitted joins move the user, denied ones change nothing. */
  lemma JoinCommutes(occupancy: Occupancy, session: SessionData, roomId: Uuid, permissions: Permissions)
    requires RoomIn(occupancy, session.userUid) == session.activeVoiceRoomId
    ensures var allowed := permissions.IsAllowed(session.userUid, roomId, Join);
            var outcome := JoinVoiceRoom(Inverse(occupancy), session, roomId, permissions);
            && (allowed <==> outcome.result.Ok?)
            && outcome.members == Inverse(if allowed then occupancy[session.userUid := roomId] else occupancy)
            && outcome.session == session.(activeVoiceRoomId := if allowed then Some(roomId) else session.activeVoiceRoomId)
            && (outcome.result == Ok(NoChange) <==> allowed && session.activeVoiceRoomId == Some(roomId))
  {
    var u := session.userUid;
    if u in occupancy {
      if occupancy[u] == roomId {
        assert occupancy[u := roomId] == occupancy;
      } else {
        WithoutMemberCommutes(occupancy, u);
        WithMemberCommutes(occupancy - {u}, roomId, u);
        assert (occupancy - {u})[u := roomId] == occupancy[u := roomId];
      }
    } else {
      WithMemberCommutes(occupancy, roomId, u);
    }
  }

  /** Leaving removes the user from the partial function, and only from the room it is really in. */
  lemma LeaveCommutes(occupancy: Occupancy, session: SessionData, roomId: Uuid)
    requires RoomIn(occupancy, session.userUid) == session.activeVoiceRoomId
    ensures var stale := session.activeVoiceRoomId != Some(roomId);
            var outcome := LeaveVoiceRoom(Inverse(occupancy), session, roomId);
            && outcome.members == Inverse(if stale then occupancy else occupancy - {session.userUid})
            && outcome.session == session.(activeVoiceRoomId := if stale then session.activeVoiceRoomId else None)
            && outcome.transition == if stale then NoChange else Left(roomId)
  {
    if session.activeVoiceRoomId == Some(roomId) {
      WithoutMemberCommutes(occupancy, session.userUid);
    }
  }

  /** What a transition says is what happened: its origin is the room the user was in, its destination the room the
      user is in afterwards, in whatever occupancy the registry then stands for. */
  lemma TransitionsNamePlaces(occupancy: Occupancy, session: SessionData, roomId: Uuid, permissions: Permissions,
                              after: Occupancy)
    requires RoomIn(occupancy, session.userUid) == session.activeVoiceRoomId
    ensures var joined := JoinVoiceRoom(Inverse(occupancy), session, roomId, permissions);
            Inverse(after) == joined.members && joined.result.Ok? ==>
              match joined.result.value
              case NoChange => RoomIn(occupancy, session.userUid) == RoomIn(after, session.userUid) == Some(roomId)
              case Joined(to) =>
                RoomIn(occupancy, session.userUid) == None && RoomIn(after, session.userUid) == Some(to) && to == roomId
              case Switched(from, to) =>
                && RoomIn(occupancy, session.userUid) == Some(from) && RoomIn(after, session.userUid) == Some(to)
                && from != to && to == roomId
              case Left(_) => false
    ensures var left := LeaveVoiceRoom(Inverse(occupancy), session, roomId);
            Inverse(after) == left.members ==>
              match left.transition
              case NoChange => RoomIn(occupancy, session.userUid) == RoomIn(after, session.userUid) != Some(roomId)
              case Left(from) =>
                RoomIn(occupancy, session.userUid) == Some(from) && RoomIn(after, session.userUid) == None && from == roomId
              case _ => false
  {
    JoinCommutes(occupancy, session, roomId, permissions);
    LeaveCommutes(occupancy, session, roomId);
    var u := session.userUid;
    if Inverse(after) == JoinVoiceRoom(Inverse(occupancy), session, roomId, permissions).members {
      InverseIsInjective(after, if permissions.IsAllowed(u, roomId, Join) then occupancy[u := roomId] else occupancy);
    }
    if Inverse(after) == LeaveVoiceRoom(Inverse(occupancy), session, roomId).members {
      InverseIsInjective(after, if session.activeVoiceRoomId == Some(roomId) then occupancy - {u} else occupancy);
    }
  }

  /** Enough power admits, too little denies: a user joins exactly if its power reaches what the room asks for. */
  lemma PowerDecidesJoins(occupancy: Occupancy, session: SessionData, roomId: Uuid, permissions: Permissions)
    requires RoomIn(occupancy, session.userUid) == session.activeVoiceRoomId
    ensures var power, required := permissions.effectivePower(session.userUid, Join), permissions.requiredPower(roomId, Join);
            var outcome := JoinVoiceRoom(Inverse(occupancy), session, roomId, permissions);
            && (power >= required ==> session.userUid in MembersOf(outcome.members, roomId) && outcome.result.Ok?)
            && (power < required ==> outcome == JoinOutcome(Inverse(occupancy), session, Err(JoinDenied)))
  {
    JoinCommutes(occupancy, session, roomId, permissions);
    InverseMembers(occupancy[session.userUid := roomId], roomId);
  }

  /** The room a text or signal is meant for, the power it takes, and the one user it is meant for, if any. */
  function RoomMeant(message: ClientMessage): Option<Uuid> {
    match message
    case SendTextMessage(roomId, _) => Some(roomId)
    case SendWebRtcSdp(roomId, _, _, _) => Some(roomId)
    case SendWebRtcIce(roomId, _, _) => Some(roomId)
    case _ => None
  }

  function UserMeant(message: ClientMessage): Option<UserUid> {
    match message
    case SendWebRtcSdp(_, target, _, _) => Some(target)
    case SendWebRtcIce(_, target, _) => Some(target)
    case _ => None
  }

  /** A text or signal is routed exactly if its sender is in the room meant, by its session and by the registry, has the
      power it takes there, and the user meant, if any, is there too; otherwise the first of these that fails is the
      error. It then goes to the user meant, or to all others in the room. */
  lemma RoutingDecides(members: Members, session: SessionData, message: ClientMessage, timestamp: U64,
                       permissions: Permissions)
    ensures var room, target := RoomMeant(message), UserMeant(message);
            var action := if target.Some? then Signal else Write;
            var routed := RouteClientRoomMessage(members, session, message, timestamp, permissions);
            && (room == None <==> routed == Err(UnsupportedClientMessage))
            && (room.Some? ==>
                  var there := MembersOf(members, room.value);
                  var home := session.activeVoiceRoomId == room && session.userUid in there;
                  var power, required := permissions.effectivePower(session.userUid, action),
                                         permissions.requiredPower(room.value, action);
                  var reached := target.Some? ==> target.value in there;
                  && (routed == Err(SenderNotInActiveVoiceRoom) <==> !home)
                  && (routed == Err(PermissionDenied(action)) <==> home && power < required)
                  && (routed == Err(TargetNotInActiveVoiceRoom) <==> home && power >= required && !reached)
                  && (routed.Ok? <==> home && power >= required && reached)
                  && (routed.Ok? ==>
                        routed.value.recipients == if target.Some? then {target.value} else there - {session.userUid}))
  {
  }

  /** Whatever the registry holds, a permitted join moves the user from the room of its session to the new one and nobody
      else anywhere, and a leave takes it out of the room of its session. */
  lemma MovesAffectOneUser(members: Members, session: SessionData, roomId: Uuid, permissions: Permissions, r: Uuid)
    ensures var joined := JoinVoiceRoom(members, session, roomId, permissions);
            var moves := joined.result.Ok? && session.activeVoiceRoomId != Some(roomId);
            && MembersOf(joined.members, r) ==
                 (if moves && r == roomId then MembersOf(members, r) + {session.userUid}
                  else if moves && session.activeVoiceRoomId == Some(r) then MembersOf(members, r) - {session.userUid}
                  else MembersOf(members, r))
            && joined.session == session.(activeVoiceRoomId := if moves then Some(roomId) else session.activeVoiceRoomId)
    ensures var left := LeaveVoiceRoom(members, session, roomId);
            var moves := session.activeVoiceRoomId == Some(roomId);
            && MembersOf(left.members, r) ==
                 (if moves && r == roomId then MembersOf(members, r) - {session.userUid} else MembersOf(members, r))
            && left.session == session.(activeVoiceRoomId := if moves then None else session.activeVoiceRoomId)
            && (left.transition == if moves then Left(roomId) else NoChange)
  {
  }

  /** Switching rooms is leaving the old one and joining the new one. */
  lemma SwitchIsLeaveThenJoin(occupancy: Occupancy, session: SessionData, target: Uuid, permissions: Permissions)
    requires RoomIn(occupancy, session.userUid) == session.activeVoiceRoomId
    requires session.activeVoiceRoomId.Some? && session.activeVoiceRoomId.value != target
    requires permissions.IsAllowed(session.userUid, target, Join)
    ensures var left := LeaveVoiceRoom(Inverse(occupancy), session, session.activeVoiceRoomId.value);
            var joined := JoinVoiceRoom(left.members, left.session, target, permissions);
            var switched := JoinVoiceRoom(Inverse(occupancy), session, target, permissions);
            && joined.members == switched.members == Inverse(occupancy[session.userUid := target])
            && joined.session == switched.session
  {
    var u := session.userUid;
    LeaveCommutes(occupancy, session, occupancy[u]);
    var left := LeaveVoiceRoom(Inverse(occupancy), session, occupancy[u]);
    JoinCommutes(occupancy - {u}, left.session, target, permissions);
    JoinCommutes(occupancy, session, target, permissions);
    assert (occupancy - {u})[u := target] == occupancy[u := target];
  }

  // ----- Conservation of members -----

  ghost function SomeRoom(members: Members): (r: Uuid)
    requires members != map[]
    ensures r in members
  {
    assert members.Keys != {};
    var r :| r in members;
    r
  }

  /** The number of memberships, summed over all room entries. */
  ghost function TotalMembers(members: Members): nat
    decreases |members|
  {
    if members == map[] then 0
    else
      var r := SomeRoom(members);
      assert |(members - {r}).Keys| < |members.Keys|;
      |members[r]| + TotalMembers(members - {r})
  }

  /** Every occupied place is counted once, and there are no more rooms than occupants. */
  lemma {:induction false} InverseConservesMembers(occupancy: Occupancy)
    ensures TotalMembers(Inverse(occupancy)) == |occupancy|
    ensures |Inverse(occupancy)| <= |occupancy|
    decreases |occupancy|
  {
    var members := Inverse(occupancy);
    forall u | u in occupancy ensures occupancy[u] in members {
      InverseMembers(occupancy, occupancy[u]);
    }
    if members == map[] {
      assert occupancy.Keys == {};
    } else {
      var r := SomeRoom(members);
      var inside := members[r];
      InverseMembers(occupancy, r);
      var rest := occupancy - inside;
      assert inside <= occupancy.Keys;
      assert rest.Keys == occupancy.Keys - inside;
      assert |rest.Keys| == |occupancy.Keys| - |inside|;
      assert |inside| > 0;
      forall q ensures q in members - {r} ==> (members - {r})[q] != {}
        ensures MembersOf(members - {r}, q) == set u | u in rest && rest[u] == q
      {
        InverseMembers(occupancy, q);
      }
      forall q, u ensures u in MembersOf(members - {r}, q) <==> (u in rest && rest[u] == q) {
        assert MembersOf(members - {r}, q) == set w | w in rest && rest[w] == q;
      }
      InverseIsUnique(members - {r}, rest);
      InverseConservesMembers(rest);
      assert (members - {r}).Keys == members.Keys - {r};
      assert |(members - {r}).Keys| == |members.Keys| - 1;
    }
  }
}
