/** The in-memory objects of server/src/lib.rs: a session and the registry that joins, moves and
    removes it. Each method is tied to the functions on values of module Rooms. */
module RoomRegistries {
  import opened Protocol
  import opened Rooms

  class Session {
    const userUid: UserUid
    const displayName: string
    var activeVoiceRoomId: Option<Uuid>

    constructor (userUid: UserUid, displayName: string)
      ensures Value() == SessionData(userUid, displayName, None)
    {
      this.userUid := userUid;
      this.displayName := displayName;
      activeVoiceRoomId := None;
    }

    /** A separate session object with the same contents. */
    constructor Clone(session: Session)
      ensures Value() == session.Value()
    {
      userUid := session.userUid;
      displayName := session.displayName;
      activeVoiceRoomId := session.activeVoiceRoomId;
    }

    function Value(): SessionData
      reads this
    {
      SessionData(userUid, displayName, activeVoiceRoomId)
    }
  }

  class RoomRegistry {
    var membersByRoom: Members

    constructor ()
      ensures membersByRoom == map[]
    {
      membersByRoom := map[];
    }

    method JoinVoiceRoom(session: Session, roomId: Uuid, permissions: Permissions)
      returns (result: Result<VoiceRoomTransition, RoomJoinError>)
      modifies this, session
      ensures JoinOutcome(membersByRoom, session.Value(), result)
           == Rooms.JoinVoiceRoom(old(membersByRoom), old(session.Value()), roomId, permissions)
    {
      if !permissions.IsAllowed(session.userUid, roomId, Join) {
        return Err(JoinDenied);
      }
      match session.activeVoiceRoomId
      case Some(previousRoomId) =>
        if previousRoomId == roomId {
          return Ok(NoChange);
        }
        RemoveMember(previousRoomId, session.userUid);
        AddMember(roomId, session.userUid);
        session.activeVoiceRoomId := Some(roomId);
        return Ok(Switched(previousRoomId, roomId));
      case None =>
        AddMember(roomId, session.userUid);
        session.activeVoiceRoomId := Some(roomId);
        return Ok(Joined(roomId));
    }

    method LeaveVoiceRoom(session: Session, roomId: Uuid) returns (transition: VoiceRoomTransition)
      modifies this, session
      ensures LeaveOutcome(membersByRoom, session.Value(), transition)
           == Rooms.LeaveVoiceRoom(old(membersByRoom), old(session.Value()), roomId)
    {
      if session.activeVoiceRoomId != Some(roomId) {
        return NoChange;
      }
      RemoveMember(roomId, session.userUid);
      session.activeVoiceRoomId := None;
      return Left(roomId);
    }

    method AddMember(roomId: Uuid, userUid: UserUid)
      modifies this
      ensures membersByRoom == WithMember(old(membersByRoom), roomId, userUid)
    {
      if roomId !in membersByRoom {
        membersByRoom := membersByRoom[roomId := {}];
      }
      membersByRoom := membersByRoom[roomId := membersByRoom[roomId] + {userUid}];
    }

    method RemoveMember(roomId: Uuid, userUid: UserUid)
      modifies this
      ensures membersByRoom == WithoutMember(old(membersByRoom), roomId, userUid)
    {
      var shouldRemoveRoom := false;
      if roomId in membersByRoom {
        membersByRoom := membersByRoom[roomId := membersByRoom[roomId] - {userUid}];
        shouldRemoveRoom := membersByRoom[roomId] == {};
      }
      if shouldRemoveRoom {
        membersByRoom := membersByRoom - {roomId};
      }
    }
  }
}
