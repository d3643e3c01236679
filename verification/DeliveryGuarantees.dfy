/** What single messages do to the rooms, tasks and streams of a reachable state. */
module DeliveryGuarantees {
  import opened Protocol
  import opened Rooms
  import opened Dispatch
  import opened Presence
  import opened Server
  import opened ServerProofs
  import opened ServerHistory
  import opened Guarantees

  // ----- Effects on streams -----

  lemma {:induction false} PublishAllStreamUser(s: State, before: Members, sends: seq<Outgoing>, u: UserUid)
    requires ConnectionsOk(s) && LogOk(s) && u in s.connections
    ensures s.connections[u] in PublishAll(s, before, sends).streams
    ensures PublishAll(s, before, sends).streams[s.connections[u]] == s.streams[s.connections[u]] + MessagesFor(sends, u)
    decreases |sends|
  {
    if sends == [] {
      assert s.streams[s.connections[u]] + [] == s.streams[s.connections[u]];
    } else {
      var n := |sends| - 1;
      PublishAllStreamUser(s, before, sends[..n], u);
      PublishAllFrame(s, before, sends[..n]);
      QueuesOf(PublishAll(s, before, sends[..n]), sends[n].to, s.connections[u]);
    }
  }

  predicate MaySpeak(s: State, c: ConnId) {
    c in s.tasks && s.tasks[c].pc.Reading? && s.tasks[c].session.Some?
  }

  function EffectOf(cfg: Config, s: State, c: ConnId, message: ClientMessage, timestamp: U64): Effect
    requires MaySpeak(s, c)
  {
    HandleAuthenticatedMessage(s.members, s.tasks[c].session.value, message, timestamp, cfg.permissions)
  }

  /** The streams of one state are those of another with the user's share of some sends appended. */
  ghost predicate Sent(s: State, after: State, sends: seq<Outgoing>) {
    && after.connections == s.connections && after.streams.Keys == s.streams.Keys
    && (forall u :: u in s.connections ==> s.connections[u] in s.streams)
    && (forall u :: u in s.connections ==>
          after.streams[s.connections[u]] == s.streams[s.connections[u]] + MessagesFor(sends, u))
    && (forall d :: d in s.streams && d !in s.connections.Values ==> after.streams[d] == s.streams[d])
  }

  /** Rooms and the actor's session as the effect says, its sends delivered, everything else as before. */
  ghost predicate Takes(s: State, after: State, c: ConnId, effect: Effect) {
    && c in s.tasks
    && after.members == effect.members
    && after.tasks == s.tasks[c := s.tasks[c].(session := Some(effect.session))]
    && Sent(s, after, effect.sends)
  }

  lemma PublishedIsSent(s: State, before: Members, sends: seq<Outgoing>)
    requires ConnectionsOk(s) && LogOk(s)
    ensures Sent(s, PublishAll(s, before, sends), sends)
  {
    PublishAllFields(s, before, sends);
    forall u | u in s.connections {
      PublishAllStreamUser(s, before, sends, u);
    }
    forall d | d in s.streams && d !in s.connections.Values {
      PublishAllStreams(s, before, sends, d);
    }
  }

  /** A room message sends every connected user its share of the effect, and other connections nothing. */
  lemma EffectReachesStreams(cfg: Config, s: State, c: ConnId, message: ClientMessage, timestamp: U64)
    requires Reachable(cfg, s) && MaySpeak(s, c)
    ensures Takes(s, Next(cfg, s, RoomMessage(c, message, timestamp)), c, EffectOf(cfg, s, c, message, timestamp))
  {
    var effect := EffectOf(cfg, s, c, message, timestamp);
    var updated := Updated(cfg, s, c, effect);
    assert TableOk(updated) by {
      Invariants(cfg, s);
      assert TaskOk(cfg.permissions, s, c, s.tasks[c]);
      EffectKeepsIdentity(s.members, s.tasks[c].session.value, message, timestamp, cfg.permissions);
      UpdatedKeepsTable(cfg, s, c, effect);
    }
    PublishAllFields(updated, s.members, effect.sends);
    PublishedIsSent(updated, s.members, effect.sends);
  }

  lemma OneMessage(a: Outgoing, u: UserUid)
    ensures MessagesFor([a], u) == Pick(a, u)
  {
    assert [a] == [] + [a];
    MessagesForAppend([], a, u);
  }

  lemma TwoMessages(a: Outgoing, b: Outgoing, u: UserUid)
    ensures MessagesFor([a, b], u) == Pick(a, u) + Pick(b, u)
  {
    assert [a, b] == [a] + [b];
    MessagesForAppend([a], b, u);
    OneMessage(a, u);
  }

  lemma ThreeMessages(a: Outgoing, b: Outgoing, c: Outgoing, u: UserUid)
    ensures MessagesFor([a, b, c], u) == Pick(a, u) + Pick(b, u) + Pick(c, u)
  {
    assert [a, b, c] == [a, b] + [c];
    MessagesForAppend([a, b], c, u);
    TwoMessages(a, b, u);
  }

  lemma MembershipOf(cfg: Config, s: State, c: ConnId)
    requires Reachable(cfg, s) && MaySpeak(s, c)
    ensures var session := s.tasks[c].session.value;
            && session == SessionOf(session.userUid, session.activeVoiceRoomId)
            && session.userUid in s.connections && s.connections[session.userUid] == c
            && RoomIn(OccupancyOf(s), session.userUid) == session.activeVoiceRoomId
            && s.members == Inverse(OccupancyOf(s))
            && forall r :: session.userUid in MembersOf(s.members, r) <==> session.activeVoiceRoomId == Some(r)
  {
    RegistryIsInverse(cfg, s);
    assert TableOk(s) && IsLive(s.tasks[c]) && TaskOk(cfg.permissions, s, c, s.tasks[c]) by {
      Invariants(cfg, s);
      assert TaskOk(cfg.permissions, s, c, s.tasks[c]);
    }
    forall r {
      InverseMembers(OccupancyOf(s), r);
    }
  }

  predicate TextAccepted(cfg: Config, session: SessionData, roomId: Uuid) {
    session.activeVoiceRoomId == Some(roomId) && cfg.permissions.IsAllowed(session.userUid, roomId, Write)
  }

  function Broadcast(session: SessionData, roomId: Uuid, text: string, timestamp: U64): ServerMessage {
    BroadcastTextMessage(roomId, session.userUid, DefaultDisplayName(session.userUid), text, timestamp)
  }

  function TextEffect(members: Members, session: SessionData, roomId: Uuid, text: string, timestamp: U64, accepted: bool): Effect {
    Effect(members, session,
           if accepted then [Outgoing(OtherMembers(members, roomId, session.userUid), Broadcast(session, roomId, text, timestamp))]
           else [])
  }

  lemma TextEffectOf(cfg: Config, s: State, c: ConnId, roomId: Uuid, text: string, timestamp: U64)
    requires Reachable(cfg, s) && MaySpeak(s, c)
    ensures EffectOf(cfg, s, c, SendTextMessage(roomId, text), timestamp)
         == TextEffect(s.members, s.tasks[c].session.value, roomId, text, timestamp,
                       TextAccepted(cfg, s.tasks[c].session.value, roomId))
  {
    MembershipOf(cfg, s, c);
  }

  lemma TextDelivered(s: State, after: State, c: ConnId, roomId: Uuid, text: string, timestamp: U64, accepted: bool)
    requires c in s.tasks && s.tasks[c].session.Some?
    requires Takes(s, after, c, TextEffect(s.members, s.tasks[c].session.value, roomId, text, timestamp, accepted))
    ensures after.tasks == s.tasks && after.members == s.members
    ensures forall u :: u in s.connections ==>
      after.streams[s.connections[u]] == s.streams[s.connections[u]]
        + if accepted && u in MembersOf(s.members, roomId) && u != s.tasks[c].session.value.userUid
          then [Broadcast(s.tasks[c].session.value, roomId, text, timestamp)] else []
  {
    var session := s.tasks[c].session.value;
    var outgoing := Outgoing(OtherMembers(s.members, roomId, session.userUid), Broadcast(session, roomId, text, timestamp));
    forall u | u in s.connections {
      OneMessage(outgoing, u);
    }
    assert s.tasks[c := s.tasks[c].(session := Some(session))] == s.tasks;
  }

  /** A text from a member of the room with the power to write reaches every other member once and nobody
      else; any other text changes nothing at all. */
  lemma TextReachesEachOtherMemberOnce(cfg: Config, s: State, c: ConnId, roomId: Uuid, text: string, timestamp: U64)
    requires Reachable(cfg, s) && MaySpeak(s, c)
    ensures var session := s.tasks[c].session.value;
            var after := Next(cfg, s, RoomMessage(c, SendTextMessage(roomId, text), timestamp));
            && after.members == s.members && after.connections == s.connections && after.tasks == s.tasks
            && after.streams.Keys == s.streams.Keys
            && (forall u :: u in s.connections ==> s.connections[u] in s.streams)
            && (forall u :: u in s.connections ==>
                  after.streams[s.connections[u]] == s.streams[s.connections[u]]
                    + if TextAccepted(cfg, session, roomId) && u in MembersOf(s.members, roomId) && u != session.userUid
                      then [Broadcast(session, roomId, text, timestamp)] else [])
            && (forall d :: d in s.streams && d !in s.connections.Values ==> after.streams[d] == s.streams[d])
  {
    var message := SendTextMessage(roomId, text);
    var after := Next(cfg, s, RoomMessage(c, message, timestamp));
    EffectReachesStreams(cfg, s, c, message, timestamp);
    TextEffectOf(cfg, s, c, roomId, text, timestamp);
    TextDelivered(s, after, c, roomId, text, timestamp, TextAccepted(cfg, s.tasks[c].session.value, roomId));
  }

  /** What a signal becomes on its way: the same content, naming the sender the server knows. */
  function Forwarded(session: SessionData, message: ClientMessage): ServerMessage
    requires message.SendWebRtcSdp? || message.SendWebRtcIce?
  {
    match message
    case SendWebRtcSdp(roomId, _, sdpType, sdpRaw) => ForwardWebRtcSdp(roomId, session.userUid, sdpType, sdpRaw)
    case SendWebRtcIce(roomId, _, candidate) => ForwardWebRtcIce(roomId, session.userUid, candidate)
  }

  predicate SignalAccepted(cfg: Config, members: Members, session: SessionData, roomId: Uuid, target: UserUid) {
    && session.activeVoiceRoomId == Some(roomId) && cfg.permissions.IsAllowed(session.userUid, roomId, Signal)
    && target in MembersOf(members, roomId)
  }

  lemma SignalEffect(cfg: Config, s: State, c: ConnId, message: ClientMessage, timestamp: U64)
    requires Reachable(cfg, s) && MaySpeak(s, c) && (message.SendWebRtcSdp? || message.SendWebRtcIce?)
    ensures var session := s.tasks[c].session.value;
            EffectOf(cfg, s, c, message, timestamp)
            == Effect(s.members, session,
                      if SignalAccepted(cfg, s.members, session, message.roomId, message.targetUid)
                      then [Outgoing({message.targetUid}, Forwarded(session, message))] else [])
  {
    MembershipOf(cfg, s, c);
  }

  lemma SignalDelivered(s: State, after: State, c: ConnId, outgoing: Outgoing, accepted: bool)
    requires c in s.tasks && s.tasks[c].session.Some?
    requires Takes(s, after, c, Effect(s.members, s.tasks[c].session.value, if accepted then [outgoing] else []))
    ensures after.tasks == s.tasks
    ensures forall u :: u in s.connections ==>
      after.streams[s.connections[u]] == s.streams[s.connections[u]] + if accepted then Pick(outgoing, u) else []
  {
    forall u | u in s.connections {
      OneMessage(outgoing, u);
    }
    assert s.tasks[c := s.tasks[c].(session := Some(s.tasks[c].session.value))] == s.tasks;
  }

  /** A signal from a member of the room with the power to signal reaches its target there, unchanged and under the
      sender's own identity, and nobody else; the target may be the sender. Any other signal changes nothing. */
  lemma SignalReachesItsTargetOnly(cfg: Config, s: State, c: ConnId, message: ClientMessage, timestamp: U64)
    requires Reachable(cfg, s) && MaySpeak(s, c) && (message.SendWebRtcSdp? || message.SendWebRtcIce?)
    ensures var session := s.tasks[c].session.value;
            var after := Next(cfg, s, RoomMessage(c, message, timestamp));
            && after.members == s.members && after.connections == s.connections && after.tasks == s.tasks
            && after.streams.Keys == s.streams.Keys
            && (forall u :: u in s.connections ==> s.connections[u] in s.streams)
            && (forall u :: u in s.connections ==>
                  after.streams[s.connections[u]] == s.streams[s.connections[u]]
                    + if SignalAccepted(cfg, s.members, session, message.roomId, message.targetUid) && u == message.targetUid
                      then [Forwarded(session, message)] else [])
            && (forall d :: d in s.streams && d !in s.connections.Values ==> after.streams[d] == s.streams[d])
  {
    var session := s.tasks[c].session.value;
    var after := Next(cfg, s, RoomMessage(c, message, timestamp));
    EffectReachesStreams(cfg, s, c, message, timestamp);
    SignalEffect(cfg, s, c, message, timestamp);
    SignalDelivered(s, after, c, Outgoing({message.targetUid}, Forwarded(session, message)),
                    SignalAccepted(cfg, s.members, session, message.roomId, message.targetUid));
  }

  // ----- Switching, repeating, refusing -----

  /** Messages that are refused or already fulfilled: joins without the power to join or of the current
      room, and leaves of any other room. */
  predicate IsIdle(cfg: Config, session: SessionData, message: ClientMessage) {
    match message
    case JoinVoiceRoom(roomId) =>
      !cfg.permissions.IsAllowed(session.userUid, roomId, Join) || session.activeVoiceRoomId == Some(roomId)
    case LeaveVoiceRoom(roomId) => session.activeVoiceRoomId != Some(roomId)
    case _ => false
  }

  lemma IdleMessagesChangeNothing(cfg: Config, s: State, c: ConnId, message: ClientMessage, timestamp: U64)
    requires Reachable(cfg, s) && MaySpeak(s, c) && IsIdle(cfg, s.tasks[c].session.value, message)
    ensures Next(cfg, s, RoomMessage(c, message, timestamp)) == s
  {
    assert EffectOf(cfg, s, c, message, timestamp) == Effect(s.members, s.tasks[c].session.value, []);
    assert s.tasks[c := s.tasks[c].(session := Some(s.tasks[c].session.value))] == s.tasks;
  }

  function JoinSends(members: Members, me: UserUid, to: Uuid): seq<Outgoing> {
    [Outgoing({me}, VoiceRoomJoined(to)),
     Outgoing(OtherMembers(members, to, me), PeerJoinedRoom(to, me, DefaultDisplayName(me)))]
  }

  function SwitchSends(members: Members, me: UserUid, from: Uuid, to: Uuid): seq<Outgoing> {
    [Outgoing(OtherMembers(members, from, me), PeerLeftRoom(from, me))] + JoinSends(members, me, to)
  }

  function LeaveSends(members: Members, me: UserUid, from: Uuid): seq<Outgoing> {
    [Outgoing({me}, VoiceRoomLeft(from)), Outgoing(OtherMembers(members, from, me), PeerLeftRoom(from, me))]
  }

  lemma SwitchMessages(members: Members, me: UserUid, from: Uuid, to: Uuid, u: UserUid)
    ensures u != me ==>
      MessagesFor(SwitchSends(members, me, from, to), u)
      == MessagesFor(LeaveSends(members, me, from), u) + MessagesFor(JoinSends(members, me, to), u)
    ensures u == me ==>
      && MessagesFor(SwitchSends(members, me, from, to), u) == [VoiceRoomJoined(to)]
      && MessagesFor(LeaveSends(members, me, from), u) == [VoiceRoomLeft(from)]
      && MessagesFor(JoinSends(members, me, to), u) == [VoiceRoomJoined(to)]
  {
    var left := Outgoing(OtherMembers(members, from, me), PeerLeftRoom(from, me));
    var told := Outgoing({me}, VoiceRoomJoined(to));
    var shown := Outgoing(OtherMembers(members, to, me), PeerJoinedRoom(to, me, DefaultDisplayName(me)));
    assert SwitchSends(members, me, from, to) == [left, told, shown];
    ThreeMessages(left, told, shown, u);
    TwoMessages(Outgoing({me}, VoiceRoomLeft(from)), left, u);
    TwoMessages(told, shown, u);
  }

  lemma SwitchedTasks(tasks: map<ConnId, Task>, c: ConnId, first: SessionData, last: SessionData)
    requires c in tasks
    ensures var middle := tasks[c := tasks[c].(session := Some(first))];
            middle[c := middle[c].(session := Some(last))] == tasks[c := tasks[c].(session := Some(last))]
  {
  }

  lemma Regroup<T>(a: seq<T>, b: seq<T>, c: seq<T>)
    ensures a + b + c == a + (b + c)
  {
  }

  lemma SwitcherHears(members: Members, me: UserUid, from: Uuid, target: Uuid,
                      stream: seq<ServerMessage>, switched: seq<ServerMessage>,
                      left: seq<ServerMessage>, rejoined: seq<ServerMessage>)
    requires switched == stream + MessagesFor(SwitchSends(members, me, from, target), me)
    requires left == stream + MessagesFor(LeaveSends(members, me, from), me)
    requires rejoined == left + MessagesFor(JoinSends(members, me, target), me)
    ensures switched == stream + [VoiceRoomJoined(target)]
    ensures rejoined == stream + [VoiceRoomLeft(from), VoiceRoomJoined(target)]
  {
    SwitchMessages(members, me, from, target, me);
    Regroup(stream, [VoiceRoomLeft(from)], [VoiceRoomJoined(target)]);
  }

  lemma SwitchersStream(s: State, switched: State, left: State, rejoined: State, me: UserUid, from: Uuid, target: Uuid)
    requires Sent(s, switched, SwitchSends(s.members, me, from, target))
    requires Sent(s, left, LeaveSends(s.members, me, from)) && Sent(left, rejoined, JoinSends(s.members, me, target))
    requires me in s.connections
    ensures s.connections[me] in switched.streams && s.connections[me] in rejoined.streams
    ensures switched.streams[s.connections[me]] == s.streams[s.connections[me]] + [VoiceRoomJoined(target)]
    ensures rejoined.streams[s.connections[me]]
         == s.streams[s.connections[me]] + [VoiceRoomLeft(from), VoiceRoomJoined(target)]
  {
    var c := s.connections[me];
    SwitcherHears(s.members, me, from, target, s.streams[c], switched.streams[c], left.streams[c], rejoined.streams[c]);
  }

  lemma OthersHearTheSame(members: Members, me: UserUid, from: Uuid, target: Uuid, u: UserUid,
                          stream: seq<ServerMessage>, switched: seq<ServerMessage>,
                          left: seq<ServerMessage>, rejoined: seq<ServerMessage>)
    requires u != me
    requires switched == stream + MessagesFor(SwitchSends(members, me, from, target), u)
    requires left == stream + MessagesFor(LeaveSends(members, me, from), u)
    requires rejoined == left + MessagesFor(JoinSends(members, me, target), u)
    ensures switched == rejoined
  {
    SwitchMessages(members, me, from, target, u);
    Regroup(stream, MessagesFor(LeaveSends(members, me, from), u), MessagesFor(JoinSends(members, me, target), u));
  }

  lemma SwitchedStream(s: State, switched: State, left: State, rejoined: State,
                       me: UserUid, from: Uuid, target: Uuid, u: UserUid)
    requires Sent(s, switched, SwitchSends(s.members, me, from, target))
    requires Sent(s, left, LeaveSends(s.members, me, from)) && Sent(left, rejoined, JoinSends(s.members, me, target))
    requires u in s.connections && u != me
    ensures s.connections[u] in switched.streams && s.connections[u] in rejoined.streams
    ensures switched.streams[s.connections[u]] == rejoined.streams[s.connections[u]]
  {
    var c := s.connections[u];
    OthersHearTheSame(s.members, me, from, target, u, s.streams[c], switched.streams[c], left.streams[c], rejoined.streams[c]);
  }

  lemma SwitchedStreams(s: State, switched: State, left: State, rejoined: State, me: UserUid, from: Uuid, target: Uuid)
    requires Sent(s, switched, SwitchSends(s.members, me, from, target))
    requires Sent(s, left, LeaveSends(s.members, me, from)) && Sent(left, rejoined, JoinSends(s.members, me, target))
    requires me in s.connections
    ensures var c := s.connections[me];
            && switched.streams[c] == s.streams[c] + [VoiceRoomJoined(target)]
            && rejoined.streams[c] == s.streams[c] + [VoiceRoomLeft(from), VoiceRoomJoined(target)]
            && forall d :: d in s.streams && d != c ==> switched.streams[d] == rejoined.streams[d]
  {
    var c := s.connections[me];
    SwitchersStream(s, switched, left, rejoined, me, from, target);
    forall d | d in s.streams && d != c ensures switched.streams[d] == rejoined.streams[d] {
      if d in s.connections.Values {
        var u :| u in s.connections && s.connections[u] == d;
        SwitchedStream(s, switched, left, rejoined, me, from, target, u);
      }
    }
  }

  lemma SwitchedState(s: State, switched: State, left: State, rejoined: State, c: ConnId,
                      direct: Effect, away: Effect, back: Effect, from: Uuid, target: Uuid)
    requires Takes(s, switched, c, direct) && Takes(s, left, c, away) && Takes(left, rejoined, c, back)
    requires direct.members == back.members && direct.session == back.session
    requires s.tasks[c].session.Some?
    requires var me := s.tasks[c].session.value.userUid;
             && me in s.connections && s.connections[me] == c
             && direct.sends == SwitchSends(s.members, me, from, target)
             && away.sends == LeaveSends(s.members, me, from)
             && back.sends == JoinSends(s.members, me, target)
    ensures switched.members == rejoined.members && switched.tasks == rejoined.tasks
    ensures switched.connections == rejoined.connections
    ensures c in s.streams && switched.streams.Keys == rejoined.streams.Keys == s.streams.Keys
    ensures switched.streams[c] == s.streams[c] + [VoiceRoomJoined(target)]
    ensures rejoined.streams[c] == s.streams[c] + [VoiceRoomLeft(from), VoiceRoomJoined(target)]
    ensures forall d :: d in s.streams && d != c ==> switched.streams[d] == rejoined.streams[d]
  {
    var me := s.tasks[c].session.value.userUid;
    assert && switched.streams[c] == s.streams[c] + [VoiceRoomJoined(target)]
           && rejoined.streams[c] == s.streams[c] + [VoiceRoomLeft(from), VoiceRoomJoined(target)]
           && forall d :: d in s.streams && d != c ==> switched.streams[d] == rejoined.streams[d]
    by {
      SwitchedStreams(s, switched, left, rejoined, me, from, target);
    }
    SwitchedTasks(s.tasks, c, away.session, back.session);
  }

  /** The registry side of a switch, and what it announces. */
  lemma SwitchedRooms(cfg: Config, s: State, session: SessionData, from: Uuid, target: Uuid, timestamp: U64)
    requires s.members == Inverse(OccupancyOf(s))
    requires RoomIn(OccupancyOf(s), session.userUid) == session.activeVoiceRoomId == Some(from) && from != target
    requires session == SessionOf(session.userUid, Some(from))
    requires cfg.permissions.IsAllowed(session.userUid, target, Join)
    ensures var me := session.userUid;
            var direct := HandleAuthenticatedMessage(s.members, session, JoinVoiceRoom(target), timestamp, cfg.permissions);
            var leave := HandleAuthenticatedMessage(s.members, session, LeaveVoiceRoom(from), timestamp, cfg.permissions);
            var join := HandleAuthenticatedMessage(leave.members, leave.session, JoinVoiceRoom(target), timestamp, cfg.permissions);
            && direct.members == join.members && direct.session == join.session
            && direct.sends == SwitchSends(s.members, me, from, target)
            && leave.sends == LeaveSends(s.members, me, from)
            && join.sends == JoinSends(s.members, me, target)
  {
    Rooms.SwitchIsLeaveThenJoin(OccupancyOf(s), session, target, cfg.permissions);
    var me := session.userUid;
    var after := WithoutMember(s.members, from, me);
    assert OtherMembers(after, target, me) == OtherMembers(s.members, target, me);
  }

  /** A switch is a leave followed by a join, except that the switcher is not told that it left. */
  lemma SwitchDecomposes(cfg: Config, s: State, c: ConnId, target: Uuid, timestamp: U64)
    requires Reachable(cfg, s) && MaySpeak(s, c)
    requires s.tasks[c].session.value.activeVoiceRoomId.Some?
    requires s.tasks[c].session.value.activeVoiceRoomId != Some(target)
    requires cfg.permissions.IsAllowed(s.tasks[c].session.value.userUid, target, Join)
    ensures var from := s.tasks[c].session.value.activeVoiceRoomId.value;
            var switched := Next(cfg, s, RoomMessage(c, JoinVoiceRoom(target), timestamp));
            var left := Next(cfg, s, RoomMessage(c, LeaveVoiceRoom(from), timestamp));
            var rejoined := Next(cfg, left, RoomMessage(c, JoinVoiceRoom(target), timestamp));
            && switched.members == rejoined.members
            && switched.tasks == rejoined.tasks
            && switched.connections == rejoined.connections
            && c in s.streams && switched.streams.Keys == rejoined.streams.Keys == s.streams.Keys
            && switched.streams[c] == s.streams[c] + [VoiceRoomJoined(target)]
            && rejoined.streams[c] == s.streams[c] + [VoiceRoomLeft(from), VoiceRoomJoined(target)]
            && forall d :: d in s.streams && d != c ==> switched.streams[d] == rejoined.streams[d]
  {
    var session := s.tasks[c].session.value;
    var me, from := session.userUid, session.activeVoiceRoomId.value;
    var join, leave := JoinVoiceRoom(target), LeaveVoiceRoom(from);
    var switched := Next(cfg, s, RoomMessage(c, join, timestamp));
    var left := Next(cfg, s, RoomMessage(c, leave, timestamp));
    var rejoined := Next(cfg, left, RoomMessage(c, join, timestamp));
    var direct, away := EffectOf(cfg, s, c, join, timestamp), EffectOf(cfg, s, c, leave, timestamp);
    EffectReachesStreams(cfg, s, c, join, timestamp);
    EffectReachesStreams(cfg, s, c, leave, timestamp);
    assert MaySpeak(left, c);
    var back := EffectOf(cfg, left, c, join, timestamp);
    assert Takes(left, rejoined, c, back) by {
      ReachableNext(cfg, s, RoomMessage(c, leave, timestamp));
      EffectReachesStreams(cfg, left, c, join, timestamp);
    }
    MembershipOf(cfg, s, c);
    SwitchedRooms(cfg, s, session, from, target, timestamp);
    SwitchedState(s, switched, left, rejoined, c, direct, away, back, from, target);
  }
}
