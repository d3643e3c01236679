/** Further invariants of runs: streams only grow and match the log, a stream begins with the replies
    to the connection's login messages, and writers write streams in order. */
module ServerHistory {
  import opened Protocol
  import opened Rooms
  import opened Dispatch
  import opened Presence
  import opened PresenceProofs
  import opened Login
  import opened Server
  import opened ServerProofs

  // ----- Streams only grow -----

  lemma {:induction false} PublishAllStreams(s: State, before: Members, sends: seq<Outgoing>, c: ConnId)
    requires ConnectionsOk(s) && LogOk(s) && c in s.streams
    ensures c in PublishAll(s, before, sends).streams
    ensures s.streams[c] <= PublishAll(s, before, sends).streams[c]
    ensures c !in s.connections.Values ==> PublishAll(s, before, sends).streams[c] == s.streams[c]
    decreases |sends|
  {
    if sends != [] {
      var n := |sends| - 1;
      PublishAllStreams(s, before, sends[..n], c);
      PublishAllFrame(s, before, sends[..n]);
      QueuesOf(PublishAll(s, before, sends[..n]), sends[n].to, c);
    }
  }

  lemma {:induction false} PublishAllFields(s: State, before: Members, sends: seq<Outgoing>)
    ensures var after := PublishAll(s, before, sends);
            && after == s.(streams := after.streams, log := after.log)
            && after.streams.Keys == s.streams.Keys
    decreases |sends|
  {
    if sends != [] {
      PublishAllFields(s, before, sends[..|sends| - 1]);
    }
  }

  /** What a step makes of its own task. */
  function TaskAfter(cfg: Config, s: State, step: Step): Task
    requires Enabled(s, step)
  {
    match step
    case Open(_) => NEW_TASK
    case AuthMessage(c, input) => DoAuthMessage(cfg, s, c, input).tasks[c]
    case Register(c) =>
      if s.tasks[c].pc.claimed.userUid in s.connections then s.tasks[c].(pc := Closing)
      else s.tasks[c].(session := Some(s.tasks[c].pc.claimed), isRegistered := true, pc := Replying(s.tasks[c].pc.reply))
    case SendReply(c) => s.tasks[c].(pc := Reading)
    case RoomMessage(c, message, timestamp) =>
      s.tasks[c].(session := Some(HandleAuthenticatedMessage(
        s.members, s.tasks[c].session.value, message, timestamp, cfg.permissions).session))
    case CleanUp(c) => s.tasks[c].(pc := Draining)
    case _ => LocalUpdate(s.tasks[step.c], step)
  }

  lemma RoomMessageTasks(cfg: Config, s: State, c: ConnId, message: ClientMessage, timestamp: U64)
    requires c in s.tasks && s.tasks[c].session.Some?
    ensures var effect := HandleAuthenticatedMessage(s.members, s.tasks[c].session.value, message, timestamp, cfg.permissions);
            var after := DoRoomMessage(cfg, s, c, message, timestamp);
            && after.tasks == s.tasks[c := s.tasks[c].(session := Some(effect.session))]
            && after.connections == s.connections
            && after.streams.Keys == s.streams.Keys
  {
    var effect := HandleAuthenticatedMessage(s.members, s.tasks[c].session.value, message, timestamp, cfg.permissions);
    PublishAllFields(Updated(cfg, s, c, effect), s.members, effect.sends);
  }

  lemma CleanUpTasks(s: State, c: ConnId)
    requires c in s.tasks
    ensures DoCleanUp(s, c).tasks == s.tasks[c := s.tasks[c].(pc := Draining)]
    ensures DoCleanUp(s, c).streams.Keys == s.streams.Keys
  {
    if s.tasks[c].session.Some? {
      PublishAllFields(Retired(s, c), s.members, DisconnectSession(s.members, s.tasks[c].session.value).sends);
    }
  }

  /** A step changes at most one task. */
  lemma TasksAfter(cfg: Config, s: State, step: Step)
    requires Enabled(s, step)
    ensures Next(cfg, s, step).tasks == s.tasks[step.c := TaskAfter(cfg, s, step)]
    ensures Next(cfg, s, step).streams.Keys == s.streams.Keys + if step.Open? then {step.c} else {}
  {
    match step
    case RoomMessage(c, message, timestamp) => RoomMessageTasks(cfg, s, c, message, timestamp);
    case CleanUp(c) => CleanUpTasks(s, c);
    case _ =>
  }

  lemma RoomMessageStreams(cfg: Config, s: State, c: ConnId, message: ClientMessage, timestamp: U64, d: ConnId)
    requires TableOk(s) && d in s.streams && c in s.tasks && IsLive(s.tasks[c])
    ensures var after := DoRoomMessage(cfg, s, c, message, timestamp);
            && d in after.streams && s.streams[d] <= after.streams[d]
            && (d in s.tasks && !IsLive(s.tasks[d]) ==> after.streams[d] == s.streams[d])
  {
    var effect := HandleAuthenticatedMessage(s.members, s.tasks[c].session.value, message, timestamp, cfg.permissions);
    EffectKeepsIdentity(s.members, s.tasks[c].session.value, message, timestamp, cfg.permissions);
    UpdatedKeepsTable(cfg, s, c, effect);
    PublishAllStreams(Updated(cfg, s, c, effect), s.members, effect.sends, d);
  }

  lemma CleanUpStreams(s: State, c: ConnId, d: ConnId)
    requires TableOk(s) && d in s.streams && c in s.tasks && s.tasks[c].pc.Closing?
    requires s.tasks[c].isRegistered == s.tasks[c].session.Some?
    ensures var after := DoCleanUp(s, c);
            && d in after.streams && s.streams[d] <= after.streams[d]
            && (d in s.tasks && !IsLive(s.tasks[d]) ==> after.streams[d] == s.streams[d])
            && (d == c ==> after.streams[d] == s.streams[d])
  {
    if s.tasks[c].session.Some? {
      RetiredKeepsTable(s, c);
      PublishAllStreams(Retired(s, c), s.members, DisconnectSession(s.members, s.tasks[c].session.value).sends, d);
    }
  }

  lemma SharedStreams(cfg: Config, s: State, step: Step, c: ConnId)
    requires TableOk(s) && Enabled(s, step) && (step.RoomMessage? || step.CleanUp?) && c in s.tasks
    requires s.tasks[step.c].isRegistered == s.tasks[step.c].session.Some?
    ensures var after := Next(cfg, s, step);
            && c in after.streams && s.streams[c] <= after.streams[c]
            && (!IsLive(s.tasks[c]) ==> after.streams[c] == s.streams[c])
  {
    if step.RoomMessage? {
      RoomMessageStreams(cfg, s, step.c, step.message, step.timestamp, c);
    } else {
      CleanUpStreams(s, step.c, c);
    }
  }

  lemma PrivateStreams(cfg: Config, s: State, step: Step, c: ConnId)
    requires Enabled(s, step) && !step.RoomMessage? && !step.CleanUp? && c in s.streams && c in s.tasks
    ensures c in Next(cfg, s, step).streams && s.streams[c] <= Next(cfg, s, step).streams[c]
    ensures c != step.c || (!step.Register? && !step.SendReply?) ==> Next(cfg, s, step).streams[c] == s.streams[c]
  {
  }

  /** Nobody but the connection's own task writes to a stream that is not registered; nobody shortens a stream. */
  lemma StreamStep(cfg: Config, s: State, step: Step, c: ConnId)
    requires TableOk(s) && TasksOk(cfg.permissions, s) && c in s.tasks
    ensures var after := Next(cfg, s, step);
            && c in after.streams && s.streams[c] <= after.streams[c]
            && (c != step.c && !IsLive(s.tasks[c]) ==> after.streams[c] == s.streams[c])
            && (s.tasks[c].pc.Draining? || s.tasks[c].pc.Done? ==> after.streams[c] == s.streams[c])
  {
    if Enabled(s, step) {
      if step.RoomMessage? || step.CleanUp? {
        assert s.tasks[step.c].isRegistered == s.tasks[step.c].session.Some? by {
          assert TaskOk(cfg.permissions, s, step.c, s.tasks[step.c]);
        }
        SharedStreams(cfg, s, step, c);
      } else {
        PrivateStreams(cfg, s, step, c);
      }
    }
  }

  lemma RegisterKeepsSync(s: State, c: ConnId)
    requires SyncOk(s) && c in s.tasks && s.tasks[c].pc.AwaitingLock?
    ensures SyncOk(DoRegister(s, c))
  {
    if s.tasks[c].pc.claimed.userUid in s.connections {
      var closing := WithTask(s, c, s.tasks[c].(pc := Closing));
      assert SyncOk(closing);
      SendKeepsSync(closing, {c}, AuthFailure(InvalidCredentials), {});
    }
  }

  lemma SendReplyKeepsSync(s: State, c: ConnId)
    requires SyncOk(s) && c in s.tasks && s.tasks[c].pc.Replying?
    ensures SyncOk(DoSendReply(s, c))
  {
    var reading := WithTask(s, c, s.tasks[c].(pc := Reading));
    assert SyncOk(reading);
    SendKeepsSync(reading, {c}, s.tasks[c].pc.reply, {});
  }

  lemma RoomMessageKeepsSync(cfg: Config, s: State, c: ConnId, message: ClientMessage, timestamp: U64)
    requires SyncOk(s) && c in s.tasks && s.tasks[c].session.Some?
    ensures SyncOk(DoRoomMessage(cfg, s, c, message, timestamp))
  {
    var effect := HandleAuthenticatedMessage(s.members, s.tasks[c].session.value, message, timestamp, cfg.permissions);
    assert SyncOk(Updated(cfg, s, c, effect));
    PublishAllKeepsSync(Updated(cfg, s, c, effect), s.members, effect.sends);
  }

  lemma CleanUpKeepsSync(s: State, c: ConnId)
    requires SyncOk(s) && c in s.tasks
    ensures SyncOk(DoCleanUp(s, c))
  {
    if s.tasks[c].session.Some? {
      assert SyncOk(Retired(s, c));
      PublishAllKeepsSync(Retired(s, c), s.members, DisconnectSession(s.members, s.tasks[c].session.value).sends);
    }
  }

  lemma NextKeepsSync(cfg: Config, s: State, step: Step)
    requires SyncOk(s) && LogOk(s)
    ensures SyncOk(Next(cfg, s, step))
  {
    if Enabled(s, step) {
      match step
      case Open(c) => OpenKeepsSync(s, c);
      case Register(c) => RegisterKeepsSync(s, c);
      case SendReply(c) => SendReplyKeepsSync(s, c);
      case RoomMessage(c, message, timestamp) => RoomMessageKeepsSync(cfg, s, c, message, timestamp);
      case CleanUp(c) => CleanUpKeepsSync(s, c);
      case _ =>
        assert Next(cfg, s, step).log == s.log && Next(cfg, s, step).streams == s.streams;
    }
  }

  lemma {:induction false} ReachableSyncOk(cfg: Config, steps: seq<Step>)
    ensures SyncOk(Exec(cfg, steps))
    decreases |steps|
  {
    if steps != [] {
      var before := steps[..|steps| - 1];
      ReachableSyncOk(cfg, before);
      ReachableStateOk(cfg, before);
      NextKeepsSync(cfg, Exec(cfg, before), steps[|steps| - 1]);
    }
  }

  // ----- Streams begin with the login conversation -----

  function Replies(ed: Ed25519, heard: seq<AuthInput>): (r: seq<ServerMessage>)
    ensures |r| == |heard|
  {
    if heard == [] then []
    else Replies(ed, heard[..|heard| - 1]) + [ReplyTo(ed, heard, |heard| - 1)]
  }

  lemma RepliesExtend(ed: Ed25519, heard: seq<AuthInput>, input: AuthInput)
    ensures var turned := Turn(ed, StateAfter(ed, heard), input);
            && Replies(ed, heard + [input]) == Replies(ed, heard) + [turned.reply]
            && StateAfter(ed, heard + [input]) == turned.state
  {
    assert (heard + [input])[..|heard|] == heard;
  }

  lemma {:induction false} RepliesAt(ed: Ed25519, heard: seq<AuthInput>, j: nat)
    requires j < |heard|
    ensures Replies(ed, heard)[j] == ReplyTo(ed, heard, j)
    decreases |heard|
  {
    var n := |heard| - 1;
    if j < n {
      assert ReplyTo(ed, heard[..n], j) == ReplyTo(ed, heard, j) by {
        assert heard[..n][..j] == heard[..j];
      }
      RepliesAt(ed, heard[..n], j);
    }
  }

  /** All replies are at the front of the stream, and the last one is the welcome. */
  predicate Welcomed(task: Task, stream: seq<ServerMessage>, replies: seq<ServerMessage>) {
    var n := |replies|;
    && task.session.Some? && 0 < n <= |stream| && stream[..n] == replies
    && stream[n - 1] == Welcome(task.session.value.userUid)
  }

  /** All replies but the last have been sent, and the last is still to come. */
  predicate Awaits(task: Task, stream: seq<ServerMessage>, replies: seq<ServerMessage>, reply: ServerMessage) {
    && replies == stream + [reply]
    && (task.session.Some? ==> reply == Welcome(task.session.value.userUid))
  }

  /** A duplicate login: the welcome was withheld and a refusal sent in its place. */
  predicate Refused(stream: seq<ServerMessage>, replies: seq<ServerMessage>) {
    && replies != [] && replies[|replies| - 1].AuthSuccess?
    && stream == replies[..|replies| - 1] + [AuthFailure(InvalidCredentials)]
  }

  predicate HeardAs(task: Task, stream: seq<ServerMessage>, replies: seq<ServerMessage>) {
    match task.pc
    case Reading => if task.session.None? then stream == replies else Welcomed(task, stream, replies)
    case AwaitingLock(_, reply) => Awaits(task, stream, replies, reply)
    case Replying(reply) => Awaits(task, stream, replies, reply)
    case _ =>
      if task.session.None? then stream == replies || Refused(stream, replies) else Welcomed(task, stream, replies)
  }

  predicate HeardOk(ed: Ed25519, task: Task, stream: seq<ServerMessage>) {
    task.authentication == StateAfter(ed, task.heard) && HeardAs(task, stream, Replies(ed, task.heard))
  }

  ghost predicate AllHeardOk(ed: Ed25519, s: State) {
    forall c :: c in s.tasks ==> c in s.streams && HeardOk(ed, s.tasks[c], s.streams[c])
  }

  lemma WelcomedGrows(task: Task, task': Task, stream: seq<ServerMessage>, stream': seq<ServerMessage>,
                      replies: seq<ServerMessage>)
    requires Welcomed(task, stream, replies) && stream <= stream'
    requires task'.session.Some? && task'.session.value.userUid == task.session.value.userUid
    ensures Welcomed(task', stream', replies)
  {
    assert stream'[..|replies|] == stream[..|replies|];
  }

  lemma AuthMessageKeepsHeard(cfg: Config, s: State, c: ConnId, input: AuthInput)
    requires c in s.tasks && c in s.streams && HeardOk(cfg.ed, s.tasks[c], s.streams[c])
    requires s.tasks[c].pc.Reading? && s.tasks[c].session.None?
    ensures HeardOk(cfg.ed, DoAuthMessage(cfg, s, c, input).tasks[c], s.streams[c])
  {
    RepliesExtend(cfg.ed, s.tasks[c].heard, input);
  }

  lemma RegisterKeepsHeard(cfg: Config, s: State, c: ConnId)
    requires c in s.tasks && c in s.streams && HeardOk(cfg.ed, s.tasks[c], s.streams[c])
    requires s.tasks[c].pc.AwaitingLock? && PcOk(s.tasks[c])
    ensures c in DoRegister(s, c).tasks && c in DoRegister(s, c).streams
    ensures HeardOk(cfg.ed, DoRegister(s, c).tasks[c], DoRegister(s, c).streams[c])
  {
    var replies := Replies(cfg.ed, s.tasks[c].heard);
    assert replies[..|replies| - 1] == s.streams[c];
  }

  lemma SendReplyKeepsHeard(cfg: Config, s: State, c: ConnId)
    requires c in s.tasks && c in s.streams && HeardOk(cfg.ed, s.tasks[c], s.streams[c])
    requires s.tasks[c].pc.Replying?
    ensures c in DoSendReply(s, c).tasks && c in DoSendReply(s, c).streams
    ensures HeardOk(cfg.ed, DoSendReply(s, c).tasks[c], DoSendReply(s, c).streams[c])
  {
    var sent := s.streams[c] + [s.tasks[c].pc.reply];
    assert sent[..|sent|] == sent;
  }

  lemma RoomMessageKeepsHeard(cfg: Config, s: State, c: ConnId, message: ClientMessage, timestamp: U64)
    requires TableOk(s) && c in s.tasks && c in s.streams && HeardOk(cfg.ed, s.tasks[c], s.streams[c])
    requires IsLive(s.tasks[c]) && s.tasks[c].pc.Reading?
    ensures var after := DoRoomMessage(cfg, s, c, message, timestamp);
            c in after.tasks && c in after.streams && HeardOk(cfg.ed, after.tasks[c], after.streams[c])
  {
    var after := DoRoomMessage(cfg, s, c, message, timestamp);
    RoomMessageTasks(cfg, s, c, message, timestamp);
    RoomMessageStreams(cfg, s, c, message, timestamp, c);
    EffectKeepsIdentity(s.members, s.tasks[c].session.value, message, timestamp, cfg.permissions);
    WelcomedGrows(s.tasks[c], after.tasks[c], s.streams[c], after.streams[c], Replies(cfg.ed, s.tasks[c].heard));
  }

  lemma CleanUpKeepsHeard(cfg: Config, s: State, c: ConnId)
    requires TableOk(s) && c in s.tasks && c in s.streams && HeardOk(cfg.ed, s.tasks[c], s.streams[c])
    requires s.tasks[c].pc.Closing? && s.tasks[c].isRegistered == s.tasks[c].session.Some?
    ensures var after := DoCleanUp(s, c);
            c in after.tasks && c in after.streams && HeardOk(cfg.ed, after.tasks[c], after.streams[c])
  {
    CleanUpTasks(s, c);
    CleanUpStreams(s, c, c);
  }

  lemma LocalUpdateKeepsHeard(task: Task, step: Step, stream: seq<ServerMessage>, replies: seq<ServerMessage>)
    requires HeardAs(task, stream, replies)
    requires step.EndOfInput? || step.WriteNext? || step.StopWriter? || step.Finish?
    requires (step.EndOfInput? ==> task.pc.Reading?) && (step.Finish? ==> task.pc.Draining?)
    ensures HeardAs(LocalUpdate(task, step), stream, replies)
  {
  }

  lemma LocalStepKeepsHeard(cfg: Config, s: State, step: Step)
    requires Enabled(s, step) && (step.EndOfInput? || step.WriteNext? || step.StopWriter? || step.Finish?)
    requires step.c in s.streams && HeardOk(cfg.ed, s.tasks[step.c], s.streams[step.c])
    ensures var after := Next(cfg, s, step);
            step.c in after.tasks && step.c in after.streams
            && HeardOk(cfg.ed, after.tasks[step.c], after.streams[step.c])
  {
    LocalStep(cfg, s, step);
    LocalUpdateKeepsHeard(s.tasks[step.c], step, s.streams[step.c], Replies(cfg.ed, s.tasks[step.c].heard));
  }

  lemma OwnStepKeepsHeard(cfg: Config, s: State, step: Step)
    requires TableOk(s) && TasksOk(cfg.permissions, s) && Enabled(s, step)
    requires !step.Open? ==> step.c in s.streams && HeardOk(cfg.ed, s.tasks[step.c], s.streams[step.c])
    ensures var after := Next(cfg, s, step);
            step.c in after.tasks && step.c in after.streams
            && HeardOk(cfg.ed, after.tasks[step.c], after.streams[step.c])
  {
    assert !step.Open? ==>
        PcOk(s.tasks[step.c]) && s.tasks[step.c].isRegistered == s.tasks[step.c].session.Some?
    by {
      assert step.c in s.tasks ==> TaskOk(cfg.permissions, s, step.c, s.tasks[step.c]);
    }
    match step
    case Open(c) =>
    case AuthMessage(c, input) => AuthMessageKeepsHeard(cfg, s, c, input);
    case Register(c) => RegisterKeepsHeard(cfg, s, c);
    case SendReply(c) => SendReplyKeepsHeard(cfg, s, c);
    case RoomMessage(c, message, timestamp) => RoomMessageKeepsHeard(cfg, s, c, message, timestamp);
    case CleanUp(c) => CleanUpKeepsHeard(cfg, s, c);
    case _ => LocalStepKeepsHeard(cfg, s, step);
  }

  lemma RoomlessHearNoEntry(permissions: Permissions, lobby: Lobby, actor: UserUid, roomId: Uuid, uid: UserUid)
    requires RegistryOk(permissions, lobby) && Enters(lobby, actor, roomId, permissions)
    requires uid in lobby.users && uid != actor && lobby.users[uid].room.None?
    ensures var after := Deliver(lobby, actor, PresenceProofs.Entry(lobby, actor, roomId, permissions));
            uid in after.users && after.users[uid].history == lobby.users[uid].history
  {
    EntryDelivers(lobby, actor, roomId, permissions, uid);
    assert EntryNotes(lobby, actor, roomId, uid) == [];
  }

  lemma RoomlessHearNoExit(permissions: Permissions, lobby: Lobby, actor: UserUid, uid: UserUid)
    requires RegistryOk(permissions, lobby) && Leaves(lobby, actor)
    requires uid in lobby.users && uid != actor && lobby.users[uid].room.None?
    ensures var after := Deliver(lobby, actor, Exit(lobby, actor, permissions));
            uid in after.users && after.users[uid].history == lobby.users[uid].history
  {
    ExitDelivers(lobby, actor, permissions, uid);
    assert ExitNotes(lobby, actor, false, uid) == [];
  }

  lemma RoomlessHearNoRelay(permissions: Permissions, lobby: Lobby, actor: UserUid, outgoing: Outgoing, uid: UserUid)
    requires RegistryOk(permissions, lobby) && MayRelay(permissions, lobby, actor, outgoing)
    requires uid in lobby.users && lobby.users[uid].room.None?
    ensures uid in Relay(lobby, outgoing).users && Relay(lobby, outgoing).users[uid].history == lobby.users[uid].history
  {
    assert NoteFor(outgoing, lobby.members, lobby.time, uid) == [];
  }

  /** Nobody's room business reaches a user that is in no room. */
  lemma RoomlessHearNothing(permissions: Permissions, lobby: Lobby, actor: UserUid, message: ClientMessage,
                            timestamp: U64, uid: UserUid)
    requires RegistryOk(permissions, lobby) && actor in lobby.users
    requires uid in lobby.users && uid != actor && lobby.users[uid].room.None?
    ensures uid in RoomEvent(lobby, actor, message, timestamp, permissions).users
    ensures RoomEvent(lobby, actor, message, timestamp, permissions).users[uid].history == lobby.users[uid].history
  {
    RoomEventCases(permissions, lobby, actor, message, timestamp);
    match KindOf(lobby, actor, message, timestamp, permissions)
    case Nothing =>
    case Entering(roomId) => RoomlessHearNoEntry(permissions, lobby, actor, roomId, uid);
    case Exiting => RoomlessHearNoExit(permissions, lobby, actor, uid);
    case Relaying(outgoing) => RoomlessHearNoRelay(permissions, lobby, actor, outgoing, uid);
  }

  lemma RoomlessSeeNoDisconnect(permissions: Permissions, lobby: Lobby, actor: UserUid, uid: UserUid)
    requires RegistryOk(permissions, lobby) && actor in lobby.users
    requires uid in lobby.users && uid != actor && lobby.users[uid].room.None?
    ensures uid in Remove(lobby, actor).users
    ensures Remove(lobby, actor).users[uid].history == lobby.users[uid].history
  {
    if lobby.users[actor].room.Some? {
      RemoveDelivers(lobby, actor, permissions, uid);
      assert ExitNotes(lobby, actor, true, uid) == [];
    } else {
      RemoveQuietly(lobby, actor);
    }
  }

  /** Between registration and its welcome a connection is sent nothing by others. */
  lemma QuietDuringRoomMessage(cfg: Config, s: State, c: ConnId, message: ClientMessage, timestamp: U64, d: ConnId)
    requires StateOk(cfg.permissions, s) && c in s.tasks && IsLive(s.tasks[c]) && s.tasks[c].pc.Reading?
    requires d in s.tasks && c != d && IsLive(s.tasks[d]) && s.tasks[d].pc.Replying?
    ensures History(DoRoomMessage(cfg, s, c, message, timestamp), d) == History(s, d)
  {
    var u, me := s.tasks[d].session.value.userUid, s.tasks[c].session.value.userUid;
    assert TaskOk(cfg.permissions, s, c, s.tasks[c]);
    assert UserOk(cfg.permissions, s.members, |s.log|, u, LobbyOf(s).users[u]);
    RoomMessageLobby(cfg, s, c, message, timestamp);
    RoomlessHearNothing(cfg.permissions, LobbyOf(s), me, message, timestamp, u);
    RoomMessageTasks(cfg, s, c, message, timestamp);
    assert LobbyOf(DoRoomMessage(cfg, s, c, message, timestamp)).users[u].history == LobbyOf(s).users[u].history;
  }

  lemma QuietDuringCleanUp(permissions: Permissions, s: State, c: ConnId, d: ConnId)
    requires StateOk(permissions, s) && c in s.tasks && IsLive(s.tasks[c]) && s.tasks[c].pc.Closing?
    requires d in s.tasks && c != d && IsLive(s.tasks[d]) && s.tasks[d].pc.Replying?
    ensures History(DoCleanUp(s, c), d) == History(s, d)
  {
    var u, me := s.tasks[d].session.value.userUid, s.tasks[c].session.value.userUid;
    assert TaskOk(permissions, s, c, s.tasks[c]);
    assert UserOk(permissions, s.members, |s.log|, u, LobbyOf(s).users[u]);
    CleanUpLobby(s, c);
    RoomlessSeeNoDisconnect(permissions, LobbyOf(s), me, u);
    CleanUpTasks(s, c);
    PublishAllFields(Retired(s, c), s.members, DisconnectSession(s.members, s.tasks[c].session.value).sends);
    assert LobbyOf(DoCleanUp(s, c)).users[u].history == LobbyOf(s).users[u].history;
  }

  lemma QuietWhileReplying(cfg: Config, s: State, step: Step, c: ConnId)
    requires StateOk(cfg.permissions, s) && SyncOk(s) && SyncOk(Next(cfg, s, step))
    requires Enabled(s, step) && (step.RoomMessage? || step.CleanUp?)
    requires c in s.tasks && c != step.c && IsLive(s.tasks[c]) && s.tasks[c].pc.Replying?
    ensures c in Next(cfg, s, step).streams && Next(cfg, s, step).streams[c] == s.streams[c]
  {
    assert TaskOk(cfg.permissions, s, step.c, s.tasks[step.c]);
    StreamStep(cfg, s, step, c);
    if step.RoomMessage? {
      QuietDuringRoomMessage(cfg, s, step.c, step.message, step.timestamp, c);
    } else if s.tasks[step.c].session.Some? {
      QuietDuringCleanUp(cfg.permissions, s, step.c, c);
    }
  }

  lemma OthersWhileReplying(cfg: Config, s: State, step: Step, c: ConnId)
    requires StateOk(cfg.permissions, s) && SyncOk(s) && SyncOk(Next(cfg, s, step))
    requires Enabled(s, step) && c in s.tasks && c != step.c && IsLive(s.tasks[c]) && s.tasks[c].pc.Replying?
    ensures c in Next(cfg, s, step).streams && Next(cfg, s, step).streams[c] == s.streams[c]
  {
    if step.RoomMessage? || step.CleanUp? {
      QuietWhileReplying(cfg, s, step, c);
    } else {
      PrivateStreams(cfg, s, step, c);
    }
  }

  lemma UnchangedTaskKeepsHeard(task: Task, stream: seq<ServerMessage>, stream': seq<ServerMessage>,
                                replies: seq<ServerMessage>)
    requires HeardAs(task, stream, replies) && stream <= stream' && task.isRegistered == task.session.Some?
    requires !IsLive(task) || task.pc.Replying? ==> stream' == stream
    ensures HeardAs(task, stream', replies)
  {
    if IsLive(task) && !task.pc.Replying? {
      WelcomedGrows(task, task, stream, stream', replies);
    }
  }

  lemma OtherStepKeepsHeard(cfg: Config, s: State, step: Step, c: ConnId)
    requires StateOk(cfg.permissions, s) && SyncOk(s) && SyncOk(Next(cfg, s, step))
    requires Enabled(s, step) && c in s.tasks && c != step.c
    requires c in s.streams && HeardOk(cfg.ed, s.tasks[c], s.streams[c])
    ensures var after := Next(cfg, s, step);
            c in after.streams && HeardOk(cfg.ed, s.tasks[c], after.streams[c])
  {
    StreamStep(cfg, s, step, c);
    var stream' := Next(cfg, s, step).streams[c];
    assert TaskOk(cfg.permissions, s, c, s.tasks[c]);
    if IsLive(s.tasks[c]) && s.tasks[c].pc.Replying? {
      OthersWhileReplying(cfg, s, step, c);
    }
    UnchangedTaskKeepsHeard(s.tasks[c], s.streams[c], stream', Replies(cfg.ed, s.tasks[c].heard));
  }

  lemma NextKeepsHeard(cfg: Config, s: State, step: Step)
    requires StateOk(cfg.permissions, s) && SyncOk(s) && SyncOk(Next(cfg, s, step))
    requires AllHeardOk(cfg.ed, s)
    ensures AllHeardOk(cfg.ed, Next(cfg, s, step))
  {
    var after := Next(cfg, s, step);
    if Enabled(s, step) {
      TasksAfter(cfg, s, step);
      forall c | c in after.tasks ensures c in after.streams && HeardOk(cfg.ed, after.tasks[c], after.streams[c]) {
        if c != step.c {
          OtherStepKeepsHeard(cfg, s, step, c);
        } else {
          OwnStepKeepsHeard(cfg, s, step);
        }
      }
    }
  }

  lemma {:induction false} ReachableHeardOk(cfg: Config, steps: seq<Step>)
    ensures AllHeardOk(cfg.ed, Exec(cfg, steps))
    decreases |steps|
  {
    if steps != [] {
      var before := steps[..|steps| - 1];
      ReachableHeardOk(cfg, before);
      ReachableStateOk(cfg, before);
      ReachableSyncOk(cfg, before);
      NextKeepsSync(cfg, Exec(cfg, before), steps[|steps| - 1]);
      NextKeepsHeard(cfg, Exec(cfg, before), steps[|steps| - 1]);
    }
  }

  // ----- Writers -----

  /** A writer that stopped by itself has written its whole stream, and nobody can add to it. */
  predicate WriterOk(task: Task, stream: seq<ServerMessage>) {
    && task.written <= |stream|
    && (task.writer.Finished? ==> task.written == |stream| && (task.pc.Draining? || task.pc.Done?))
    && (task.pc.Done? ==> !task.writer.Running?)
  }

  ghost predicate AllWritersOk(s: State) {
    forall c :: c in s.tasks && c in s.streams ==> WriterOk(s.tasks[c], s.streams[c])
  }

  lemma NoSenderAfterCleanUp(s: State, c: ConnId)
    requires ConnectionsOk(s) && c in s.tasks
    ensures (s.tasks[c].pc.Draining? || s.tasks[c].pc.Done?) <==> !HasSender(s, c)
  {
    if c in s.connections.Values {
      var u :| u in s.connections && s.connections[u] == c;
    }
  }

  lemma CleanedUpStays(cfg: Config, s: State, step: Step, c: ConnId)
    requires c in s.tasks && (s.tasks[c].pc.Draining? || s.tasks[c].pc.Done?)
    ensures c in Next(cfg, s, step).tasks
    ensures Next(cfg, s, step).tasks[c].pc.Draining? || Next(cfg, s, step).tasks[c].pc.Done?
  {
    if Enabled(s, step) {
      TasksAfter(cfg, s, step);
    }
  }

  /** Once cleaned up, a connection is sent nothing more. */
  lemma SilentAfterCleanUp(cfg: Config, s: State, step: Step, c: ConnId)
    requires StateOk(cfg.permissions, s) && c in s.tasks && (s.tasks[c].pc.Draining? || s.tasks[c].pc.Done?)
    ensures var after := Next(cfg, s, step);
            && c in after.tasks && (after.tasks[c].pc.Draining? || after.tasks[c].pc.Done?)
            && c in after.streams && after.streams[c] == s.streams[c]
  {
    StreamStep(cfg, s, step, c);
    CleanedUpStays(cfg, s, step, c);
  }

  /** What a step makes of its own task keeps the writer in order, whatever is added to the stream meanwhile. */
  lemma OwnWriterStep(cfg: Config, s: State, step: Step, stream: seq<ServerMessage>)
    requires ConnectionsOk(s) && Enabled(s, step) && !step.Open? && step.c in s.streams
    requires WriterOk(s.tasks[step.c], s.streams[step.c]) && s.streams[step.c] <= stream
    requires s.tasks[step.c].pc.Draining? || s.tasks[step.c].pc.Done? ==> stream == s.streams[step.c]
    ensures WriterOk(TaskAfter(cfg, s, step), stream)
  {
    if step.StopWriter? {
      NoSenderAfterCleanUp(s, step.c);
    }
  }

  lemma NextKeepsWriters(cfg: Config, s: State, step: Step)
    requires TableOk(s) && TasksOk(cfg.permissions, s) && AllWritersOk(s)
    ensures AllWritersOk(Next(cfg, s, step))
  {
    var after := Next(cfg, s, step);
    if Enabled(s, step) {
      TasksAfter(cfg, s, step);
      forall c | c in after.tasks && c in after.streams ensures WriterOk(after.tasks[c], after.streams[c]) {
        if c in s.tasks {
          StreamStep(cfg, s, step, c);
          if c == step.c {
            OwnWriterStep(cfg, s, step, after.streams[c]);
          }
        }
      }
    }
  }

  lemma {:induction false} ReachableWritersOk(cfg: Config, steps: seq<Step>)
    ensures AllWritersOk(Exec(cfg, steps))
    decreases |steps|
  {
    if steps != [] {
      var before := steps[..|steps| - 1];
      ReachableWritersOk(cfg, before);
      ReachableStateOk(cfg, before);
      NextKeepsWriters(cfg, Exec(cfg, before), steps[|steps| - 1]);
    }
  }
}
