/** Every step of the server is a transition of the lobby or leaves it alone, so every reachable
    state satisfies the lobby's invariant. */
module ServerProofs {
  import opened Protocol
  import opened Rooms
  import opened Dispatch
  import opened Replay
  import opened Presence
  import opened PresenceProofs
  import opened Login
  import opened Server

  // ----- Sends -----

  lemma SendHistory(s: State, to: set<ConnId>, message: ServerMessage, others: set<UserUid>, c: ConnId)
    ensures History(Send(s, to, message, others), c)
         == History(s, c) + if c in to then [Note(message, others, |s.log|)] else []
  {
    assert Send(s, to, message, others).log[..|s.log|] == s.log;
  }

  /** Each stream is the messages of the log that went to it. */
  ghost predicate SyncOk(s: State) {
    forall c :: c in s.streams ==> s.streams[c] == Messages(History(s, c))
  }

  lemma SendStream(s: State, to: set<ConnId>, message: ServerMessage, others: set<UserUid>, c: ConnId)
    requires c in s.streams && s.streams[c] == Messages(History(s, c))
    ensures Send(s, to, message, others).streams[c] == Messages(History(Send(s, to, message, others), c))
  {
    SendHistory(s, to, message, others, c);
    if c in to {
      MessagesExtend(History(s, c), Note(message, others, |s.log|));
    } else {
      assert History(s, c) + [] == History(s, c);
    }
  }

  lemma SendKeepsSync(s: State, to: set<ConnId>, message: ServerMessage, others: set<UserUid>)
    requires SyncOk(s)
    ensures SyncOk(Send(s, to, message, others))
  {
    forall c | c in s.streams
      ensures Send(s, to, message, others).streams[c] == Messages(History(Send(s, to, message, others), c))
    {
      SendStream(s, to, message, others, c);
    }
  }

  ghost predicate LogOk(s: State) {
    && s.streams.Keys == s.tasks.Keys
    && forall i :: 0 <= i < |s.log| ==> s.log[i].to <= s.tasks.Keys
  }

  lemma {:induction false} UnknownConnection(log: seq<Entry>, c: ConnId)
    requires forall i :: 0 <= i < |log| ==> c !in log[i].to
    ensures Project(log, c) == []
    decreases |log|
  {
    if log != [] {
      UnknownConnection(log[..|log| - 1], c);
    }
  }

  predicate IsLive(task: Task) {
    task.isRegistered && task.session.Some? && (task.pc.Reading? || task.pc.Replying? || task.pc.Closing?)
  }

  /** The connection table lists live tasks, each under its own identity. */
  ghost predicate ConnectionsOk(s: State) {
    forall u :: u in s.connections ==>
      && s.connections[u] in s.tasks && IsLive(s.tasks[s.connections[u]])
      && s.tasks[s.connections[u]].session.value.userUid == u
  }

  /** Every live task is in the connection table. */
  ghost predicate LiveOk(s: State) {
    forall c :: c in s.tasks && IsLive(s.tasks[c]) ==>
      && s.tasks[c].session.value.userUid in s.connections
      && s.connections[s.tasks[c].session.value.userUid] == c
  }

  lemma QueuesOf(s: State, to: set<UserUid>, c: ConnId)
    requires ConnectionsOk(s)
    ensures c !in s.connections.Values ==> c !in Queues(s.connections, to)
    ensures forall u :: u in s.connections && s.connections[u] == c ==> (c in Queues(s.connections, to) <==> u in to)
    ensures Queues(s.connections, to) <= s.tasks.Keys
  {
  }

  lemma {:induction false} PublishAllFrame(s: State, before: Members, sends: seq<Outgoing>)
    requires ConnectionsOk(s) && LogOk(s)
    ensures var after := PublishAll(s, before, sends);
            && after == s.(streams := after.streams, log := after.log)
            && |after.log| == |s.log| + |sends|
            && LogOk(after)
    decreases |sends|
  {
    if sends != [] {
      var n := |sends| - 1;
      PublishAllFrame(s, before, sends[..n]);
      QueuesOf(PublishAll(s, before, sends[..n]), sends[n].to, 0);
    }
  }

  lemma {:induction false} PublishAllKeepsSync(s: State, before: Members, sends: seq<Outgoing>)
    requires SyncOk(s)
    ensures SyncOk(PublishAll(s, before, sends))
    decreases |sends|
  {
    if sends != [] {
      var n := |sends| - 1;
      PublishAllKeepsSync(s, before, sends[..n]);
      var middle := PublishAll(s, before, sends[..n]);
      SendKeepsSync(middle, Queues(middle.connections, sends[n].to), sends[n].message, Snapshot(before, sends[n]));
    }
  }

  /** Publishing an effect gives nothing to connections outside the table. */
  lemma {:induction false} PublishAllOther(s: State, before: Members, sends: seq<Outgoing>, c: ConnId)
    requires ConnectionsOk(s) && LogOk(s) && c !in s.connections.Values
    ensures History(PublishAll(s, before, sends), c) == History(s, c)
    decreases |sends|
  {
    if sends != [] {
      var n := |sends| - 1;
      PublishAllOther(s, before, sends[..n], c);
      PublishAllFrame(s, before, sends[..n]);
      var middle := PublishAll(s, before, sends[..n]);
      QueuesOf(middle, sends[n].to, c);
      SendHistory(middle, Queues(middle.connections, sends[n].to), sends[n].message, Snapshot(before, sends[n]), c);
    }
  }

  lemma PublishOneUser(s: State, before: Members, outgoing: Outgoing, u: UserUid)
    requires ConnectionsOk(s) && u in s.connections
    ensures History(Publish(s, before, outgoing), s.connections[u])
         == History(s, s.connections[u]) + NoteFor(outgoing, before, |s.log|, u)
  {
    QueuesOf(s, outgoing.to, s.connections[u]);
    SendHistory(s, Queues(s.connections, outgoing.to), outgoing.message, Snapshot(before, outgoing), s.connections[u]);
  }

  lemma LastNotes(sends: seq<Outgoing>, before: Members, at: nat, u: UserUid,
                  first: seq<Note>, middle: seq<Note>, last: seq<Note>)
    requires sends != []
    requires var n := |sends| - 1;
             middle == first + NotesFor(sends[..n], before, at, u) && last == middle + NoteFor(sends[n], before, at + n, u)
    ensures last == first + NotesFor(sends, before, at, u)
  {
  }

  /** Publishing an effect gives each connected user exactly its notes. */
  lemma {:induction false} PublishAllUser(s: State, before: Members, sends: seq<Outgoing>, u: UserUid)
    requires ConnectionsOk(s) && LogOk(s) && u in s.connections
    ensures History(PublishAll(s, before, sends), s.connections[u])
         == History(s, s.connections[u]) + NotesFor(sends, before, |s.log|, u)
    decreases |sends|
  {
    if sends == [] {
      assert History(s, s.connections[u]) + [] == History(s, s.connections[u]);
    } else {
      var n := |sends| - 1;
      var middle := PublishAll(s, before, sends[..n]);
      PublishAllFrame(s, before, sends[..n]);
      PublishAllUser(s, before, sends[..n], u);
      PublishOneUser(middle, before, sends[n], u);
      LastNotes(sends, before, |s.log|, u, History(s, s.connections[u]), History(middle, s.connections[u]),
                History(Publish(middle, before, sends[n]), s.connections[u]));
    }
  }

  // ----- The lobby of a state -----

  function UserOf(s: State, task: Task, c: ConnId): User
    requires task.session.Some?
  {
    User(task.session.value.activeVoiceRoomId, History(s, c), !task.pc.Replying?)
  }

  ghost function LobbyOf(s: State): Lobby
    requires ConnectionsOk(s)
  {
    Lobby(s.members,
          map u | u in s.connections :: UserOf(s, s.tasks[s.connections[u]], s.connections[u]),
          |s.log|)
  }

  // ----- The invariant -----

  function Welcome(uid: UserUid): ServerMessage {
    AuthSuccess(uid, DefaultDisplayName(uid), SERVER_NAME)
  }

  predicate PcOk(task: Task) {
    match task.pc
    case AwaitingLock(claimed, reply) =>
      task.session.None? && claimed == SessionOf(claimed.userUid, None) && reply == Welcome(claimed.userUid)
    case Replying(reply) =>
      if task.session.Some? then reply == Welcome(task.session.value.userUid) else IsAuthReply(reply)
    case _ => true
  }

  ghost predicate TaskOk(permissions: Permissions, s: State, c: ConnId, task: Task) {
    && task.isRegistered == task.session.Some?
    && (task.session.Some? ==> task.session.value.displayName == DefaultDisplayName(task.session.value.userUid))
    && !task.authentication.Authenticated?
    && PcOk(task)
    && Legal(permissions, History(s, c))
    && (task.session.None? ==> Replayed(History(s, c)) == NOWHERE)
  }

  ghost predicate TasksOk(permissions: Permissions, s: State) {
    forall c :: c in s.tasks ==> TaskOk(permissions, s, c, s.tasks[c])
  }

  ghost predicate TableOk(s: State) {
    LogOk(s) && ConnectionsOk(s) && LiveOk(s)
  }

  ghost predicate StateOk(permissions: Permissions, s: State) {
    TableOk(s) && TasksOk(permissions, s) && LobbyOk(permissions, LobbyOf(s))
  }

  lemma SameLobby(s: State, after: State)
    requires ConnectionsOk(s) && ConnectionsOk(after)
    requires after.members == s.members && after.connections == s.connections && |after.log| == |s.log|
    requires forall u :: u in s.connections ==>
      UserOf(after, after.tasks[s.connections[u]], s.connections[u]) == UserOf(s, s.tasks[s.connections[u]], s.connections[u])
    ensures LobbyOf(after) == LobbyOf(s)
  {
  }

  // ----- Steps that leave the lobby alone -----

  /** A task update that neither registers, nor announces, nor retires its connection. */
  predicate QuietUpdate(before: Task, after: Task) {
    && after.session == before.session && IsLive(after) == IsLive(before)
    && (IsLive(after) ==> after.pc.Replying? == before.pc.Replying?)
  }

  lemma QuietUpdateKeepsTable(s: State, c: ConnId, task: Task)
    requires TableOk(s) && c in s.tasks && QuietUpdate(s.tasks[c], task)
    ensures TableOk(WithTask(s, c, task))
    ensures LobbyOf(WithTask(s, c, task)) == LobbyOf(s)
  {
    var after := WithTask(s, c, task);
    assert after.tasks.Keys == s.tasks.Keys;
    assert forall d :: History(after, d) == History(s, d);
    SameLobby(s, after);
  }

  lemma TaskUpdateKeepsTasks(permissions: Permissions, s: State, c: ConnId, task: Task)
    requires TasksOk(permissions, s) && c in s.tasks && TaskOk(permissions, s, c, task)
    ensures TasksOk(permissions, WithTask(s, c, task))
  {
    var after := WithTask(s, c, task);
    assert after.log == s.log;
  }

  lemma QuietUpdateKeepsState(permissions: Permissions, s: State, c: ConnId, task: Task)
    requires StateOk(permissions, s) && c in s.tasks && QuietUpdate(s.tasks[c], task)
    requires TaskOk(permissions, s, c, task)
    ensures StateOk(permissions, WithTask(s, c, task))
    ensures LobbyOf(WithTask(s, c, task)) == LobbyOf(s)
  {
    QuietUpdateKeepsTable(s, c, task);
    TaskUpdateKeepsTasks(permissions, s, c, task);
  }

  lemma OpenKeepsSync(s: State, c: ConnId)
    requires SyncOk(s) && LogOk(s) && c !in s.tasks
    ensures SyncOk(DoOpen(s, c))
  {
    UnknownConnection(s.log, c);
  }

  lemma OpenKeepsTable(s: State, c: ConnId)
    requires TableOk(s) && c !in s.tasks
    ensures TableOk(DoOpen(s, c))
  {
    assert DoOpen(s, c).tasks.Keys == s.tasks.Keys + {c};
  }

  lemma OpenKeepsLobby(s: State, c: ConnId)
    requires ConnectionsOk(s) && c !in s.tasks && ConnectionsOk(DoOpen(s, c))
    ensures LobbyOf(DoOpen(s, c)) == LobbyOf(s)
  {
    forall u | u in s.connections ensures s.connections[u] != c {
    }
    SameLobby(s, DoOpen(s, c));
  }

  lemma OpenKeepsState(permissions: Permissions, s: State, c: ConnId)
    requires StateOk(permissions, s) && c !in s.tasks
    ensures StateOk(permissions, DoOpen(s, c))
    ensures LobbyOf(DoOpen(s, c)) == LobbyOf(s)
  {
    OpenKeepsTable(s, c);
    OpenKeepsLobby(s, c);
    UnknownConnection(s.log, c);
    var after := DoOpen(s, c);
    forall d | d in after.tasks ensures TaskOk(permissions, after, d, after.tasks[d]) {
      assert History(after, d) == History(s, d);
    }
  }

  lemma SendKeepsTable(s: State, to: set<ConnId>, message: ServerMessage, others: set<UserUid>)
    requires TableOk(s) && to <= s.tasks.Keys
    ensures TableOk(Send(s, to, message, others))
  {
  }

  /** A send to a connection that is not registered only moves the clock. */
  lemma PrivateSendLobby(s: State, c: ConnId, message: ServerMessage)
    requires ConnectionsOk(s) && ConnectionsOk(Send(s, {c}, message, {}))
    requires c in s.tasks && s.tasks[c].session.None?
    ensures LobbyOf(Send(s, {c}, message, {})) == LobbyOf(s).(time := |s.log| + 1)
  {
    var after := Send(s, {c}, message, {});
    forall u | u in s.connections
      ensures UserOf(after, after.tasks[s.connections[u]], s.connections[u])
           == UserOf(s, s.tasks[s.connections[u]], s.connections[u])
    {
      assert s.connections[u] != c;
      SendHistory(s, {c}, message, {}, s.connections[u]);
    }
    assert LobbyOf(after).users == LobbyOf(s).users;
  }

  lemma PrivateSendKeepsTasks(permissions: Permissions, s: State, c: ConnId, message: ServerMessage)
    requires TasksOk(permissions, s) && c in s.tasks && s.tasks[c].session.None? && IsAuthReply(message)
    ensures TasksOk(permissions, Send(s, {c}, message, {}))
  {
    var after := Send(s, {c}, message, {});
    Extend(permissions, History(s, c), Note(message, {}, |s.log|));
    forall d | d in after.tasks ensures TaskOk(permissions, after, d, after.tasks[d]) {
      SendHistory(s, {c}, message, {}, d);
      assert History(s, d) + [] == History(s, d);
      assert TaskOk(permissions, s, d, s.tasks[d]);
    }
  }

  lemma PrivateSendKeepsState(permissions: Permissions, s: State, c: ConnId, message: ServerMessage)
    requires StateOk(permissions, s) && c in s.tasks && s.tasks[c].session.None? && IsAuthReply(message)
    ensures StateOk(permissions, Send(s, {c}, message, {}))
    ensures LobbyOf(Send(s, {c}, message, {})) == LobbyOf(s).(time := |s.log| + 1)
  {
    SendKeepsTable(s, {c}, message, {});
    PrivateSendLobby(s, c, message);
    PrivateSendKeepsTasks(permissions, s, c, message);
    TimeKeepsLobby(permissions, LobbyOf(s), |s.log| + 1);
  }

  // ----- Registering and announcing -----

  lemma RegisterKeepsTable(s: State, c: ConnId)
    requires TableOk(s) && c in s.tasks && s.tasks[c].pc.AwaitingLock? && s.tasks[c].session.None?
    requires s.tasks[c].pc.claimed.userUid !in s.connections
    ensures TableOk(DoRegister(s, c))
  {
    assert DoRegister(s, c).tasks.Keys == s.tasks.Keys;
  }

  lemma RegisterAddsUser(s: State, c: ConnId)
    requires TableOk(s) && c in s.tasks && s.tasks[c].session.None? && PcOk(s.tasks[c])
    requires s.tasks[c].pc.AwaitingLock? && s.tasks[c].pc.claimed.userUid !in s.connections
    requires ConnectionsOk(DoRegister(s, c))
    ensures LobbyOf(DoRegister(s, c)) == Add(LobbyOf(s), s.tasks[c].pc.claimed.userUid, History(s, c))
  {
    forall u | u in s.connections ensures s.connections[u] != c {
    }
    assert LobbyOf(DoRegister(s, c)).users
        == Add(LobbyOf(s), s.tasks[c].pc.claimed.userUid, History(s, c)).users;
  }

  lemma SameTasks(permissions: Permissions, s: State, after: State)
    requires TasksOk(permissions, s) && after.tasks == s.tasks && after.log == s.log
    ensures TasksOk(permissions, after)
  {
  }

  lemma RegisterKeepsState(permissions: Permissions, s: State, c: ConnId)
    requires StateOk(permissions, s) && c in s.tasks && s.tasks[c].pc.AwaitingLock?
    requires s.tasks[c].pc.claimed.userUid !in s.connections
    ensures StateOk(permissions, DoRegister(s, c))
  {
    var after := DoRegister(s, c);
    assert TaskOk(permissions, s, c, s.tasks[c]);
    RegisterKeepsTable(s, c);
    RegisterAddsUser(s, c);
    AddKeepsLobby(permissions, LobbyOf(s), s.tasks[c].pc.claimed.userUid, History(s, c));
    TaskUpdateKeepsTasks(permissions, s, c, after.tasks[c]);
    SameTasks(permissions, WithTask(s, c, after.tasks[c]), after);
  }

  /** What live tasks need beyond the lobby's invariant. */
  lemma LiveTaskOk(permissions: Permissions, s: State, c: ConnId, task: Task)
    requires ConnectionsOk(s) && LobbyOk(permissions, LobbyOf(s))
    requires task.session.Some? && task.isRegistered && !task.authentication.Authenticated? && PcOk(task)
    requires task.session.value.displayName == DefaultDisplayName(task.session.value.userUid)
    requires task.session.value.userUid in s.connections && s.connections[task.session.value.userUid] == c
    ensures TaskOk(permissions, s, c, task)
  {
    var u := task.session.value.userUid;
    assert UserOk(permissions, LobbyOf(s).members, LobbyOf(s).time, u, LobbyOf(s).users[u]);
  }

  lemma AnnounceLobby(s: State, c: ConnId)
    requires TableOk(s) && c in s.tasks && IsLive(s.tasks[c]) && s.tasks[c].pc.Replying? && PcOk(s.tasks[c])
    requires ConnectionsOk(DoSendReply(s, c))
    ensures LobbyOf(DoSendReply(s, c)) == Announce(LobbyOf(s), s.tasks[c].session.value.userUid)
  {
    var after := DoSendReply(s, c);
    var me := s.tasks[c].session.value.userUid;
    forall u | u in s.connections
      ensures LobbyOf(after).users[u] == Announce(LobbyOf(s), me).users[u]
    {
      SendHistory(WithTask(s, c, s.tasks[c].(pc := Reading)), {c}, s.tasks[c].pc.reply, {}, s.connections[u]);
      assert u != me ==> s.connections[u] != c;
    }
    assert LobbyOf(after).users == Announce(LobbyOf(s), me).users;
  }

  lemma QuietTable(s: State, c: ConnId, task: Task)
    requires TableOk(s) && c in s.tasks && IsLive(task) == IsLive(s.tasks[c]) && task.session == s.tasks[c].session
    ensures TableOk(WithTask(s, c, task))
  {
    assert WithTask(s, c, task).tasks.Keys == s.tasks.Keys;
  }

  lemma SendReplyKeepsTable(s: State, c: ConnId)
    requires TableOk(s) && c in s.tasks && s.tasks[c].pc.Replying?
    ensures TableOk(DoSendReply(s, c))
  {
    QuietTable(s, c, s.tasks[c].(pc := Reading));
    SendKeepsTable(WithTask(s, c, s.tasks[c].(pc := Reading)), {c}, s.tasks[c].pc.reply, {});
  }

  lemma AnnounceKeepsTasks(permissions: Permissions, s: State, c: ConnId)
    requires TableOk(s) && TasksOk(permissions, s) && c in s.tasks && IsLive(s.tasks[c]) && s.tasks[c].pc.Replying?
    requires TableOk(DoSendReply(s, c)) && LobbyOk(permissions, LobbyOf(DoSendReply(s, c)))
    ensures TasksOk(permissions, DoSendReply(s, c))
  {
    var after := DoSendReply(s, c);
    forall d | d in after.tasks ensures TaskOk(permissions, after, d, after.tasks[d]) {
      assert TaskOk(permissions, s, d, s.tasks[d]);
      if d == c {
        LiveTaskOk(permissions, after, d, after.tasks[d]);
      } else {
        SendHistory(WithTask(s, c, s.tasks[c].(pc := Reading)), {c}, s.tasks[c].pc.reply, {}, d);
        assert History(s, d) + [] == History(s, d);
      }
    }
  }

  lemma AnnounceKeepsState(permissions: Permissions, s: State, c: ConnId)
    requires StateOk(permissions, s) && c in s.tasks && s.tasks[c].pc.Replying? && s.tasks[c].session.Some?
    ensures StateOk(permissions, DoSendReply(s, c))
  {
    var after := DoSendReply(s, c);
    assert TaskOk(permissions, s, c, s.tasks[c]);
    SendReplyKeepsTable(s, c);
    AnnounceLobby(s, c);
    AnnounceKeepsLobby(permissions, LobbyOf(s), s.tasks[c].session.value.userUid);
    AnnounceKeepsTasks(permissions, s, c);
  }

  // ----- Room messages -----

  lemma EffectKeepsIdentity(members: Members, session: SessionData, message: ClientMessage, timestamp: U64, permissions: Permissions)
    ensures var effect := HandleAuthenticatedMessage(members, session, message, timestamp, permissions);
            effect.session == session.(activeVoiceRoomId := effect.session.activeVoiceRoomId)
  {
  }

  /** The state between updating rooms and session and sending the notifications. */
  function Updated(cfg: Config, s: State, c: ConnId, effect: Effect): State
    requires c in s.tasks
  {
    WithTask(s.(members := effect.members), c, s.tasks[c].(session := Some(effect.session)))
  }

  lemma UpdatedKeepsTable(cfg: Config, s: State, c: ConnId, effect: Effect)
    requires TableOk(s) && c in s.tasks && IsLive(s.tasks[c])
    requires effect.session.userUid == s.tasks[c].session.value.userUid
    ensures TableOk(Updated(cfg, s, c, effect))
  {
    assert Updated(cfg, s, c, effect).tasks.Keys == s.tasks.Keys;
  }

  lemma PublishKeepsTable(s: State, before: Members, sends: seq<Outgoing>)
    requires TableOk(s)
    ensures TableOk(PublishAll(s, before, sends))
    ensures PublishAll(s, before, sends).tasks == s.tasks
    ensures PublishAll(s, before, sends).connections == s.connections
    ensures PublishAll(s, before, sends).members == s.members
    ensures |PublishAll(s, before, sends).log| == |s.log| + |sends|
  {
    PublishAllFrame(s, before, sends);
  }

  lemma SameUsers(a: map<UserUid, User>, b: map<UserUid, User>)
    requires a.Keys == b.Keys && forall u :: u in a ==> a[u] == b[u]
    ensures a == b
  {
  }

  lemma DeliveredTo(lobby: Lobby, actor: UserUid, effect: Effect, u: UserUid)
    requires u in lobby.users
    ensures Deliver(lobby, actor, effect).users[u]
         == User(if u == actor then effect.session.activeVoiceRoomId else lobby.users[u].room,
                 lobby.users[u].history + NotesFor(effect.sends, lobby.members, lobby.time, u),
                 lobby.users[u].announced)
  {
  }

  lemma PublishedUser(updated: State, before: Members, sends: seq<Outgoing>, u: UserUid)
    requires ConnectionsOk(updated) && LogOk(updated) && u in updated.connections
    requires ConnectionsOk(PublishAll(updated, before, sends))
    ensures var c := updated.connections[u];
            var after := PublishAll(updated, before, sends);
            && u in after.connections
            && LobbyOf(after).users[u]
            == User(updated.tasks[c].session.value.activeVoiceRoomId,
                    History(updated, c) + NotesFor(sends, before, |updated.log|, u),
                    !updated.tasks[c].pc.Replying?)
  {
    PublishAllFrame(updated, before, sends);
    PublishAllUser(updated, before, sends, u);
  }

  lemma DeliveredUser(s: State, updated: State, after: State, c: ConnId, effect: Effect, u: UserUid)
    requires ConnectionsOk(s) && ConnectionsOk(updated) && ConnectionsOk(after) && LogOk(updated)
    requires c in s.tasks && IsLive(s.tasks[c]) && s.tasks[c].pc.Reading?
    requires updated == WithTask(s.(members := effect.members), c, s.tasks[c].(session := Some(effect.session)))
    requires effect.session.userUid == s.tasks[c].session.value.userUid
    requires after == PublishAll(updated, s.members, effect.sends)
    requires u in s.connections && (u == effect.session.userUid <==> s.connections[u] == c)
    ensures u in LobbyOf(after).users && u in LobbyOf(s).users
    ensures LobbyOf(after).users[u] == Deliver(LobbyOf(s), effect.session.userUid, effect).users[u]
  {
    PublishedUser(updated, s.members, effect.sends, u);
    DeliveredTo(LobbyOf(s), effect.session.userUid, effect, u);
    assert History(updated, s.connections[u]) == History(s, s.connections[u]);
  }

  /** What a room message does to the lobby. */
  lemma RoomMessageLobby(cfg: Config, s: State, c: ConnId, message: ClientMessage, timestamp: U64)
    requires TableOk(s) && c in s.tasks && IsLive(s.tasks[c]) && s.tasks[c].pc.Reading?
    requires s.tasks[c].session.value.displayName == DefaultDisplayName(s.tasks[c].session.value.userUid)
    ensures var after := DoRoomMessage(cfg, s, c, message, timestamp);
            var me := s.tasks[c].session.value.userUid;
            && TableOk(after)
            && LobbyOf(after) == RoomEvent(LobbyOf(s), me, message, timestamp, cfg.permissions)
  {
    var session := s.tasks[c].session.value;
    var effect := HandleAuthenticatedMessage(s.members, session, message, timestamp, cfg.permissions);
    EffectKeepsIdentity(s.members, session, message, timestamp, cfg.permissions);
    var updated := Updated(cfg, s, c, effect);
    var after := PublishAll(updated, s.members, effect.sends);
    UpdatedKeepsTable(cfg, s, c, effect);
    PublishKeepsTable(updated, s.members, effect.sends);
    assert session == SessionOf(session.userUid, LobbyOf(s).users[session.userUid].room);
    var reached, expected := LobbyOf(after), Deliver(LobbyOf(s), session.userUid, effect);
    forall u | u in s.connections ensures reached.users[u] == expected.users[u] {
      DeliveredUser(s, updated, after, c, effect, u);
    }
    SameUsers(reached.users, expected.users);
  }

  /** What is asked of a task besides its history, when it keeps its session or goes without one. */
  predicate TaskShape(before: Task, task: Task) {
    && task.isRegistered == task.session.Some?
    && task.session.Some? == before.session.Some?
    && !task.authentication.Authenticated?
    && PcOk(task)
    && (task.session.Some? ==> task.session.value.displayName == DefaultDisplayName(task.session.value.userUid))
  }

  /** Settling an effect leaves what is asked of the tasks as it was. */
  lemma UpdatedTasks(cfg: Config, s: State, c: ConnId, effect: Effect)
    requires TasksOk(cfg.permissions, s) && c in s.tasks && s.tasks[c].session.Some?
    requires effect.session == s.tasks[c].session.value.(activeVoiceRoomId := effect.session.activeVoiceRoomId)
    ensures Updated(cfg, s, c, effect).tasks.Keys == s.tasks.Keys
    ensures forall d :: d in s.tasks ==> TaskShape(s.tasks[d], Updated(cfg, s, c, effect).tasks[d])
  {
    forall d | d in s.tasks ensures TaskShape(s.tasks[d], Updated(cfg, s, c, effect).tasks[d]) {
      assert TaskOk(cfg.permissions, s, d, s.tasks[d]);
      assert TaskOk(cfg.permissions, s, c, s.tasks[c]);
    }
  }

  /** Live tasks are judged by the lobby, all others have received nothing. */
  lemma PublishedTasks(permissions: Permissions, s: State, updated: State, before: Members, sends: seq<Outgoing>)
    requires TasksOk(permissions, s) && TableOk(updated) && updated.log == s.log
    requires updated.tasks.Keys == s.tasks.Keys
    requires forall d :: d in s.tasks ==> TaskShape(s.tasks[d], updated.tasks[d])
    requires TableOk(PublishAll(updated, before, sends))
    requires LobbyOk(permissions, LobbyOf(PublishAll(updated, before, sends)))
    ensures TasksOk(permissions, PublishAll(updated, before, sends))
  {
    var after := PublishAll(updated, before, sends);
    PublishAllFrame(updated, before, sends);
    forall d | d in after.tasks ensures TaskOk(permissions, after, d, after.tasks[d]) {
      if d in updated.connections.Values {
        var u :| u in updated.connections && updated.connections[u] == d;
        LiveTaskOk(permissions, after, d, after.tasks[d]);
      } else {
        PublishAllOther(updated, before, sends, d);
        assert TaskOk(permissions, s, d, s.tasks[d]);
      }
    }
  }

  lemma RoomMessageKeepsTasks(cfg: Config, s: State, c: ConnId, message: ClientMessage, timestamp: U64)
    requires TableOk(s) && TasksOk(cfg.permissions, s)
    requires c in s.tasks && s.tasks[c].pc.Reading? && s.tasks[c].session.Some?
    requires TableOk(DoRoomMessage(cfg, s, c, message, timestamp))
    requires LobbyOk(cfg.permissions, LobbyOf(DoRoomMessage(cfg, s, c, message, timestamp)))
    ensures TasksOk(cfg.permissions, DoRoomMessage(cfg, s, c, message, timestamp))
  {
    var session := s.tasks[c].session.value;
    var effect := HandleAuthenticatedMessage(s.members, session, message, timestamp, cfg.permissions);
    EffectKeepsIdentity(s.members, session, message, timestamp, cfg.permissions);
    var updated := Updated(cfg, s, c, effect);
    UpdatedKeepsTable(cfg, s, c, effect);
    UpdatedTasks(cfg, s, c, effect);
    PublishedTasks(cfg.permissions, s, updated, s.members, effect.sends);
  }

  lemma RoomMessageKeepsState(cfg: Config, s: State, c: ConnId, message: ClientMessage, timestamp: U64)
    requires StateOk(cfg.permissions, s) && c in s.tasks && s.tasks[c].pc.Reading? && s.tasks[c].session.Some?
    ensures StateOk(cfg.permissions, DoRoomMessage(cfg, s, c, message, timestamp))
  {
    assert TaskOk(cfg.permissions, s, c, s.tasks[c]);
    RoomMessageLobby(cfg, s, c, message, timestamp);
    RoomEventKeepsLobby(cfg.permissions, LobbyOf(s), s.tasks[c].session.value.userUid, message, timestamp);
    RoomMessageKeepsTasks(cfg, s, c, message, timestamp);
  }

  // ----- Clean-up -----

  /** The state after the connection's own entry and membership are gone, before peers are told. */
  function Retired(s: State, c: ConnId): State
    requires c in s.tasks && s.tasks[c].session.Some?
  {
    var session := s.tasks[c].session.value;
    WithTask(s, c, s.tasks[c].(pc := Draining))
      .(connections := s.connections - {session.userUid}, members := DisconnectSession(s.members, session).members)
  }

  lemma RetiredKeepsTable(s: State, c: ConnId)
    requires TableOk(s) && c in s.tasks && IsLive(s.tasks[c])
    ensures TableOk(Retired(s, c))
  {
    assert Retired(s, c).tasks.Keys == s.tasks.Keys;
  }

  lemma RemovedKeys(lobby: Lobby, actor: UserUid)
    requires actor in lobby.users
    ensures Remove(lobby, actor).users.Keys == lobby.users.Keys - {actor}
  {
  }

  lemma RetiredUser(s: State, c: ConnId, retired: State, after: State, effect: Effect, u: UserUid)
    requires ConnectionsOk(s) && ConnectionsOk(retired) && ConnectionsOk(after) && LogOk(retired)
    requires c in s.tasks && IsLive(s.tasks[c]) && retired == Retired(s, c)
    requires s.tasks[c].session.value.userUid in s.connections && s.connections[s.tasks[c].session.value.userUid] == c
    requires effect == DisconnectSession(s.members, s.tasks[c].session.value)
    requires after == PublishAll(retired, s.members, effect.sends)
    requires s.tasks[c].session.value
          == SessionOf(s.tasks[c].session.value.userUid, LobbyOf(s).users[s.tasks[c].session.value.userUid].room)
    requires u in retired.connections
    ensures u in LobbyOf(after).users && u in LobbyOf(s).users
    ensures LobbyOf(after).users[u] == Remove(LobbyOf(s), s.tasks[c].session.value.userUid).users[u]
  {
    var me := s.tasks[c].session.value.userUid;
    assert s.connections[u] != c;
    PublishedUser(retired, s.members, effect.sends, u);
    DeliveredTo(LobbyOf(s).(users := LobbyOf(s).users - {me}), me, effect, u);
    assert History(retired, s.connections[u]) == History(s, s.connections[u]);
  }

  lemma CleanUpLobby(s: State, c: ConnId)
    requires TableOk(s) && c in s.tasks && IsLive(s.tasks[c])
    requires s.tasks[c].session.value.displayName == DefaultDisplayName(s.tasks[c].session.value.userUid)
    ensures var after := DoCleanUp(s, c);
            TableOk(after) && LobbyOf(after) == Remove(LobbyOf(s), s.tasks[c].session.value.userUid)
  {
    var session := s.tasks[c].session.value;
    var me := session.userUid;
    var effect := DisconnectSession(s.members, session);
    var retired := Retired(s, c);
    var after := PublishAll(retired, s.members, effect.sends);
    RetiredKeepsTable(s, c);
    PublishKeepsTable(retired, s.members, effect.sends);
    assert session == SessionOf(me, LobbyOf(s).users[me].room);
    RemovedKeys(LobbyOf(s), me);
    var reached, expected := LobbyOf(after), Remove(LobbyOf(s), me);
    forall u | u in retired.connections ensures reached.users[u] == expected.users[u] {
      RetiredUser(s, c, retired, after, effect, u);
    }
    SameUsers(reached.users, expected.users);
  }

  /** Retiring a connection leaves what is asked of the tasks as it was. */
  lemma RetiredTasks(permissions: Permissions, s: State, c: ConnId)
    requires TasksOk(permissions, s) && c in s.tasks && s.tasks[c].session.Some?
    ensures Retired(s, c).tasks.Keys == s.tasks.Keys
    ensures forall d :: d in s.tasks ==> TaskShape(s.tasks[d], Retired(s, c).tasks[d])
  {
    forall d | d in s.tasks ensures TaskShape(s.tasks[d], Retired(s, c).tasks[d]) {
      assert TaskOk(permissions, s, d, s.tasks[d]);
    }
  }

  lemma CleanUpKeepsTasks(permissions: Permissions, s: State, c: ConnId)
    requires TableOk(s) && TasksOk(permissions, s) && c in s.tasks && IsLive(s.tasks[c])
    requires TableOk(DoCleanUp(s, c)) && LobbyOk(permissions, LobbyOf(DoCleanUp(s, c)))
    ensures TasksOk(permissions, DoCleanUp(s, c))
  {
    RetiredKeepsTable(s, c);
    RetiredTasks(permissions, s, c);
    PublishedTasks(permissions, s, Retired(s, c), s.members, DisconnectSession(s.members, s.tasks[c].session.value).sends);
  }

  lemma CleanUpKeepsState(permissions: Permissions, s: State, c: ConnId)
    requires StateOk(permissions, s) && c in s.tasks && s.tasks[c].pc.Closing?
    ensures StateOk(permissions, DoCleanUp(s, c))
  {
    assert TaskOk(permissions, s, c, s.tasks[c]);
    if s.tasks[c].session.None? {
      QuietUpdateKeepsState(permissions, s, c, s.tasks[c].(pc := Draining));
    } else {
      CleanUpLobby(s, c);
      RemoveKeepsLobby(permissions, LobbyOf(s), s.tasks[c].session.value.userUid);
      CleanUpKeepsTasks(permissions, s, c);
    }
  }

  // ----- Any step, any run -----

  lemma RegisterStepKeepsState(permissions: Permissions, s: State, c: ConnId)
    requires StateOk(permissions, s) && c in s.tasks && s.tasks[c].pc.AwaitingLock?
    ensures StateOk(permissions, DoRegister(s, c))
  {
    assert TaskOk(permissions, s, c, s.tasks[c]);
    if s.tasks[c].pc.claimed.userUid in s.connections {
      QuietUpdateKeepsState(permissions, s, c, s.tasks[c].(pc := Closing));
      PrivateSendKeepsState(permissions, WithTask(s, c, s.tasks[c].(pc := Closing)), c, AuthFailure(InvalidCredentials));
    } else {
      RegisterKeepsState(permissions, s, c);
    }
  }

  lemma SendReplyKeepsState(permissions: Permissions, s: State, c: ConnId)
    requires StateOk(permissions, s) && c in s.tasks && s.tasks[c].pc.Replying?
    ensures StateOk(permissions, DoSendReply(s, c))
  {
    assert TaskOk(permissions, s, c, s.tasks[c]);
    if s.tasks[c].session.Some? {
      AnnounceKeepsState(permissions, s, c);
    } else {
      QuietUpdateKeepsState(permissions, s, c, s.tasks[c].(pc := Reading));
      PrivateSendKeepsState(permissions, WithTask(s, c, s.tasks[c].(pc := Reading)), c, s.tasks[c].pc.reply);
    }
  }

  function LocalUpdate(task: Task, step: Step): Task {
    match step
    case EndOfInput(_) => task.(pc := Closing)
    case WriteNext(_, succeeds) => if succeeds then task.(written := task.written + 1) else task.(writer := Failed)
    case StopWriter(_) => task.(writer := Finished)
    case _ => task.(pc := Done)
  }

  lemma LocalStep(cfg: Config, s: State, step: Step)
    requires Enabled(s, step) && (step.EndOfInput? || step.WriteNext? || step.StopWriter? || step.Finish?)
    ensures Next(cfg, s, step) == WithTask(s, step.c, LocalUpdate(s.tasks[step.c], step))
    ensures QuietUpdate(s.tasks[step.c], LocalUpdate(s.tasks[step.c], step))
  {
  }

  lemma TaskStepKeepsState(permissions: Permissions, s: State, c: ConnId, task: Task)
    requires StateOk(permissions, s) && c in s.tasks && QuietUpdate(s.tasks[c], task)
    requires task.isRegistered == s.tasks[c].isRegistered && task.authentication == s.tasks[c].authentication
    requires task.pc == s.tasks[c].pc || task.pc.Closing? || task.pc.Done?
    ensures StateOk(permissions, WithTask(s, c, task))
    ensures LobbyOf(WithTask(s, c, task)) == LobbyOf(s)
  {
    assert TaskOk(permissions, s, c, s.tasks[c]);
    QuietUpdateKeepsState(permissions, s, c, task);
  }

  /** Steps of a single task or writer that send nothing. */
  lemma LocalStepKeepsState(cfg: Config, s: State, step: Step)
    requires StateOk(cfg.permissions, s) && Enabled(s, step)
    requires step.EndOfInput? || step.WriteNext? || step.StopWriter? || step.Finish?
    ensures StateOk(cfg.permissions, Next(cfg, s, step))
    ensures LobbyOf(Next(cfg, s, step)) == LobbyOf(s)
  {
    LocalStep(cfg, s, step);
    TaskStepKeepsState(cfg.permissions, s, step.c, LocalUpdate(s.tasks[step.c], step));
  }

  lemma TurnGrants(ed: Ed25519, state: AuthenticationState, input: AuthInput)
    requires !state.Authenticated?
    ensures var turned := Turn(ed, state, input);
            && !turned.state.Authenticated?
            && (match turned.session
                case Some(session) =>
                  session == SessionOf(session.userUid, None) && turned.reply == Welcome(session.userUid)
                case None => IsAuthReply(turned.reply))
  {
  }

  lemma AuthMessageKeepsState(cfg: Config, s: State, c: ConnId, input: AuthInput)
    requires StateOk(cfg.permissions, s) && c in s.tasks && s.tasks[c].pc.Reading? && s.tasks[c].session.None?
    ensures StateOk(cfg.permissions, DoAuthMessage(cfg, s, c, input))
    ensures LobbyOf(DoAuthMessage(cfg, s, c, input)) == LobbyOf(s)
  {
    assert TaskOk(cfg.permissions, s, c, s.tasks[c]);
    TurnGrants(cfg.ed, s.tasks[c].authentication, input);
    QuietUpdateKeepsState(cfg.permissions, s, c, DoAuthMessage(cfg, s, c, input).tasks[c]);
  }

  lemma NextKeepsState(cfg: Config, s: State, step: Step)
    requires StateOk(cfg.permissions, s)
    ensures StateOk(cfg.permissions, Next(cfg, s, step))
  {
    if Enabled(s, step) {
      match step
      case Open(c) => OpenKeepsState(cfg.permissions, s, c);
      case AuthMessage(c, input) => AuthMessageKeepsState(cfg, s, c, input);
      case Register(c) => RegisterStepKeepsState(cfg.permissions, s, c);
      case SendReply(c) => SendReplyKeepsState(cfg.permissions, s, c);
      case RoomMessage(c, message, timestamp) => RoomMessageKeepsState(cfg, s, c, message, timestamp);
      case CleanUp(c) => CleanUpKeepsState(cfg.permissions, s, c);
      case _ => LocalStepKeepsState(cfg, s, step);
    }
  }

  lemma {:induction false} ReachableStateOk(cfg: Config, steps: seq<Step>)
    ensures StateOk(cfg.permissions, Exec(cfg, steps))
    decreases |steps|
  {
    if steps != [] {
      ReachableStateOk(cfg, steps[..|steps| - 1]);
      NextKeepsState(cfg, Exec(cfg, steps[..|steps| - 1]), steps[|steps| - 1]);
    }
  }
}
