/** The server as concurrent tasks over one locked state (server/src/main.rs). A step is one region
    under the lock, one action of a connection's own task, or one action of its writer; a run is any
    sequence of steps of any tasks. */
module Server {
  import opened Protocol
  import opened Rooms
  import opened Dispatch
  import opened Replay
  import opened Presence
  import opened Login

  type ConnId = nat

  /** Where the task of a connection is:
      - Reading:      waiting for the next frame
      - AwaitingLock: logged in, about to enter itself into the connection table
      - Replying:     about to queue the reply to an authentication message, without the lock
      - Closing:      out of the read loop, clean-up not yet done
      - Draining:     cleaned up and its sender dropped, waiting for the writer
      - Done:         returned */
  datatype Pc =
    | Reading
    | AwaitingLock(claimed: SessionData, reply: ServerMessage)
    | Replying(reply: ServerMessage)
    | Closing
    | Draining
    | Done

  datatype Writer = Running | Finished | Failed

  /** heard is the history of authentication inputs; written counts the messages on the socket. */
  datatype Task = Task(
    pc: Pc, authentication: AuthenticationState, session: Option<SessionData>, isRegistered: bool,
    heard: seq<AuthInput>, writer: Writer, written: nat)

  const NEW_TASK := Task(Reading, Connected, None, false, [], Running, 0)

  /** One send: the queues it went to. */
  datatype Entry = Entry(to: set<ConnId>, note: Note)

  /** streams holds, for each connection, everything ever sent to its outbound queue; log is the
      history of all sends of the server in order. */
  datatype State = State(
    members: Members, connections: map<UserUid, ConnId>,
    tasks: map<ConnId, Task>, streams: map<ConnId, seq<ServerMessage>>, log: seq<Entry>)

  const INITIAL := State(map[], map[], map[], map[], [])

  datatype Config = Config(ed: Ed25519, permissions: Permissions)

  datatype Step =
    | Open(c: ConnId)
    | AuthMessage(c: ConnId, input: AuthInput)
    | Register(c: ConnId)
    | SendReply(c: ConnId)
    | RoomMessage(c: ConnId, message: ClientMessage, timestamp: U64)
    | EndOfInput(c: ConnId)
    | CleanUp(c: ConnId)
    | WriteNext(c: ConnId, succeeds: bool)
    | StopWriter(c: ConnId)
    | Finish(c: ConnId)

  function Send(s: State, to: set<ConnId>, message: ServerMessage, others: set<UserUid>): State {
    s.(streams := map c | c in s.streams :: if c in to then s.streams[c] + [message] else s.streams[c],
       log := s.log + [Entry(to, Note(message, others, |s.log|))])
  }

  function Queues(connections: map<UserUid, ConnId>, to: set<UserUid>): set<ConnId> {
    set u | u in to && u in connections :: connections[u]
  }

  function Publish(s: State, before: Members, outgoing: Outgoing): State {
    Send(s, Queues(s.connections, outgoing.to), outgoing.message, Snapshot(before, outgoing))
  }

  function PublishAll(s: State, before: Members, sends: seq<Outgoing>): State {
    if sends == [] then s
    else Publish(PublishAll(s, before, sends[..|sends| - 1]), before, sends[|sends| - 1])
  }

  function WithTask(s: State, c: ConnId, task: Task): State {
    s.(tasks := s.tasks[c := task])
  }

  /** A writer's channel is open while its task or the connection table holds a sender for it. */
  predicate HasSender(s: State, c: ConnId)
    requires c in s.tasks
  {
    (!s.tasks[c].pc.Draining? && !s.tasks[c].pc.Done?) || c in s.connections.Values
  }

  predicate Enabled(s: State, step: Step) {
    match step
    case Open(c) => c !in s.tasks
    case AuthMessage(c, _) => c in s.tasks && s.tasks[c].pc.Reading? && s.tasks[c].session.None?
    case Register(c) => c in s.tasks && s.tasks[c].pc.AwaitingLock?
    case SendReply(c) => c in s.tasks && s.tasks[c].pc.Replying?
    case RoomMessage(c, _, _) => c in s.tasks && s.tasks[c].pc.Reading? && s.tasks[c].session.Some?
    case EndOfInput(c) => c in s.tasks && s.tasks[c].pc.Reading?
    case CleanUp(c) => c in s.tasks && s.tasks[c].pc.Closing?
    case WriteNext(c, _) =>
      c in s.tasks && s.tasks[c].writer.Running? && c in s.streams && s.tasks[c].written < |s.streams[c]|
    case StopWriter(c) =>
      && c in s.tasks && s.tasks[c].writer.Running? && c in s.streams && s.tasks[c].written == |s.streams[c]|
      && !HasSender(s, c)
    case Finish(c) => c in s.tasks && s.tasks[c].pc.Draining? && !s.tasks[c].writer.Running?
  }

  function DoOpen(s: State, c: ConnId): State {
    s.(tasks := s.tasks[c := NEW_TASK], streams := s.streams[c := []])
  }

  function DoAuthMessage(cfg: Config, s: State, c: ConnId, input: AuthInput): State
    requires c in s.tasks
  {
    var task := s.tasks[c];
    var turned := Turn(cfg.ed, task.authentication, input);
    WithTask(s, c, task.(
      authentication := turned.state,
      heard := task.heard + [input],
      pc := if turned.session.Some? then AwaitingLock(turned.session.value, turned.reply) else Replying(turned.reply)))
  }

  function DoRegister(s: State, c: ConnId): State
    requires c in s.tasks && s.tasks[c].pc.AwaitingLock?
  {
    var task := s.tasks[c];
    var claimed := task.pc.claimed;
    if claimed.userUid in s.connections then
      Send(WithTask(s, c, task.(pc := Closing)), {c}, AuthFailure(InvalidCredentials), {})
    else
      WithTask(s.(connections := s.connections[claimed.userUid := c]), c,
               task.(session := Some(claimed), isRegistered := true, pc := Replying(task.pc.reply)))
  }

  function DoSendReply(s: State, c: ConnId): State
    requires c in s.tasks && s.tasks[c].pc.Replying?
  {
    Send(WithTask(s, c, s.tasks[c].(pc := Reading)), {c}, s.tasks[c].pc.reply, {})
  }

  function DoRoomMessage(cfg: Config, s: State, c: ConnId, message: ClientMessage, timestamp: U64): State
    requires c in s.tasks && s.tasks[c].session.Some?
  {
    var task := s.tasks[c];
    var effect := HandleAuthenticatedMessage(s.members, task.session.value, message, timestamp, cfg.permissions);
    PublishAll(WithTask(s.(members := effect.members), c, task.(session := Some(effect.session))),
               s.members, effect.sends)
  }

  function DoCleanUp(s: State, c: ConnId): State
    requires c in s.tasks
  {
    var task := s.tasks[c];
    var closed := WithTask(s, c, task.(pc := Draining));
    if !task.isRegistered || task.session.None? then closed
    else
      var effect := DisconnectSession(s.members, task.session.value);
      PublishAll(closed.(connections := s.connections - {task.session.value.userUid}, members := effect.members),
                 s.members, effect.sends)
  }

  /** A step that is not enabled changes nothing. */
  function Next(cfg: Config, s: State, step: Step): State {
    if !Enabled(s, step) then s
    else match step
      case Open(c) => DoOpen(s, c)
      case AuthMessage(c, input) => DoAuthMessage(cfg, s, c, input)
      case Register(c) => DoRegister(s, c)
      case SendReply(c) => DoSendReply(s, c)
      case RoomMessage(c, message, timestamp) => DoRoomMessage(cfg, s, c, message, timestamp)
      case EndOfInput(c) => WithTask(s, c, s.tasks[c].(pc := Closing))
      case CleanUp(c) => DoCleanUp(s, c)
      case WriteNext(c, succeeds) =>
        WithTask(s, c, if succeeds then s.tasks[c].(written := s.tasks[c].written + 1) else s.tasks[c].(writer := Failed))
      case StopWriter(c) => WithTask(s, c, s.tasks[c].(writer := Finished))
      case Finish(c) => WithTask(s, c, s.tasks[c].(pc := Done))
  }

  function ExecFrom(cfg: Config, s: State, steps: seq<Step>): State {
    if steps == [] then s
    else Next(cfg, ExecFrom(cfg, s, steps[..|steps| - 1]), steps[|steps| - 1])
  }

  /** The state reached by a run; the reachable states are those of all runs. */
  function Exec(cfg: Config, steps: seq<Step>): State {
    ExecFrom(cfg, INITIAL, steps)
  }

  /** The part of the log that went to one connection. */
  function Project(log: seq<Entry>, c: ConnId): seq<Note> {
    if log == [] then []
    else
      var n := |log| - 1;
      Project(log[..n], c) + if c in log[n].to then [log[n].note] else []
  }

  function History(s: State, c: ConnId): seq<Note> {
    Project(s.log, c)
  }
}
