/** What steps of the server add to the log of sends when every task belongs to a known user. */
module LogProofs {
  import opened Protocol
  import opened Rooms
  import opened Dispatch
  import opened Login
  import opened Server
  import opened ServerProofs
  import opened ServerHistory

  /** Welcomes go to the user they name, signals to somebody else than their sender. */
  predicate Fits(message: ServerMessage, ident: UserUid) {
    match message
    case AuthSuccess(uid, _, _) => uid == ident
    case ForwardWebRtcSdp(_, sender, _, _) => sender != ident
    case ForwardWebRtcIce(_, sender, _) => sender != ident
    case _ => true
  }

  /** A client identifies as its own user and signals to others only. */
  predicate FrameFits(frame: ClientMessage, ident: UserUid) {
    match frame
    case AuthIdentify(_, uid) => uid == ident
    case SendWebRtcSdp(_, target, _, _) => target != ident
    case SendWebRtcIce(_, target, _) => target != ident
    case _ => true
  }

  predicate TaskFits(task: Task, ident: UserUid) {
    && (task.session.Some? ==> task.session.value.userUid == ident)
    && !task.authentication.Authenticated?
    && (task.authentication.ChallengeIssued? ==> task.authentication.challenge.claims.clientUid == ident)
    && match task.pc
       case AwaitingLock(claimed, reply) => claimed.userUid == ident && Fits(reply, ident)
       case Replying(reply) => Fits(reply, ident)
       case _ => true
  }

  type Idents = map<ConnId, UserUid>

  predicate EntryFits(idents: Idents, entry: Entry) {
    forall c :: c in entry.to ==> c in idents && Fits(entry.note.message, idents[c])
  }

  predicate LogFits(idents: Idents, log: seq<Entry>) {
    forall i :: 0 <= i < |log| ==> EntryFits(idents, log[i])
  }

  predicate TasksFit(idents: Idents, tasks: map<ConnId, Task>) {
    tasks.Keys == idents.Keys && forall c :: c in tasks ==> TaskFits(tasks[c], idents[c])
  }

  predicate ConnectionsFit(idents: Idents, connections: map<UserUid, ConnId>) {
    forall u :: u in connections ==> connections[u] in idents && idents[connections[u]] == u
  }

  predicate StepFits(idents: Idents, step: Step) {
    match step
    case AuthMessage(c, input) => c in idents && FrameFits(input.message, idents[c])
    case RoomMessage(c, message, _) => c in idents && FrameFits(message, idents[c])
    case _ => true
  }

  lemma ConnectionsAreTheirUsers(idents: Idents, s: State)
    requires ConnectionsOk(s) && TasksFit(idents, s.tasks)
    ensures ConnectionsFit(idents, s.connections)
  {
  }

  // ----- Sends -----

  predicate SendsFit(sends: seq<Outgoing>) {
    forall k, u :: 0 <= k < |sends| && u in sends[k].to ==> Fits(sends[k].message, u)
  }

  lemma EffectFits(members: Members, session: SessionData, message: ClientMessage, timestamp: U64, permissions: Permissions)
    requires FrameFits(message, session.userUid)
    ensures SendsFit(HandleAuthenticatedMessage(members, session, message, timestamp, permissions).sends)
  {
  }

  lemma DisconnectFits(members: Members, session: SessionData)
    ensures SendsFit(DisconnectSession(members, session).sends)
  {
  }

  lemma {:induction false} PublishAllLog(s: State, before: Members, sends: seq<Outgoing>)
    ensures s.log <= PublishAll(s, before, sends).log
    ensures PublishAll(s, before, sends).connections == s.connections
    decreases |sends|
  {
    if sends != [] {
      PublishAllLog(s, before, sends[..|sends| - 1]);
    }
  }

  lemma {:induction false} PublishAllFits(idents: Idents, s: State, before: Members, sends: seq<Outgoing>)
    requires LogFits(idents, s.log) && ConnectionsFit(idents, s.connections) && SendsFit(sends)
    ensures LogFits(idents, PublishAll(s, before, sends).log)
    decreases |sends|
  {
    if sends != [] {
      var n := |sends| - 1;
      assert SendsFit(sends[..n]);
      PublishAllFits(idents, s, before, sends[..n]);
      PublishAllLog(s, before, sends[..n]);
    }
  }

  /** The log only grows. */
  lemma LogGrows(cfg: Config, s: State, step: Step)
    ensures s.log <= Next(cfg, s, step).log
  {
    if Enabled(s, step) {
      match step
      case RoomMessage(c, message, timestamp) =>
        var effect := HandleAuthenticatedMessage(s.members, s.tasks[c].session.value, message, timestamp, cfg.permissions);
        PublishAllLog(Updated(cfg, s, c, effect), s.members, effect.sends);
      case CleanUp(c) =>
        if s.tasks[c].session.Some? {
          PublishAllLog(Retired(s, c), s.members, DisconnectSession(s.members, s.tasks[c].session.value).sends);
        }
      case _ =>
    }
  }

  lemma {:induction false} ProjectPrefix(log: seq<Entry>, log': seq<Entry>, c: ConnId)
    requires log <= log'
    ensures Project(log, c) <= Project(log', c)
    decreases |log'|
  {
    if log != log' {
      var n := |log'| - 1;
      ProjectPrefix(log, log'[..n], c);
    }
  }

  lemma HistoryGrows(cfg: Config, s: State, step: Step, c: ConnId)
    ensures History(s, c) <= History(Next(cfg, s, step), c)
  {
    LogGrows(cfg, s, step);
    ProjectPrefix(s.log, Next(cfg, s, step).log, c);
  }

  lemma {:induction false} HistoryFits(idents: Idents, log: seq<Entry>, c: ConnId, k: nat)
    requires LogFits(idents, log) && c in idents && k < |Project(log, c)|
    ensures Fits(Project(log, c)[k].message, idents[c])
    decreases |log|
  {
    var n := |log| - 1;
    if k < |Project(log[..n], c)| {
      HistoryFits(idents, log[..n], c, k);
    } else {
      assert EntryFits(idents, log[n]);
    }
  }

  // ----- Steps -----

  lemma TurnFits(ed: Ed25519, task: Task, ident: UserUid, input: AuthInput)
    requires TaskFits(task, ident) && FrameFits(input.message, ident)
    ensures var turned := Turn(ed, task.authentication, input);
            && !turned.state.Authenticated?
            && (turned.state.ChallengeIssued? ==> turned.state.challenge.claims.clientUid == ident)
            && (turned.session.Some? ==> turned.session.value.userUid == ident)
            && Fits(turned.reply, ident)
  {
  }

  lemma OpenFits(idents: Idents, s: State, c: ConnId, ident: UserUid)
    requires TasksFit(idents, s.tasks) && LogFits(idents, s.log) && c !in s.tasks
    ensures TasksFit(idents[c := ident], DoOpen(s, c).tasks) && LogFits(idents[c := ident], DoOpen(s, c).log)
  {
    forall i | 0 <= i < |s.log| ensures EntryFits(idents[c := ident], s.log[i]) {
      assert EntryFits(idents, s.log[i]);
    }
  }

  lemma RoomMessageKeepsLogFit(cfg: Config, s: State, c: ConnId, message: ClientMessage, timestamp: U64, idents: Idents)
    requires c in s.tasks && s.tasks[c].session.Some? && c in idents
    requires s.tasks[c].session.value.userUid == idents[c] && FrameFits(message, idents[c])
    requires ConnectionsFit(idents, s.connections) && LogFits(idents, s.log)
    ensures LogFits(idents, DoRoomMessage(cfg, s, c, message, timestamp).log)
  {
    var session := s.tasks[c].session.value;
    var effect := HandleAuthenticatedMessage(s.members, session, message, timestamp, cfg.permissions);
    EffectFits(s.members, session, message, timestamp, cfg.permissions);
    PublishAllFits(idents, Updated(cfg, s, c, effect), s.members, effect.sends);
  }

  lemma CleanUpKeepsLogFit(s: State, c: ConnId, idents: Idents)
    requires c in s.tasks && ConnectionsFit(idents, s.connections) && LogFits(idents, s.log)
    ensures LogFits(idents, DoCleanUp(s, c).log)
  {
    if s.tasks[c].session.Some? {
      DisconnectFits(s.members, s.tasks[c].session.value);
      PublishAllFits(idents, Retired(s, c), s.members, DisconnectSession(s.members, s.tasks[c].session.value).sends);
    }
  }

  lemma StepKeepsLogFit(cfg: Config, s: State, step: Step, idents: Idents)
    requires TableOk(s) && Enabled(s, step) && !step.Open? && step.c in s.tasks
    requires s.tasks[step.c].isRegistered == s.tasks[step.c].session.Some?
    requires TasksFit(idents, s.tasks) && LogFits(idents, s.log) && StepFits(idents, step)
    ensures LogFits(idents, Next(cfg, s, step).log)
  {
    ConnectionsAreTheirUsers(idents, s);
    match step
    case RoomMessage(c, message, timestamp) => RoomMessageKeepsLogFit(cfg, s, c, message, timestamp, idents);
    case CleanUp(c) => CleanUpKeepsLogFit(s, c, idents);
    case Register(c) => assert TaskFits(s.tasks[c], idents[c]);
    case SendReply(c) => assert TaskFits(s.tasks[c], idents[c]);
    case _ =>
  }

  lemma StepKeepsTaskFit(cfg: Config, s: State, step: Step, ident: UserUid)
    requires Enabled(s, step) && !step.Open? && step.c in s.tasks && TaskFits(s.tasks[step.c], ident)
    requires step.AuthMessage? ==> FrameFits(step.input.message, ident)
    ensures TaskFits(TaskAfter(cfg, s, step), ident)
  {
    if step.AuthMessage? {
      TurnFits(cfg.ed, s.tasks[step.c], ident, step.input);
    } else if step.RoomMessage? {
      EffectKeepsIdentity(s.members, s.tasks[step.c].session.value, step.message, step.timestamp, cfg.permissions);
    }
  }

  lemma StepKeepsTasksFit(cfg: Config, s: State, step: Step, idents: Idents)
    requires Enabled(s, step) && !step.Open? && step.c in s.tasks
    requires TasksFit(idents, s.tasks) && StepFits(idents, step)
    ensures TasksFit(idents, Next(cfg, s, step).tasks)
  {
    assert TaskFits(s.tasks[step.c], idents[step.c]);
    StepKeepsTaskFit(cfg, s, step, idents[step.c]);
    TasksAfter(cfg, s, step);
  }
}
