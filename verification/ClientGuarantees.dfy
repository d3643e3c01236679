/** What holds of every client in every run of server and clients: nothing is left of a closed one, no
    handler is lost or invented, and no connection is taken for another. */
module ClientGuarantees {
  import opened Protocol
  import opened Replay
  import opened Server
  import opened Guarantees
  import ServerHistory
  import opened Rooms
  import opened PeerTable
  import opened ClientProofs
  import opened Mesh
  import opened MeshProofs
  import opened MeshGuarantees
  import opened Work

  // ----- Closed clients -----

  predicate ClosedIsEmpty(node: Node) {
    node.closed ==> node.app.peers == map[] && node.app.activeRoom == None && !node.app.welcomed
  }

  predicate AllClosedEmpty(m: Mesh) {
    forall c :: c in m.clients ==> ClosedIsEmpty(m.clients[c])
  }

  lemma {:induction false} RunsKeepClosedEmpty(cfg: Config, steps: seq<MeshStep>)
    ensures AllClosedEmpty(MeshExec(cfg, steps))
    decreases |steps|
  {
    if steps != [] {
      RunsKeepClosedEmpty(cfg, steps[..|steps| - 1]);
    }
  }

  /** In every run a client whose socket has closed has no peer connection, no room and is not connected. */
  lemma ClosedClientsAreEmpty(cfg: Config, steps: seq<MeshStep>, c: ConnId)
    requires c in MeshExec(cfg, steps).clients && MeshExec(cfg, steps).clients[c].closed
    ensures var app := MeshExec(cfg, steps).clients[c].app;
            app.peers == map[] && app.activeRoom == None && !app.welcomed
  {
    RunsKeepClosedEmpty(cfg, steps);
  }

  // ----- Handlers -----

  /** What a client undertakes when it handles a message: to sign a challenge, to make a peer an offer, to answer a
      peer's offer. */
  datatype Job = Signing | Offering(peer: UserUid) | Answering(peer: UserUid)

  function JobOfMessage(message: ServerMessage): Option<Job> {
    match message
    case AuthChallenge(_, _) => Some(Signing)
    case PeerJoinedRoom(_, peer, _) => Some(Offering(peer))
    case ForwardWebRtcSdp(_, sender, sdpType, _) => if sdpType == Offer then Some(Answering(sender)) else None
    case _ => None
  }

  function JobOfPending(pending: Pending): Option<Job> {
    match pending
    case SignChallenge(_, _) => Some(Signing)
    case OfferTo(_, peer, _) => Some(Offering(peer))
    case AnswerTo(peer, _) => Some(Answering(peer))
    case CandidateFor(_, _) => None
  }

  function JobOfFrame(frame: ClientMessage): Option<Job> {
    match frame
    case AuthResponse(_) => Some(Signing)
    case SendWebRtcSdp(_, target, sdpType, _) => Some(if sdpType == Offer then Offering(target) else Answering(target))
    case _ => None
  }

  function MessageMark(job: Job): ServerMessage -> nat {
    message => One(JobOfMessage(message) == Some(job))
  }

  function PendingMark(job: Job): Pending -> nat {
    pending => One(JobOfPending(pending) == Some(job))
  }

  function FrameMark(job: Job): ClientMessage -> nat {
    frame => One(JobOfFrame(frame) == Some(job))
  }

  /** How often the messages ask for a job, how often it is still to do, was done, and was given up. */
  function Asked(messages: seq<ServerMessage>, job: Job): nat {
    Tally(messages, MessageMark(job), 1)
  }

  function ToDo(pending: seq<Pending>, job: Job): nat {
    Tally(pending, PendingMark(job), 1)
  }

  function DoneIn(sent: seq<ClientMessage>, job: Job): nat {
    Tally(sent, FrameMark(job), 1)
  }

  predicate Balanced(node: Node, handled: seq<ServerMessage>, job: Job) {
    Asked(handled, job) == ToDo(node.app.pending, job) + DoneIn(node.sent, job) + ToDo(node.dropped, job)
  }

  /** The handler a message starts, if it is for the client. */
  lemma StartedHandler(app: ClientState, message: ServerMessage)
    requires IsRoomMessage(message) ==> message.VoiceRoomJoined? || app.activeRoom == Some(message.roomId)
    requires message.PeerJoinedRoom? ==> message.peerUid != app.ident
    ensures var after := HandleServerMessage(app, message).pending;
            if JobOfMessage(message).None? then after == app.pending
            else exists p :: after == app.pending + [p] && JobOfPending(p) == JobOfMessage(message)
  {
    var after := HandleServerMessage(app, message).pending;
    if JobOfMessage(message).Some? {
      assert after == app.pending + [after[|app.pending|]];
    }
  }

  lemma HandleStartsItsJob(permissions: Permissions, app: ClientState, s: Standing, note: Note, job: Job)
    requires Follows(app, s) && Admits(permissions, s, note)
    ensures ToDo(HandleServerMessage(app, note.message).pending, job)
         == ToDo(app.pending, job) + One(JobOfMessage(note.message) == Some(job))
  {
    StartedHandler(app, note.message);
    if JobOfMessage(note.message).Some? {
      var after := HandleServerMessage(app, note.message).pending;
      var p :| after == app.pending + [p] && JobOfPending(p) == JobOfMessage(note.message);
      TallyAppend(app.pending, p, PendingMark(job), 1);
    }
  }

  lemma AskedOnceMore(messages: seq<ServerMessage>, d: nat, job: Job)
    requires d < |messages|
    ensures Asked(messages[..d + 1], job) == Asked(messages[..d], job) + One(JobOfMessage(messages[d]) == Some(job))
  {
    assert messages[..d + 1] == messages[..d] + [messages[d]];
    TallyAppend(messages[..d], messages[d], MessageMark(job), 1);
  }

  lemma HandledIsBalanced(permissions: Permissions, node: Node, history: seq<Note>, job: Job)
    requires Legal(permissions, history) && node.delivered < |history| && !node.closed
    requires Follows(node.app, Replayed(history[..node.delivered]))
    requires Balanced(node, Messages(history)[..node.delivered], job)
    ensures Balanced(Handled(node, history[node.delivered].message), Messages(history)[..node.delivered + 1], job)
  {
    var d := node.delivered;
    assert Admits(permissions, Replayed(history[..d]), history[d]) by {
      LegalAt(permissions, history, d);
    }
    HandleStartsItsJob(permissions, node.app, Replayed(history[..d]), history[d], job);
    AskedOnceMore(Messages(history), d, job);
  }

  lemma {:induction false} NoneMarked<T>(items: seq<T>, mark: T -> nat)
    requires forall x :: x in items ==> mark(x) == 0
    ensures Tally(items, mark, 1) == 0
    decreases |items|
  {
    if items != [] {
      NoneMarked(items[..|items| - 1], mark);
    }
  }

  lemma GatheredIsNoJob(pending: Pending, gathered: seq<Json>, job: Job)
    ensures ToDo(Gathered(pending, gathered), job) == 0
  {
    NoneMarked(Gathered(pending, gathered), PendingMark(job));
  }

  lemma FrameDoesItsJob(node: Node, pending: Pending, text: string)
    requires Frame(node, pending, text).Some?
    ensures JobOfFrame(Frame(node, pending, text).value) == JobOfPending(pending)
  {
  }

  /** A frame goes to the handler's own peer: an offer for the room the arrival was in, everything else for the room the
      client is in; and it carries the description or the candidate it was made with. */
  lemma FrameCarries(node: Node, pending: Pending, text: string)
    requires Frame(node, pending, text).Some?
    ensures var frame := Frame(node, pending, text).value;
            && (frame.SendWebRtcSdp? <==> pending.OfferTo? || pending.AnswerTo?)
            && (frame.SendWebRtcSdp? ==>
                  && frame.targetUid == pending.peer && frame.sdpRaw == text && (frame.sdpType == Offer <==> pending.OfferTo?)
                  && Some(frame.roomId) == if pending.OfferTo? then Some(pending.roomId) else node.app.activeRoom)
            && (frame.SendWebRtcIce? <==> pending.CandidateFor?)
            && (frame.SendWebRtcIce? ==>
                  frame.targetUid == pending.peer && frame.candidate == pending.candidate
                  && Some(frame.roomId) == node.app.activeRoom)
            && (frame.AuthResponse? <==> pending.SignChallenge?)
            && (frame.AuthResponse? ==>
                  Some(frame.signatureBase64) == node.answer(pending.nonceBase64, pending.serverTimestamp))
  {
  }

  lemma FinishedToDo(pending: seq<Pending>, i: nat, gathered: seq<Json>, job: Job)
    requires i < |pending|
    ensures ToDo(pending, job)
         == ToDo(Without(pending, i) + Gathered(pending[i], gathered), job) + One(JobOfPending(pending[i]) == Some(job))
  {
    TallyWithout(pending, i, PendingMark(job), 1);
    TallyConcat(Without(pending, i), Gathered(pending[i], gathered), PendingMark(job), 1);
    GatheredIsNoJob(pending[i], gathered, job);
  }

  lemma SentDone(sent: seq<ClientMessage>, frame: ClientMessage, job: Job)
    ensures DoneIn(sent + [frame], job) == DoneIn(sent, job) + One(JobOfFrame(frame) == Some(job))
  {
    TallyAppend(sent, frame, FrameMark(job), 1);
  }

  lemma ResumedIsBalanced(node: Node, handled: seq<ServerMessage>, i: nat, text: string, gathered: seq<Json>, job: Job)
    requires i < |node.app.pending| && Frame(node, node.app.pending[i], text).Some? && Balanced(node, handled, job)
    ensures Balanced(Resumed(node, i, Frame(node, node.app.pending[i], text).value, gathered), handled, job)
  {
    FrameDoesItsJob(node, node.app.pending[i], text);
    FinishedToDo(node.app.pending, i, gathered, job);
    SentDone(node.sent, Frame(node, node.app.pending[i], text).value, job);
  }

  lemma GivenUpIsBalanced(node: Node, handled: seq<ServerMessage>, i: nat, job: Job)
    requires i < |node.app.pending| && Balanced(node, handled, job)
    ensures Balanced(GivenUp(node, i), handled, job)
  {
    TallyWithout(node.app.pending, i, PendingMark(job), 1);
    TallyAppend(node.dropped, node.app.pending[i], PendingMark(job), 1);
  }

  lemma SaidIsBalanced(node: Node, handled: seq<ServerMessage>, frame: ClientMessage, job: Job)
    requires MayAct(node.app, frame) && Balanced(node, handled, job)
    ensures Balanced(Said(node, frame), handled, job)
  {
    SentDone(node.sent, frame, job);
  }

  lemma NewcomerIsBalanced(ident: UserUid, answer: (string, U64) -> Option<string>, job: Job)
    ensures Balanced(Newcomer(ident, answer), [], job)
  {
    TallyOne(AuthIdentify(PROTOCOL_VERSION, ident), FrameMark(job), 1);
  }

  /** What a client has handled. */
  function HandledBy(m: Mesh, c: ConnId): seq<ServerMessage>
    requires c in m.clients
  {
    if c in m.server.streams && m.clients[c].delivered <= |m.server.streams[c]|
    then m.server.streams[c][..m.clients[c].delivered] else []
  }

  predicate AllBalanced(m: Mesh, job: Job) {
    forall c :: c in m.clients ==> Balanced(m.clients[c], HandledBy(m, c), job)
  }

  lemma HandledIsInStream(cfg: Config, m: Mesh, c: ConnId)
    requires MeshOk(cfg, m) && c in m.clients
    ensures c in m.server.tasks && c in m.server.streams && m.clients[c].delivered <= |m.server.streams[c]|
  {
    assert c in m.server.tasks && c in m.server.streams by {
      Invariants(cfg, m.server);
    }
    StreamsAreProjections(cfg, m.server, c);
    assert NodeOk(m.server, c, m.clients[c]);
  }

  lemma StreamOnlyGrows(cfg: Config, s: State, step: Step, c: ConnId)
    requires Reachable(cfg, s) && c in s.tasks && c in s.streams
    ensures c in Next(cfg, s, step).streams && s.streams[c] <= Next(cfg, s, step).streams[c]
  {
    Invariants(cfg, s);
    ServerHistory.StreamStep(cfg, s, step, c);
  }

  /** Steps of the server change nothing a client has handled. */
  lemma ServerKeepsHandled(cfg: Config, m: Mesh, step: Step, c: ConnId)
    requires MeshOk(cfg, m) && c in m.clients
    ensures c in m.server.streams && c in Next(cfg, m.server, step).streams
    ensures m.clients[c].delivered <= |m.server.streams[c]| <= |Next(cfg, m.server, step).streams[c]|
    ensures Next(cfg, m.server, step).streams[c][..m.clients[c].delivered] == m.server.streams[c][..m.clients[c].delivered]
  {
    HandledIsInStream(cfg, m, c);
    StreamOnlyGrows(cfg, m.server, step, c);
  }

  lemma NextIsBalanced(permissions: Permissions, s: State, c: ConnId, node: Node, job: Job)
    requires c in s.streams && s.streams[c] == Messages(History(s, c)) && Legal(permissions, History(s, c))
    requires NodeOk(s, c, node) && !node.closed && node.delivered < |s.streams[c]|
    requires Balanced(node, s.streams[c][..node.delivered], job)
    ensures Balanced(Handled(node, s.streams[c][node.delivered]), s.streams[c][..node.delivered + 1], job)
  {
    HandledIsBalanced(permissions, node, History(s, c), job);
  }

  lemma HandleKeepsBalance(cfg: Config, m: Mesh, c: ConnId, job: Job)
    requires MeshOk(cfg, m) && MeshEnabled(m, Handle(c)) && Balanced(m.clients[c], HandledBy(m, c), job)
    ensures var node := Handled(m.clients[c], m.server.streams[c][m.clients[c].delivered]);
            Balanced(node, HandledBy(WithNode(m, c, node), c), job)
  {
    StreamIsLegal(cfg, m.server, c);
    assert NodeOk(m.server, c, m.clients[c]);
    NextIsBalanced(cfg.permissions, m.server, c, m.clients[c], job);
  }

  lemma NodeKeepsBalance(m: Mesh, c: ConnId, node: Node, job: Job)
    requires AllBalanced(m, job) && c in m.clients && Balanced(node, HandledBy(WithNode(m, c, node), c), job)
    ensures AllBalanced(WithNode(m, c, node), job)
  {
    var after := WithNode(m, c, node);
    forall d | d in after.clients ensures Balanced(after.clients[d], HandledBy(after, d), job) {
      assert d != c ==> after.clients[d] == m.clients[d];
    }
  }

  /** A step with which the client handles nothing. */
  lemma QuietNodeKeepsBalance(m: Mesh, c: ConnId, node: Node, job: Job)
    requires AllBalanced(m, job) && c in m.clients && node.delivered == m.clients[c].delivered
    requires Balanced(node, HandledBy(m, c), job)
    ensures AllBalanced(WithNode(m, c, node), job)
  {
    NodeKeepsBalance(m, c, node, job);
  }

  lemma ClientKeepsBalance(cfg: Config, m: Mesh, step: MeshStep, job: Job)
    requires MeshOk(cfg, m) && AllBalanced(m, job) && MeshEnabled(m, step)
    requires !step.Connect? && !step.Read? && !step.Internal?
    ensures AllBalanced(MeshNext(cfg, m, step), job)
  {
    match step
    case Handle(c) =>
      HandleKeepsBalance(cfg, m, c, job);
      NodeKeepsBalance(m, c, Handled(m.clients[c], m.server.streams[c][m.clients[c].delivered]), job);
    case Resume(c, i, text, gathered) =>
      var frame := Frame(m.clients[c], m.clients[c].app.pending[i], text).value;
      ResumedIsBalanced(m.clients[c], HandledBy(m, c), i, text, gathered, job);
      QuietNodeKeepsBalance(m, c, Resumed(m.clients[c], i, frame, gathered), job);
    case Drop(c, i) =>
      GivenUpIsBalanced(m.clients[c], HandledBy(m, c), i, job);
      QuietNodeKeepsBalance(m, c, GivenUp(m.clients[c], i), job);
    case Act(c, message) =>
      SaidIsBalanced(m.clients[c], HandledBy(m, c), message, job);
      QuietNodeKeepsBalance(m, c, Said(m.clients[c], message), job);
    case Disconnect(c) => QuietNodeKeepsBalance(m, c, Closed(m.clients[c]), job);
    case _ =>
  }

  lemma ServerStepKeepsBalance(cfg: Config, m: Mesh, step: Step, clients: map<ConnId, Node>, job: Job)
    requires MeshOk(cfg, m) && AllBalanced(m, job)
    requires forall c :: c in clients ==>
      if c in m.clients
      then clients[c] == m.clients[c] || clients[c] == m.clients[c].(outbox := clients[c].outbox)
      else clients[c].delivered == 0 && Balanced(clients[c], [], job)
    ensures AllBalanced(Mesh(Next(cfg, m.server, step), clients), job)
  {
    forall c | c in clients ensures Balanced(clients[c], HandledBy(Mesh(Next(cfg, m.server, step), clients), c), job) {
      if c in m.clients {
        ServerKeepsHandled(cfg, m, step, c);
      }
    }
  }

  lemma ConnectKeepsBalance(cfg: Config, m: Mesh, c: ConnId, ident: UserUid, answer: (string, U64) -> Option<string>, job: Job)
    requires MeshOk(cfg, m) && AllBalanced(m, job) && c !in m.clients
    ensures AllBalanced(Mesh(Next(cfg, m.server, Open(c)), m.clients[c := Newcomer(ident, answer)]), job)
  {
    NewcomerIsBalanced(ident, answer, job);
    ServerStepKeepsBalance(cfg, m, Open(c), m.clients[c := Newcomer(ident, answer)], job);
  }

  lemma ReadKeepsBalance(cfg: Config, m: Mesh, step: Step, c: ConnId, outbox: seq<ClientMessage>, job: Job)
    requires MeshOk(cfg, m) && AllBalanced(m, job) && c in m.clients
    ensures AllBalanced(Mesh(Next(cfg, m.server, step), m.clients[c := m.clients[c].(outbox := outbox)]), job)
  {
    ServerStepKeepsBalance(cfg, m, step, m.clients[c := m.clients[c].(outbox := outbox)], job);
  }

  lemma MeshNextKeepsBalance(cfg: Config, m: Mesh, step: MeshStep, job: Job)
    requires MeshOk(cfg, m) && AllBalanced(m, job)
    ensures AllBalanced(MeshNext(cfg, m, step), job)
  {
    if MeshEnabled(m, step) {
      match step
      case Connect(c, ident, answer) => ConnectKeepsBalance(cfg, m, c, ident, answer, job);
      case Read(c, nonce, timestamp, now) =>
        ReadKeepsBalance(cfg, m, ReadStep(m, c, nonce, timestamp, now), c, m.clients[c].outbox[1..], job);
      case Internal(s) => ServerStepKeepsBalance(cfg, m, s, m.clients, job);
      case _ => ClientKeepsBalance(cfg, m, step, job);
    }
  }

  lemma {:induction false} RunsKeepBalance(cfg: Config, steps: seq<MeshStep>, job: Job)
    ensures AllBalanced(MeshExec(cfg, steps), job)
    decreases |steps|
  {
    if steps != [] {
      RunsKeepBalance(cfg, steps[..|steps| - 1], job);
      RunsKeepMesh(cfg, steps[..|steps| - 1]);
      MeshNextKeepsBalance(cfg, MeshExec(cfg, steps[..|steps| - 1]), steps[|steps| - 1], job);
    }
  }

  /** In every run, what the messages a client has handled ask of it is still to do, or was done by a frame it sent, or
      was given up: as often as each challenge was received, each arrival announced and each offer made, no more and
      no less. */
  lemma HandlersAreConserved(cfg: Config, steps: seq<MeshStep>, c: ConnId, job: Job)
    requires c in MeshExec(cfg, steps).clients
    ensures var m := MeshExec(cfg, steps);
            && c in m.server.streams && m.clients[c].delivered <= |m.server.streams[c]|
            && Asked(m.server.streams[c][..m.clients[c].delivered], job)
               == ToDo(m.clients[c].app.pending, job) + DoneIn(m.clients[c].sent, job) + ToDo(m.clients[c].dropped, job)
  {
    RunsKeepBalance(cfg, steps, job);
    RunsKeepMesh(cfg, steps);
    HandledIsInStream(cfg, MeshExec(cfg, steps), c);
  }

  // ----- Connections -----

  /** Every connection in the table, and every one a handler works on, was made for its peer. */
  predicate MadeFor(app: ClientState, peer: UserUid, connection: nat) {
    connection < |app.created| && app.created[connection] == peer
  }

  predicate TableOk(app: ClientState) {
    && (forall peer :: peer in app.peers ==> MadeFor(app, peer, app.peers[peer]))
    && (forall p :: p in app.pending && (p.OfferTo? || p.AnswerTo?) ==> MadeFor(app, p.peer, p.connection))
  }

  predicate AllTablesOk(m: Mesh) {
    forall c :: c in m.clients ==> TableOk(m.clients[c].app)
  }

  lemma WithPeerKeepsTable(app: ClientState, peer: UserUid)
    requires TableOk(app)
    ensures TableOk(WithPeer(app, peer)) && MadeFor(WithPeer(app, peer), peer, WithPeer(app, peer).peers[peer])
  {
  }

  lemma PendingKeepsTable(app: ClientState, p: Pending)
    requires TableOk(app) && (p.OfferTo? || p.AnswerTo? ==> MadeFor(app, p.peer, p.connection))
    ensures TableOk(app.(pending := app.pending + [p]))
  {
  }

  lemma HandleKeepsTable(app: ClientState, message: ServerMessage)
    requires TableOk(app)
    ensures TableOk(HandleServerMessage(app, message))
  {
    match message
    case AuthChallenge(nonce, timestamp) => PendingKeepsTable(app, SignChallenge(nonce, timestamp));
    case PeerJoinedRoom(room, peer, _) =>
      WithPeerKeepsTable(app, peer);
      PendingKeepsTable(WithPeer(app, peer), OfferTo(room, peer, WithPeer(app, peer).peers[peer]));
    case ForwardWebRtcSdp(_, sender, _, _) =>
      WithPeerKeepsTable(app, sender);
      PendingKeepsTable(WithPeer(app, sender), AnswerTo(sender, WithPeer(app, sender).peers[sender]));
    case ForwardWebRtcIce(_, sender, _) => WithPeerKeepsTable(app, sender);
    case _ =>
  }

  /** Handling a message brings no connection back into the table. */
  lemma HandleBringsNoneBack(app: ClientState, message: ServerMessage, peer: UserUid, connection: nat)
    requires connection < |app.created| && !InUse(app, peer, connection)
    ensures connection < |HandleServerMessage(app, message).created|
    ensures !InUse(HandleServerMessage(app, message), peer, connection)
  {
  }

  lemma MeshNextKeepsTables(cfg: Config, m: Mesh, step: MeshStep)
    requires AllTablesOk(m)
    ensures AllTablesOk(MeshNext(cfg, m, step))
  {
    if MeshEnabled(m, step) && step.Handle? {
      HandleKeepsTable(m.clients[step.c].app, m.server.streams[step.c][m.clients[step.c].delivered]);
    }
  }

  lemma {:induction false} RunsKeepTables(cfg: Config, steps: seq<MeshStep>)
    ensures AllTablesOk(MeshExec(cfg, steps))
    decreases |steps|
  {
    if steps != [] {
      RunsKeepTables(cfg, steps[..|steps| - 1]);
      MeshNextKeepsTables(cfg, MeshExec(cfg, steps[..|steps| - 1]), steps[|steps| - 1]);
    }
  }

  lemma MeshNextBringsNoneBack(cfg: Config, m: Mesh, step: MeshStep, c: ConnId, peer: UserUid, connection: nat)
    requires c in m.clients && connection < |m.clients[c].app.created| && !InUse(m.clients[c].app, peer, connection)
    ensures var after := MeshNext(cfg, m, step);
            c in after.clients && connection < |after.clients[c].app.created| && !InUse(after.clients[c].app, peer, connection)
  {
    if MeshEnabled(m, step) && step.Handle? && step.c == c {
      HandleBringsNoneBack(m.clients[c].app, m.server.streams[c][m.clients[c].delivered], peer, connection);
    }
  }

  /** In every run, a connection that is not in the table any more never comes back to it, however the run goes on; and
      every connection in the table was made for its peer, as was the one every handler works on. */
  lemma {:induction false} ConnectionsAreNotReused(cfg: Config, steps: seq<MeshStep>, more: seq<MeshStep>, c: ConnId,
                                                   peer: UserUid, connection: nat)
    requires c in MeshExec(cfg, steps).clients
    requires connection < |MeshExec(cfg, steps).clients[c].app.created|
    requires !InUse(MeshExec(cfg, steps).clients[c].app, peer, connection)
    ensures c in MeshExec(cfg, steps + more).clients
    ensures connection < |MeshExec(cfg, steps + more).clients[c].app.created|
    ensures !InUse(MeshExec(cfg, steps + more).clients[c].app, peer, connection)
    ensures TableOk(MeshExec(cfg, steps + more).clients[c].app)
    decreases |more|
  {
    RunsKeepTables(cfg, steps + more);
    if more == [] {
      assert steps + more == steps;
    } else {
      var n := |more| - 1;
      assert (steps + more)[..|steps + more| - 1] == steps + more[..n];
      ConnectionsAreNotReused(cfg, steps, more[..n], c, peer, connection);
      MeshNextBringsNoneBack(cfg, MeshExec(cfg, steps + more[..n]), more[n], c, peer, connection);
    }
  }
}
