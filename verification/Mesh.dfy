/** The server together with clients that follow App.tsx. Client frames travel to the server in order,
    streams travel back in order, and any task, writer or client may take the next step; writes may fail
    and connections may break at any time. */
module Mesh {
  import opened Protocol
  import opened Login
  import opened Server
  import opened PeerTable

  /** A client and its half of the connection: what it answers to a challenge, how many messages of its stream it has
      handled, and the frames it has sent that the server has not read. sent and dropped are its history: all frames
      it ever sent and all handlers it ever gave up. */
  datatype Node = Node(
    app: ClientState, answer: (string, U64) -> Option<string>, delivered: nat, outbox: seq<ClientMessage>,
    sent: seq<ClientMessage>, dropped: seq<Pending>, closed: bool)

  datatype Mesh = Mesh(server: State, clients: map<ConnId, Node>)

  const EMPTY_MESH := Mesh(INITIAL, map[])

  datatype MeshStep =
    | Connect(c: ConnId, ident: UserUid, answer: (string, U64) -> Option<string>)
    | Handle(c: ConnId)
    | Resume(c: ConnId, i: nat, text: string, gathered: seq<Json>)
    | Drop(c: ConnId, i: nat)
    | Act(c: ConnId, message: ClientMessage)
    | Disconnect(c: ConnId)
    | Read(c: ConnId, nonce: Bytes32, timestamp: U64, now: nat)
    | Internal(step: Step)

  /** A connection is closed once it is no longer the one in the table. */
  predicate InUse(app: ClientState, peer: UserUid, connection: nat) {
    peer in app.peers && app.peers[peer] == connection
  }

  function Without<T>(items: seq<T>, i: nat): seq<T>
    requires i < |items|
  {
    items[..i] + items[i + 1..]
  }

  /** The frame a finished handler sends; a challenge that could not be signed is not answered. */
  function Frame(node: Node, pending: Pending, text: string): Option<ClientMessage> {
    var app := node.app;
    match pending
    case SignChallenge(nonce, timestamp) =>
      var signature := node.answer(nonce, timestamp);
      if signature.Some? then Some(AuthResponse(signature.value)) else None
    case OfferTo(room, peer, _) => Some(SendWebRtcSdp(room, peer, Offer, text))
    case AnswerTo(peer, _) =>
      if app.activeRoom.Some? then Some(SendWebRtcSdp(app.activeRoom.value, peer, Answer, text)) else None
    case CandidateFor(peer, candidate) =>
      if app.activeRoom.Some? then Some(SendWebRtcIce(app.activeRoom.value, peer, candidate)) else None
  }

  /** Describing its own end makes a connection gather candidates, as many as the network offers. */
  function Gathered(pending: Pending, candidates: seq<Json>): (r: seq<Pending>)
    ensures forall p :: p in r ==> p.CandidateFor? && (pending.OfferTo? || pending.AnswerTo?) && p.peer == pending.peer
    ensures pending.OfferTo? || pending.AnswerTo? ==>
      |r| == |candidates| && forall i :: 0 <= i < |r| ==> r[i].CandidateFor? && r[i].candidate == candidates[i]
  {
    if pending.OfferTo? || pending.AnswerTo? then
      seq(|candidates|, i requires 0 <= i < |candidates| => CandidateFor(pending.peer, candidates[i]))
    else []
  }

  /** Handlers may fail to finish; an offer only does if its connection has been closed meanwhile, and a challenge is
      only left unanswered if it cannot be signed or the socket has closed. */
  predicate MayDrop(node: Node, pending: Pending) {
    && (pending.OfferTo? ==> !InUse(node.app, pending.peer, pending.connection))
    && (pending.SignChallenge? ==> node.closed || node.answer(pending.nonceBase64, pending.serverTimestamp).None?)
  }

  /** What the user, once welcomed, or a connection that finds another candidate when the network changes, may send at
      any time. */
  predicate MayAct(app: ClientState, message: ClientMessage) {
    app.welcomed &&
    match message
    case JoinVoiceRoom(_) => true
    case LeaveVoiceRoom(_) => true
    case SendTextMessage(_, _) => true
    case SendWebRtcIce(_, target, _) => target in app.created
    case _ => false
  }

  function Newcomer(ident: UserUid, answer: (string, U64) -> Option<string>): Node {
    var frame := AuthIdentify(PROTOCOL_VERSION, ident);
    Node(NewClient(ident), answer, 0, [frame], [frame], [], false)
  }

  predicate MeshEnabled(m: Mesh, step: MeshStep) {
    match step
    case Connect(c, _, _) => c !in m.clients && c !in m.server.tasks
    case Handle(c) =>
      && c in m.clients && !m.clients[c].closed && c in m.server.tasks && c in m.server.streams
      && m.clients[c].delivered < m.server.tasks[c].written <= |m.server.streams[c]|
    case Resume(c, i, text, _) =>
      && c in m.clients && !m.clients[c].closed && i < |m.clients[c].app.pending|
      && Frame(m.clients[c], m.clients[c].app.pending[i], text).Some?
    case Drop(c, i) =>
      c in m.clients && i < |m.clients[c].app.pending| && MayDrop(m.clients[c], m.clients[c].app.pending[i])
    case Act(c, message) => c in m.clients && !m.clients[c].closed && MayAct(m.clients[c].app, message)
    case Disconnect(c) => c in m.clients
    case Read(c, _, _, _) =>
      && c in m.clients && m.clients[c].outbox != [] && c in m.server.tasks && m.server.tasks[c].pc.Reading?
    case Internal(s) => !s.Open? && !s.AuthMessage? && !s.RoomMessage?
  }

  /** The server step a frame read from the socket amounts to. */
  function ReadStep(m: Mesh, c: ConnId, nonce: Bytes32, timestamp: U64, now: nat): Step
    requires MeshEnabled(m, Read(c, nonce, timestamp, now))
  {
    var frame := m.clients[c].outbox[0];
    if m.server.tasks[c].session.None? then AuthMessage(c, AuthInput(frame, nonce, timestamp, now))
    else RoomMessage(c, frame, timestamp)
  }

  function WithNode(m: Mesh, c: ConnId, node: Node): Mesh {
    m.(clients := m.clients[c := node])
  }

  function Closed(node: Node): Node {
    node.(app := HandleClose(node.app), closed := true)
  }

  /** The client handles one message; a refused login makes it close the socket. */
  function Handled(node: Node, message: ServerMessage): Node {
    var after := node.(app := HandleServerMessage(node.app, message), delivered := node.delivered + 1);
    if message.AuthFailure? then Closed(after) else after
  }

  /** The handler sends its frame and is done, except for the candidates it has made its connection gather. */
  function Resumed(node: Node, i: nat, frame: ClientMessage, gathered: seq<Json>): Node
    requires i < |node.app.pending|
  {
    node.(app := node.app.(pending := Without(node.app.pending, i) + Gathered(node.app.pending[i], gathered)),
          outbox := node.outbox + [frame], sent := node.sent + [frame])
  }

  function GivenUp(node: Node, i: nat): Node
    requires i < |node.app.pending|
  {
    node.(app := node.app.(pending := Without(node.app.pending, i)), dropped := node.dropped + [node.app.pending[i]])
  }

  function Said(node: Node, frame: ClientMessage): Node {
    node.(outbox := node.outbox + [frame], sent := node.sent + [frame])
  }

  function MeshNext(cfg: Config, m: Mesh, step: MeshStep): Mesh {
    if !MeshEnabled(m, step) then m
    else match step
      case Connect(c, ident, answer) =>
        Mesh(Next(cfg, m.server, Open(c)), m.clients[c := Newcomer(ident, answer)])
      case Handle(c) => WithNode(m, c, Handled(m.clients[c], m.server.streams[c][m.clients[c].delivered]))
      case Resume(c, i, text, gathered) =>
        WithNode(m, c, Resumed(m.clients[c], i, Frame(m.clients[c], m.clients[c].app.pending[i], text).value, gathered))
      case Drop(c, i) =>
        WithNode(m, c, GivenUp(m.clients[c], i))
      case Act(c, message) => WithNode(m, c, Said(m.clients[c], message))
      case Disconnect(c) => WithNode(m, c, Closed(m.clients[c]))
      case Read(c, nonce, timestamp, now) =>
        Mesh(Next(cfg, m.server, ReadStep(m, c, nonce, timestamp, now)),
             m.clients[c := m.clients[c].(outbox := m.clients[c].outbox[1..])])
      case Internal(s) => m.(server := Next(cfg, m.server, s))
  }

  function MeshExec(cfg: Config, steps: seq<MeshStep>): Mesh {
    if steps == [] then EMPTY_MESH
    else MeshNext(cfg, MeshExec(cfg, steps[..|steps| - 1]), steps[|steps| - 1])
  }
}
