/** Full mesh: once nothing is on its way, every client's peers are the members of its room that it has
    seen arrive or that could make themselves known, and with the power to signal that is all of them. */
module MeshGuarantees {
  import opened Protocol
  import opened Rooms
  import opened Replay
  import opened Presence
  import opened Login
  import opened Server
  import opened ServerProofs
  import opened Guarantees
  import opened PresenceGuarantees
  import opened PairProofs
  import opened LogProofs
  import opened ClientProofs
  import opened Mesh
  import opened MeshProofs

  // ----- Steps of the clients -----

  /** What a client has been sent and not yet handled, as the server's history of it. */
  lemma NextForClient(cfg: Config, m: Mesh, c: ConnId)
    requires MeshOk(cfg, m) && MeshEnabled(m, Handle(c))
    ensures NodeOk(m.server, c, m.clients[c])
    ensures Legal(cfg.permissions, History(m.server, c))
    ensures m.clients[c].delivered < |History(m.server, c)|
    ensures History(m.server, c)[m.clients[c].delivered].message == m.server.streams[c][m.clients[c].delivered]
    ensures Fits(m.server.streams[c][m.clients[c].delivered], m.clients[c].app.ident)
  {
    StreamIsLegal(cfg, m.server, c);
    HistoryFits(IdentsOf(m.clients), m.server.log, c, m.clients[c].delivered);
  }

  lemma IndebtedUser(cfg: Config, s: State, u: UserUid, v: UserUid)
    requires Reachable(cfg, s)
    ensures ConnectionsOk(s)
    ensures Owes(LobbyOf(s), u, v) ==>
      && u in s.connections && s.connections[u] in s.tasks
      && s.tasks[s.connections[u]].session.Some? && s.tasks[s.connections[u]].session.value.userUid == u
      && LobbyOf(s).users[u].history == History(s, s.connections[u])
      && Replayed(LobbyOf(s).users[u].history).room == LobbyOf(s).users[u].room
  {
    Invariants(cfg, s);
    if Owes(LobbyOf(s), u, v) {
      assert UserOk(cfg.permissions, s.members, |s.log|, u, LobbyOf(s).users[u]);
    }
  }

  lemma OwnClient(m: Mesh, u: UserUid)
    requires TasksFit(IdentsOf(m.clients), m.server.tasks) && u in m.server.connections
    requires m.server.connections[u] in m.server.tasks
    requires m.server.tasks[m.server.connections[u]].session.Some?
    requires m.server.tasks[m.server.connections[u]].session.value.userUid == u
    ensures m.server.connections[u] in m.clients && m.clients[m.server.connections[u]].app.ident == u
  {
    assert TaskFits(m.server.tasks[m.server.connections[u]], IdentsOf(m.clients)[m.server.connections[u]]);
  }

  lemma HandleKeepsMesh(cfg: Config, m: Mesh, c: ConnId)
    requires MeshOk(cfg, m) && MeshEnabled(m, Handle(c))
    ensures MeshOk(cfg, MeshNext(cfg, m, Handle(c)))
  {
    var node := m.clients[c];
    var after := Handled(node, m.server.streams[c][node.delivered]);
    NextForClient(cfg, m, c);
    HandledNodeOk(cfg, m.server, c, node);
    forall u, v | Owes(LobbyOf(m.server), u, v) && m.server.connections[u] == c
      && Paying(node, LobbyOf(m.server).users[u].history, LobbyOf(m.server).users[u].room.value, v)
      ensures Paying(after, LobbyOf(m.server).users[u].history, LobbyOf(m.server).users[u].room.value, v)
    {
      IndebtedUser(cfg, m.server, u, v);
      OwnClient(m, u);
      HandledInFlight(cfg.permissions, node, History(m.server, c), LobbyOf(m.server).users[u].room.value, v);
    }
    ClientStepKeepsMesh(cfg, m, c, after);
  }

  lemma ResumeKeepsMesh(cfg: Config, m: Mesh, c: ConnId, i: nat, text: string, gathered: seq<Json>)
    requires MeshOk(cfg, m) && MeshEnabled(m, Resume(c, i, text, gathered))
    ensures MeshOk(cfg, MeshNext(cfg, m, Resume(c, i, text, gathered)))
  {
    var node := m.clients[c];
    var after := Resumed(node, i, Frame(node, node.app.pending[i], text).value, gathered);
    ResumedNodeOk(m.server, c, node, i, text, gathered);
    forall u, v | Owes(LobbyOf(m.server), u, v) && m.server.connections[u] == c
      && Paying(node, LobbyOf(m.server).users[u].history, LobbyOf(m.server).users[u].room.value, v)
      ensures Paying(after, LobbyOf(m.server).users[u].history, LobbyOf(m.server).users[u].room.value, v)
    {
      if !node.closed {
        ResumedInFlight(node, i, text, gathered, LobbyOf(m.server).users[u].history, LobbyOf(m.server).users[u].room.value, v);
      }
    }
    ClientStepKeepsMesh(cfg, m, c, after);
  }

  lemma DropKeepsMesh(cfg: Config, m: Mesh, c: ConnId, i: nat)
    requires MeshOk(cfg, m) && MeshEnabled(m, Drop(c, i))
    ensures MeshOk(cfg, MeshNext(cfg, m, Drop(c, i)))
  {
    var node := m.clients[c];
    var after := GivenUp(node, i);
    DroppedNodeOk(m.server, c, node, i);
    forall u, v | Owes(LobbyOf(m.server), u, v) && m.server.connections[u] == c
      && Paying(node, LobbyOf(m.server).users[u].history, LobbyOf(m.server).users[u].room.value, v)
      ensures Paying(after, LobbyOf(m.server).users[u].history, LobbyOf(m.server).users[u].room.value, v)
    {
      if !node.closed {
        DroppedInFlight(node, i, LobbyOf(m.server).users[u].history, LobbyOf(m.server).users[u].room.value, v);
      }
    }
    ClientStepKeepsMesh(cfg, m, c, after);
  }

  lemma ActKeepsMesh(cfg: Config, m: Mesh, c: ConnId, message: ClientMessage)
    requires MeshOk(cfg, m) && MeshEnabled(m, Act(c, message))
    ensures MeshOk(cfg, MeshNext(cfg, m, Act(c, message)))
  {
    var node := m.clients[c];
    var after := Said(node, message);
    ActedNodeOk(m.server, c, node, message);
    forall u, v | Owes(LobbyOf(m.server), u, v) && m.server.connections[u] == c
      && Paying(node, LobbyOf(m.server).users[u].history, LobbyOf(m.server).users[u].room.value, v)
      ensures Paying(after, LobbyOf(m.server).users[u].history, LobbyOf(m.server).users[u].room.value, v)
    {
      if !node.closed {
        ActedInFlight(node, message, LobbyOf(m.server).users[u].history, LobbyOf(m.server).users[u].room.value, v);
      }
    }
    ClientStepKeepsMesh(cfg, m, c, after);
  }

  lemma DisconnectKeepsMesh(cfg: Config, m: Mesh, c: ConnId)
    requires MeshOk(cfg, m) && MeshEnabled(m, Disconnect(c))
    ensures MeshOk(cfg, MeshNext(cfg, m, Disconnect(c)))
  {
    var node := m.clients[c];
    var after := Closed(node);
    ClientStepKeepsMesh(cfg, m, c, after);
  }

  // ----- Steps of the server -----

  /** The frames still to be read cover what was posted, or the offer that was read has arrived. */
  ghost predicate Accounts(cfg: Config, s: State, step: Step, clients: map<ConnId, Node>, clients': map<ConnId, Node>,
                           u: UserUid, v: UserUid)
    requires ConnectionsOk(s) && ConnectionsOk(Next(cfg, s, step))
  {
    Owes(LobbyOf(s), u, v) && Owes(LobbyOf(Next(cfg, s, step)), u, v) && s.connections[u] in clients
    && s.connections[u] in clients' && cfg.permissions.IsAllowed(u, LobbyOf(s).users[u].room.value, Signal)
    && Posted(clients[s.connections[u]].outbox, LobbyOf(s).users[u].room.value, v) ==>
      || Posted(clients'[s.connections[u]].outbox, LobbyOf(s).users[u].room.value, v)
      || u in Replayed(LobbyOf(Next(cfg, s, step)).users[v].history).peers
  }

  ghost predicate OnlyReads(clients: map<ConnId, Node>, clients': map<ConnId, Node>) {
    forall c :: c in clients ==>
      c in clients' && SameApp(clients[c], clients'[c])
  }

  lemma ServerStepKeepsServed(cfg: Config, m: Mesh, step: Step, clients': map<ConnId, Node>)
    requires MeshOk(cfg, m) && OnlyReads(m.clients, clients') && ConnectionsOk(Next(cfg, m.server, step))
    requires forall u, v :: Accounts(cfg, m.server, step, m.clients, clients', u, v)
    ensures AllServed(cfg.permissions, Next(cfg, m.server, step), clients')
  {
    var s := m.server;
    Invariants(cfg, s);
    assert ConnectionsFit(IdentsOf(m.clients), s.connections) by {
      ConnectionsAreTheirUsers(IdentsOf(m.clients), s);
    }
    forall u, v ensures Served(cfg.permissions, Next(cfg, s, step), clients', u, v) {
      assert Served(cfg.permissions, s, m.clients, u, v) && Accounts(cfg, s, step, m.clients, clients', u, v);
      ServerStepServes(cfg, s, step, m.clients, clients', u, v);
    }
  }

  lemma ServerStepKeepsFits(cfg: Config, m: Mesh, step: Step)
    requires Reachable(cfg, m.server) && ServerFits(m.server, m.clients)
    requires Enabled(m.server, step) && !step.Open? && StepFits(IdentsOf(m.clients), step)
    ensures ServerFits(Next(cfg, m.server, step), m.clients)
  {
    var s := m.server;
    assert TableOk(s) && s.tasks[step.c].isRegistered == s.tasks[step.c].session.Some? by {
      Invariants(cfg, s);
      assert TaskOk(cfg.permissions, s, step.c, s.tasks[step.c]);
    }
    StepKeepsLogFit(cfg, s, step, IdentsOf(m.clients));
    StepKeepsTasksFit(cfg, s, step, IdentsOf(m.clients));
  }

  lemma NodesKeptByServer(cfg: Config, s: State, step: Step, clients: map<ConnId, Node>)
    requires NodesOk(s, clients)
    ensures NodesOk(Next(cfg, s, step), clients)
  {
    forall c | c in clients ensures NodeOk(Next(cfg, s, step), c, clients[c]) {
      NodeKeptByServer(cfg, s, step, c, clients[c]);
    }
  }

  lemma ServerStepKeepsConnections(cfg: Config, s: State, step: Step)
    requires Reachable(cfg, s)
    ensures Reachable(cfg, Next(cfg, s, step)) && ConnectionsOk(s) && ConnectionsOk(Next(cfg, s, step))
  {
    ReachableNext(cfg, s, step);
    Invariants(cfg, s);
    Invariants(cfg, Next(cfg, s, step));
  }

  lemma InternalKeepsMesh(cfg: Config, m: Mesh, step: Step)
    requires MeshOk(cfg, m) && MeshEnabled(m, Internal(step)) && Enabled(m.server, step)
    ensures MeshOk(cfg, m.(server := Next(cfg, m.server, step)))
  {
    ServerStepKeepsConnections(cfg, m.server, step);
    ServerStepKeepsFits(cfg, m, step);
    NodesKeptByServer(cfg, m.server, step, m.clients);
    ServerStepKeepsServed(cfg, m, step, m.clients);
  }

  lemma ConnectKeepsFits(m: Mesh, c: ConnId, node: Node)
    requires ServerFits(m.server, m.clients) && c !in m.server.tasks
    ensures ServerFits(DoOpen(m.server, c), m.clients[c := node])
  {
    OpenFits(IdentsOf(m.clients), m.server, c, node.app.ident);
    assert IdentsOf(m.clients[c := node]) == IdentsOf(m.clients)[c := node.app.ident];
  }

  lemma ConnectKeepsNodes(cfg: Config, m: Mesh, c: ConnId, ident: UserUid, answer: (string, U64) -> Option<string>)
    requires NodesOk(m.server, m.clients) && c !in m.server.tasks
    ensures NodesOk(Next(cfg, m.server, Open(c)), m.clients[c := Newcomer(ident, answer)])
  {
    NodesKeptByServer(cfg, m.server, Open(c), m.clients);
  }

  /** Connections whose frames were not read account for what they posted. */
  lemma OthersAccount(cfg: Config, s: State, step: Step, clients: map<ConnId, Node>, clients': map<ConnId, Node>,
                      c: ConnId, node: Node, u: UserUid, v: UserUid)
    requires ConnectionsOk(s) && ConnectionsOk(Next(cfg, s, step)) && clients' == clients[c := node]
    requires u in s.connections ==> s.connections[u] != c
    ensures Accounts(cfg, s, step, clients, clients', u, v)
  {
  }

  lemma ConnectKeepsServed(cfg: Config, m: Mesh, c: ConnId, node: Node)
    requires MeshOk(cfg, m) && c !in m.clients && c !in m.server.tasks
    requires ConnectionsOk(Next(cfg, m.server, Open(c)))
    ensures AllServed(cfg.permissions, Next(cfg, m.server, Open(c)), m.clients[c := node])
  {
    var step, clients := Open(c), m.clients[c := node];
    forall u, v ensures Accounts(cfg, m.server, step, m.clients, clients, u, v) {
      OthersAccount(cfg, m.server, step, m.clients, clients, c, node, u, v);
    }
    ServerStepKeepsServed(cfg, m, step, clients);
  }

  lemma ConnectKeepsMesh(cfg: Config, m: Mesh, c: ConnId, ident: UserUid, answer: (string, U64) -> Option<string>)
    requires MeshOk(cfg, m) && c !in m.clients && c !in m.server.tasks
    ensures MeshOk(cfg, Mesh(Next(cfg, m.server, Open(c)), m.clients[c := Newcomer(ident, answer)]))
  {
    ServerStepKeepsConnections(cfg, m.server, Open(c));
    ConnectKeepsFits(m, c, Newcomer(ident, answer));
    ConnectKeepsNodes(cfg, m, c, ident, answer);
    ConnectKeepsServed(cfg, m, c, Newcomer(ident, answer));
  }

  // ----- Reading frames -----

  lemma ReadStepFits(cfg: Config, m: Mesh, c: ConnId, nonce: Bytes32, timestamp: U64, now: nat)
    requires NodesOk(m.server, m.clients) && MeshEnabled(m, Read(c, nonce, timestamp, now))
    ensures StepFits(IdentsOf(m.clients), ReadStep(m, c, nonce, timestamp, now))
    ensures Enabled(m.server, ReadStep(m, c, nonce, timestamp, now))
  {
    assert NodeOk(m.server, c, m.clients[c]);
    assert m.clients[c].outbox[0] in m.clients[c].outbox;
  }

  lemma PostedAfterRead(outbox: seq<ClientMessage>, roomId: Uuid, peer: UserUid)
    requires outbox != [] && Posted(outbox, roomId, peer)
    ensures Posted(outbox[1..], roomId, peer) || IsOffer(outbox[0], roomId, peer)
  {
    var f :| f in outbox && IsOffer(f, roomId, peer);
    assert outbox == [outbox[0]] + outbox[1..];
  }

  /** An offer that is read reaches its target. */
  lemma OfferArrives(cfg: Config, s: State, c: ConnId, frame: ClientMessage, timestamp: U64, u: UserUid, v: UserUid)
    requires Reachable(cfg, s)
    requires c in s.tasks && s.tasks[c].pc.Reading? && u in s.connections && s.connections[u] == c
    requires ConnectionsOk(s) && SameRoom(LobbyOf(s), u, v) && IsOffer(frame, LobbyOf(s).users[u].room.value, v)
    requires cfg.permissions.IsAllowed(u, frame.roomId, Signal)
    ensures s.tasks[c].session.Some?
    ensures var after := DoRoomMessage(cfg, s, c, frame, timestamp);
            ConnectionsOk(after) && v in LobbyOf(after).users && u in Replayed(LobbyOf(after).users[v].history).peers
  {
    assert StateOk(cfg.permissions, s) by {
      Invariants(cfg, s);
    }
    assert TaskOk(cfg.permissions, s, c, s.tasks[c]);
    RoomMessageLobby(cfg, s, c, frame, timestamp);
    OfferIsRelayed(cfg.permissions, LobbyOf(s), u, v, frame.roomId, frame.sdpRaw, timestamp);
  }

  /** The reader's own connection: the frame read was no offer to `v`, or it has arrived there. */
  lemma ReaderAccounts(cfg: Config, s: State, step: Step, clients: map<ConnId, Node>, clients': map<ConnId, Node>,
                       c: ConnId, timestamp: U64, u: UserUid, v: UserUid)
    requires Reachable(cfg, s)
    requires ConnectionsOk(s) && ConnectionsOk(Next(cfg, s, step))
    requires c in s.tasks && s.tasks[c].pc.Reading? && u in s.connections && s.connections[u] == c
    requires c in clients && clients[c].outbox != []
    requires clients' == clients[c := clients[c].(outbox := clients[c].outbox[1..])]
    requires s.tasks[c].session.Some? ==> Next(cfg, s, step) == DoRoomMessage(cfg, s, c, clients[c].outbox[0], timestamp)
    ensures Accounts(cfg, s, step, clients, clients', u, v)
  {
    var outbox := clients[c].outbox;
    if Owes(LobbyOf(s), u, v) && Posted(outbox, LobbyOf(s).users[u].room.value, v)
      && cfg.permissions.IsAllowed(u, LobbyOf(s).users[u].room.value, Signal) {
      PostedAfterRead(outbox, LobbyOf(s).users[u].room.value, v);
      if IsOffer(outbox[0], LobbyOf(s).users[u].room.value, v) {
        OfferArrives(cfg, s, c, outbox[0], timestamp, u, v);
      }
    }
  }

  lemma ReadKeepsServed(cfg: Config, m: Mesh, step: Step, clients: map<ConnId, Node>, c: ConnId, timestamp: U64)
    requires MeshOk(cfg, m)
    requires c in m.server.tasks && m.server.tasks[c].pc.Reading? && c in m.clients && m.clients[c].outbox != []
    requires clients == m.clients[c := m.clients[c].(outbox := m.clients[c].outbox[1..])]
    requires m.server.tasks[c].session.Some? ==>
      Next(cfg, m.server, step) == DoRoomMessage(cfg, m.server, c, m.clients[c].outbox[0], timestamp)
    ensures AllServed(cfg.permissions, Next(cfg, m.server, step), clients)
  {
    ServerStepKeepsConnections(cfg, m.server, step);
    forall u, v ensures Accounts(cfg, m.server, step, m.clients, clients, u, v) {
      if u in m.server.connections && m.server.connections[u] == c {
        ReaderAccounts(cfg, m.server, step, m.clients, clients, c, timestamp, u, v);
      } else {
        OthersAccount(cfg, m.server, step, m.clients, clients, c, clients[c], u, v);
      }
    }
    ServerStepKeepsServed(cfg, m, step, clients);
  }

  lemma ReadKeepsNodes(cfg: Config, s: State, step: Step, clients: map<ConnId, Node>, c: ConnId)
    requires NodesOk(s, clients) && c in clients && clients[c].outbox != []
    ensures NodesOk(Next(cfg, s, step), clients[c := clients[c].(outbox := clients[c].outbox[1..])])
  {
    assert NodeOk(s, c, clients[c]);
    NodesKeptByServer(cfg, s, step, clients[c := clients[c].(outbox := clients[c].outbox[1..])]);
  }

  lemma ReadKeepsFits(cfg: Config, m: Mesh, step: Step, c: ConnId, node: Node)
    requires Reachable(cfg, m.server) && ServerFits(m.server, m.clients)
    requires c in m.clients && node.app.ident == m.clients[c].app.ident
    requires Enabled(m.server, step) && !step.Open? && StepFits(IdentsOf(m.clients), step)
    ensures ServerFits(Next(cfg, m.server, step), m.clients[c := node])
  {
    ServerStepKeepsFits(cfg, m, step);
    SameIdents(m.clients, c, node);
  }

  lemma MeshFromParts(cfg: Config, s: State, clients: map<ConnId, Node>)
    requires Reachable(cfg, s) && ServerFits(s, clients) && NodesOk(s, clients) && AllServed(cfg.permissions, s, clients)
    ensures MeshOk(cfg, Mesh(s, clients))
  {
  }

  lemma ReadKeepsMesh(cfg: Config, m: Mesh, step: Step, c: ConnId)
    requires MeshOk(cfg, m) && c in m.clients && m.clients[c].outbox != []
    requires Enabled(m.server, step) && !step.Open? && StepFits(IdentsOf(m.clients), step)
    requires AllServed(cfg.permissions, Next(cfg, m.server, step),
                       m.clients[c := m.clients[c].(outbox := m.clients[c].outbox[1..])])
    ensures MeshOk(cfg, Mesh(Next(cfg, m.server, step),
                             m.clients[c := m.clients[c].(outbox := m.clients[c].outbox[1..])]))
  {
    var clients := m.clients[c := m.clients[c].(outbox := m.clients[c].outbox[1..])];
    ReachableNext(cfg, m.server, step);
    ReadKeepsFits(cfg, m, step, c, clients[c]);
    ReadKeepsNodes(cfg, m.server, step, m.clients, c);
    MeshFromParts(cfg, Next(cfg, m.server, step), clients);
  }

  // ----- Any run -----

  lemma MeshNextKeepsMesh(cfg: Config, m: Mesh, step: MeshStep)
    requires MeshOk(cfg, m)
    ensures MeshOk(cfg, MeshNext(cfg, m, step))
  {
    if MeshEnabled(m, step) {
      match step
      case Connect(c, ident, answer) => ConnectKeepsMesh(cfg, m, c, ident, answer);
      case Handle(c) => HandleKeepsMesh(cfg, m, c);
      case Resume(c, i, text, gathered) => ResumeKeepsMesh(cfg, m, c, i, text, gathered);
      case Drop(c, i) => DropKeepsMesh(cfg, m, c, i);
      case Act(c, message) => ActKeepsMesh(cfg, m, c, message);
      case Disconnect(c) => DisconnectKeepsMesh(cfg, m, c);
      case Read(c, nonce, timestamp, now) =>
        ReadStepFits(cfg, m, c, nonce, timestamp, now);
        ReadKeepsServed(cfg, m, ReadStep(m, c, nonce, timestamp, now),
                        m.clients[c := m.clients[c].(outbox := m.clients[c].outbox[1..])], c, timestamp);
        ReadKeepsMesh(cfg, m, ReadStep(m, c, nonce, timestamp, now), c);
      case Internal(s) =>
        if Enabled(m.server, s) {
          InternalKeepsMesh(cfg, m, s);
        }
    }
  }

  lemma {:induction false} RunsKeepMesh(cfg: Config, steps: seq<MeshStep>)
    ensures MeshOk(cfg, MeshExec(cfg, steps))
    decreases |steps|
  {
    if steps == [] {
      assert INITIAL == Exec(cfg, []);
    } else {
      RunsKeepMesh(cfg, steps[..|steps| - 1]);
      MeshNextKeepsMesh(cfg, MeshExec(cfg, steps[..|steps| - 1]), steps[|steps| - 1]);
    }
  }

  // ----- Quiescence -----

  /** The client of a connected user has its socket open, has handled its whole stream, is making no offer and
      has none unread. */
  predicate Quiet(m: Mesh, u: UserUid)
    requires u in m.server.connections
  {
    var c := m.server.connections[u];
    && c in m.clients && c in m.server.streams && !m.clients[c].closed
    && m.clients[c].delivered == |m.server.streams[c]|
    && (forall p :: p in m.clients[c].app.pending ==> !p.OfferTo?)
    && forall f :: f in m.clients[c].outbox ==> !(f.SendWebRtcSdp? && f.sdpType == Offer)
  }

  predicate AllQuiet(m: Mesh) {
    forall u :: u in m.server.connections ==> Quiet(m, u)
  }

  /** The room a user's session is in. */
  function RoomOfUser(s: State, u: UserUid): Option<Uuid> {
    RoomIn(OccupancyOf(s), u)
  }

  /** The other members of a user's room. */
  function OthersOf(s: State, u: UserUid): set<UserUid> {
    match RoomOfUser(s, u)
    case None => {}
    case Some(room) => MembersOf(s.members, room) - {u}
  }

  /** Those it has seen arrive, and of those that have seen it arrive the ones with the power to signal. */
  function Acquaintances(permissions: Permissions, s: State, u: UserUid): set<UserUid> {
    set v | v in OthersOf(s, u) && (v in View(s, u) || permissions.IsAllowed(v, RoomOfUser(s, u).value, Signal))
  }

  /** The client of a connected user is in the room the server has the user in, with exactly these peers. */
  predicate HasPeers(m: Mesh, u: UserUid, peers: set<UserUid>)
    requires u in m.server.connections
  {
    var c := m.server.connections[u];
    && c in m.clients && m.clients[c].app.ident == u
    && m.clients[c].app.activeRoom == RoomOfUser(m.server, u)
    && m.clients[c].app.peers.Keys == peers
  }

  /** The client is connected to exactly the other members of its room. */
  predicate IsMeshed(m: Mesh, u: UserUid)
    requires u in m.server.connections
  {
    HasPeers(m, u, OthersOf(m.server, u))
  }

  /** Every member that owes `u` an offer has the power to send it. */
  predicate MayBeReached(permissions: Permissions, s: State, u: UserUid) {
    forall v :: v in OthersOf(s, u) && u in View(s, v) ==> permissions.IsAllowed(v, RoomOfUser(s, u).value, Signal)
  }

  lemma SessionRoom(s: State, u: UserUid)
    requires ConnectionsOk(s) && u in s.connections
    ensures u in LobbyOf(s).users && LobbyOf(s).users[u].room == RoomOfUser(s, u)
    ensures s.connections[u] in s.tasks && s.tasks[s.connections[u]].session.Some?
    ensures s.tasks[s.connections[u]].session.value.userUid == u
  {
  }

  /** A client that has handled its whole stream stands where the replay of all of it stands. */
  lemma CaughtUp(cfg: Config, m: Mesh, u: UserUid)
    requires MeshOk(cfg, m) && u in m.server.connections && Quiet(m, u)
    requires m.clients[m.server.connections[u]].app.ident == u
    ensures var history := History(m.server, m.server.connections[u]);
            var app := m.clients[m.server.connections[u]].app;
            Follows(app, Replayed(history)) && u !in Replayed(history).peers
  {
    var c := m.server.connections[u];
    var history := History(m.server, c);
    StreamIsLegal(cfg, m.server, c);
    assert NodeOk(m.server, c, m.clients[c]);
    assert history[..m.clients[c].delivered] == history;
    assert forall k :: 0 <= k < |history| ==> Fits(history[k].message, u) by {
      forall k: nat | k < |history| ensures Fits(history[k].message, u) {
        HistoryFits(IdentsOf(m.clients), m.server.log, c, k);
      }
    }
    ReplayIsOutward(cfg.permissions, history, u);
  }

  lemma PeersAreOthers(permissions: Permissions, members: Members, time: nat, u: UserUid, user: User)
    requires UserOk(permissions, members, time, u, user) && u !in Replayed(user.history).peers
    ensures Replayed(user.history).peers
         <= (match user.room case None => {} case Some(room) => MembersOf(members, room) - {u})
    ensures Legal(permissions, user.history) && Replayed(user.history).room == user.room
  {
  }

  /** What a quiet client's state says about its user. */
  lemma QuietClient(cfg: Config, m: Mesh, u: UserUid)
    requires MeshOk(cfg, m) && u in m.server.connections && Quiet(m, u)
    ensures ConnectionsOk(m.server) && u in LobbyOf(m.server).users
    ensures var app := m.clients[m.server.connections[u]].app;
            var user := LobbyOf(m.server).users[u];
            && app.ident == u && app.activeRoom == user.room == RoomOfUser(m.server, u)
            && app.peers.Keys == Replayed(user.history).peers
            && app.peers.Keys <= OthersOf(m.server, u)
            && View(m.server, u) == Replayed(user.history).view
            && Legal(cfg.permissions, user.history) && Replayed(user.history).room == user.room
  {
    UserFacts(cfg, m.server, u);
    assert LobbyOf(m.server).users[u].room == RoomOfUser(m.server, u) && m.clients[m.server.connections[u]].app.ident == u by {
      SessionRoom(m.server, u);
      OwnClient(m, u);
    }
    CaughtUp(cfg, m, u);
    PeersAreOthers(cfg.permissions, m.server.members, |m.server.log|, u, LobbyOf(m.server).users[u]);
  }

  lemma NothingQueued(node: Node, history: seq<Note>, roomId: Uuid, peer: UserUid)
    requires node.delivered == |history| && !node.closed
    requires forall p :: p in node.app.pending ==> !p.OfferTo?
    requires forall f :: f in node.outbox ==> !(f.SendWebRtcSdp? && f.sdpType == Offer)
    ensures !Paying(node, history, roomId, peer)
  {
  }

  lemma NothingInFlight(cfg: Config, m: Mesh, u: UserUid, v: UserUid)
    requires MeshOk(cfg, m) && u in m.server.connections && Quiet(m, u)
    requires ConnectionsOk(m.server) && Owes(LobbyOf(m.server), u, v)
    requires cfg.permissions.IsAllowed(u, LobbyOf(m.server).users[u].room.value, Signal)
    ensures u in Replayed(LobbyOf(m.server).users[v].history).peers
  {
    var c := m.server.connections[u];
    var history := History(m.server, c);
    assert |m.server.streams[c]| == |history| by {
      StreamsAreProjections(cfg, m.server, c);
    }
    assert Served(cfg.permissions, m.server, m.clients, u, v);
    NothingQueued(m.clients[c], history, LobbyOf(m.server).users[u].room.value, v);
  }

  /** Of two members one has seen the other arrive; its offer has arrived if it may signal, and not otherwise. */
  lemma CoMembersMet(cfg: Config, m: Mesh, u: UserUid, v: UserUid)
    requires MeshOk(cfg, m) && AllQuiet(m) && u in m.server.connections && v in OthersOf(m.server, u)
    requires ConnectionsOk(m.server) && u in LobbyOf(m.server).users
    requires LobbyOf(m.server).users[u].room == RoomOfUser(m.server, u)
    ensures v in Replayed(LobbyOf(m.server).users[u].history).view
            || cfg.permissions.IsAllowed(v, RoomOfUser(m.server, u).value, Signal)
            ==> v in Replayed(LobbyOf(m.server).users[u].history).peers
  {
    var s := m.server;
    assert StateOk(cfg.permissions, s) by {
      Invariants(cfg, s);
    }
    var lobby := LobbyOf(s);
    assert SameRoom(lobby, u, v) && PairOk(lobby, u, v) && PairOk(lobby, v, u);
    if v in Replayed(lobby.users[u].history).view {
      assert UserOk(cfg.permissions, lobby.members, lobby.time, u, lobby.users[u]);
    } else if cfg.permissions.IsAllowed(v, RoomOfUser(s, u).value, Signal) {
      assert Owes(lobby, v, u);
      NothingInFlight(cfg, m, v, u);
    }
  }

  /** In a quiet mesh a client's peers are the members it has seen arrive and those that could tell it so. */
  lemma QuietHasPeers(cfg: Config, m: Mesh, u: UserUid)
    requires MeshOk(cfg, m) && AllQuiet(m) && u in m.server.connections
    ensures HasPeers(m, u, Acquaintances(cfg.permissions, m.server, u))
  {
    QuietClient(cfg, m, u);
    var user := LobbyOf(m.server).users[u];
    var peers := Replayed(user.history).peers;
    forall v | v in OthersOf(m.server, u)
      ensures v in peers <==> v in View(m.server, u) || cfg.permissions.IsAllowed(v, RoomOfUser(m.server, u).value, Signal)
    {
      CoMembersMet(cfg, m, u, v);
      if v in peers && v !in View(m.server, u) {
        PeersMaySignal(cfg.permissions, user.history, v);
      }
    }
  }

  /** All others are acquaintances exactly if everyone who owes the user an offer may send it. */
  lemma AcquaintedWithAll(cfg: Config, s: State, u: UserUid)
    requires Reachable(cfg, s) && u in s.connections
    ensures Acquaintances(cfg.permissions, s, u) == OthersOf(s, u) <==> MayBeReached(cfg.permissions, s, u)
  {
    forall v | v in OthersOf(s, u) ensures v in View(s, u) <==> u !in View(s, v) {
      UserFacts(cfg, s, u);
      SessionRoom(s, u);
      ExactlyOneInitiator(cfg, s, RoomOfUser(s, u).value, u, v);
    }
    if Acquaintances(cfg.permissions, s, u) == OthersOf(s, u) {
      forall v | v in OthersOf(s, u) && u in View(s, v)
        ensures cfg.permissions.IsAllowed(v, RoomOfUser(s, u).value, Signal)
      {
        assert v in Acquaintances(cfg.permissions, s, u);
      }
    }
  }

  /** In every run, whenever no message or offer is on its way, a client's peers are the members of its room that it
      has seen arrive and the others that may signal. */
  lemma PeersAtQuiescence(cfg: Config, steps: seq<MeshStep>, u: UserUid)
    requires AllQuiet(MeshExec(cfg, steps)) && u in MeshExec(cfg, steps).server.connections
    ensures HasPeers(MeshExec(cfg, steps), u, Acquaintances(cfg.permissions, MeshExec(cfg, steps).server, u))
  {
    RunsKeepMesh(cfg, steps);
    QuietHasPeers(cfg, MeshExec(cfg, steps), u);
  }

  /** Then it is connected to all other members of its room exactly if those that joined before it may signal. */
  lemma FullMeshAtQuiescence(cfg: Config, steps: seq<MeshStep>, u: UserUid)
    requires AllQuiet(MeshExec(cfg, steps)) && u in MeshExec(cfg, steps).server.connections
    ensures IsMeshed(MeshExec(cfg, steps), u) <==> MayBeReached(cfg.permissions, MeshExec(cfg, steps).server, u)
  {
    var m := MeshExec(cfg, steps);
    RunsKeepMesh(cfg, steps);
    QuietHasPeers(cfg, m, u);
    AcquaintedWithAll(cfg, m.server, u);
  }

  /** The evaluator the server runs with grants every action, so its rooms always become full meshes. */
  lemma FullMeshInProduction(ed: Ed25519, steps: seq<MeshStep>, u: UserUid)
    requires AllQuiet(MeshExec(Config(ed, AllowAllPermissions()), steps))
    requires u in MeshExec(Config(ed, AllowAllPermissions()), steps).server.connections
    ensures IsMeshed(MeshExec(Config(ed, AllowAllPermissions()), steps), u)
  {
    FullMeshAtQuiescence(Config(ed, AllowAllPermissions()), steps, u);
  }
}
