/** What every step of the server and its clients keeps: each client follows its stream, and whoever
    has been seen to arrive has been, or is about to be, sent an offer. */
module MeshProofs {
  import opened Protocol
  import opened Rooms
  import opened Replay
  import opened Presence
  import opened Server
  import opened ServerProofs
  import opened ServerHistory
  import opened Guarantees
  import opened PairProofs
  import opened PeerTable
  import opened LogProofs
  import opened ClientProofs
  import opened Mesh

  // ----- Offers on their way -----

  predicate IsOffer(frame: ClientMessage, roomId: Uuid, peer: UserUid) {
    frame.SendWebRtcSdp? && frame.roomId == roomId && frame.targetUid == peer && frame.sdpType == Offer
  }

  /** The arrival is still to be handled. */
  predicate Unseen(node: Node, history: seq<Note>, roomId: Uuid, peer: UserUid) {
    exists i :: node.delivered <= i < |history| && IsArrival(history[i].message, roomId, peer)
  }

  /** The offer is being made, for the connection in use. */
  predicate Owed(app: ClientState, roomId: Uuid, peer: UserUid) {
    exists p :: p in app.pending && p.OfferTo? && p.roomId == roomId && p.peer == peer && InUse(app, peer, p.connection)
  }

  /** The offer has been sent and not yet read. */
  predicate Posted(outbox: seq<ClientMessage>, roomId: Uuid, peer: UserUid) {
    exists f :: f in outbox && IsOffer(f, roomId, peer)
  }

  predicate InFlight(node: Node, history: seq<Note>, roomId: Uuid, peer: UserUid) {
    Unseen(node, history, roomId, peer) || Owed(node.app, roomId, peer) || Posted(node.outbox, roomId, peer)
  }

  lemma UnseenGrows(node: Node, history: seq<Note>, history': seq<Note>, roomId: Uuid, peer: UserUid)
    requires Unseen(node, history, roomId, peer) && history <= history'
    ensures Unseen(node, history', roomId, peer)
  {
    var i :| node.delivered <= i < |history| && IsArrival(history[i].message, roomId, peer);
    assert history'[i] == history[i];
  }

  /** Handling an arrival creates the connection and starts the offer. */
  lemma ArrivalIsAnswered(app: ClientState, message: ServerMessage, roomId: Uuid, peer: UserUid)
    requires IsArrival(message, roomId, peer) && app.activeRoom == Some(roomId) && peer != app.ident
    ensures Owed(HandleServerMessage(app, message), roomId, peer)
  {
    var after := HandleServerMessage(app, message);
    assert after.pending[|app.pending|] == OfferTo(roomId, peer, after.peers[peer]);
  }

  /** Only the messages that empty the view of a peer take its connection out of use. */
  lemma OwedSurvives(app: ClientState, s: Standing, note: Note, roomId: Uuid, peer: UserUid)
    requires Owed(app, roomId, peer)
    requires peer in Advance(s, note).view
    requires !note.message.VoiceRoomJoined? && !note.message.VoiceRoomLeft?
    ensures Owed(HandleServerMessage(app, note.message), roomId, peer)
  {
    var p :| p in app.pending && p.OfferTo? && p.roomId == roomId && p.peer == peer && InUse(app, peer, p.connection);
    var after := HandleServerMessage(app, note.message);
    assert app.pending <= after.pending;
    assert p in after.pending;
  }

  /** Handling a message never loses an offer: it either leaves it where it is, or starts it, or makes room for
      an arrival that is still to be handled. */
  lemma HandledInFlight(permissions: Permissions, node: Node, history: seq<Note>, roomId: Uuid, peer: UserUid)
    requires Legal(permissions, history) && node.delivered < |history|
    requires Follows(node.app, Replayed(history[..node.delivered]))
    requires Replayed(history).room == Some(roomId) && peer in Replayed(history).view && peer != node.app.ident
    requires InFlight(node, history, roomId, peer)
    ensures var after := Handled(node, history[node.delivered].message);
            after.closed || InFlight(after, history, roomId, peer)
  {
    var d := node.delivered;
    var note := history[d];
    var after := Handled(node, note.message);
    assert Admits(permissions, Replayed(history[..d]), note) by {
      LegalAt(permissions, history, d);
    }
    assert Replayed(history[..d + 1]) == Advance(Replayed(history[..d]), note) by {
      assert history[..d + 1] == history[..d] + [note];
      Extend(permissions, history[..d], note);
    }
    if note.message.AuthFailure? {
      assert after.closed;
    } else if peer !in Replayed(history[..d + 1]).view {
      SeenSince(permissions, history, d + 1, roomId, peer);
      assert Unseen(after, history, roomId, peer);
    } else if Posted(node.outbox, roomId, peer) {
      assert Posted(after.outbox, roomId, peer);
    } else if Owed(node.app, roomId, peer) {
      OwedSurvives(node.app, Replayed(history[..d]), note, roomId, peer);
    } else {
      var i :| d <= i < |history| && IsArrival(history[i].message, roomId, peer);
      if i == d {
        ArrivalIsAnswered(node.app, note.message, roomId, peer);
      } else {
        assert Unseen(after, history, roomId, peer);
      }
    }
  }

  lemma WithoutKeeps<T>(items: seq<T>, i: nat, x: T)
    requires i < |items| && x in items && x != items[i]
    ensures x in Without(items, i)
  {
    var k :| 0 <= k < |items| && items[k] == x;
    assert k < i ==> Without(items, i)[k] == x;
    assert k > i ==> Without(items, i)[k - 1] == x;
  }

  lemma OwedWithout(app: ClientState, i: nat, roomId: Uuid, peer: UserUid)
    requires i < |app.pending| && Owed(app, roomId, peer)
    ensures var p := app.pending[i];
            || Owed(app.(pending := Without(app.pending, i)), roomId, peer)
            || (p.OfferTo? && p.roomId == roomId && p.peer == peer && InUse(app, peer, p.connection))
  {
    var p :| p in app.pending && p.OfferTo? && p.roomId == roomId && p.peer == peer && InUse(app, peer, p.connection);
    if p != app.pending[i] {
      WithoutKeeps(app.pending, i, p);
    }
  }

  lemma PostedGrows(outbox: seq<ClientMessage>, frame: ClientMessage, roomId: Uuid, peer: UserUid)
    requires Posted(outbox, roomId, peer) || IsOffer(frame, roomId, peer)
    ensures Posted(outbox + [frame], roomId, peer)
  {
    if Posted(outbox, roomId, peer) {
      var f :| f in outbox && IsOffer(f, roomId, peer);
      assert f in outbox + [frame];
    } else {
      assert (outbox + [frame])[|outbox|] == frame;
    }
  }

  lemma OwedGrows(app: ClientState, more: seq<Pending>, roomId: Uuid, peer: UserUid)
    requires Owed(app, roomId, peer)
    ensures Owed(app.(pending := app.pending + more), roomId, peer)
  {
    var p :| p in app.pending && p.OfferTo? && p.roomId == roomId && p.peer == peer && InUse(app, peer, p.connection);
    assert p in app.pending + more;
  }

  /** Finishing the offer posts it. */
  lemma ResumedInFlight(node: Node, i: nat, text: string, gathered: seq<Json>, history: seq<Note>, roomId: Uuid, peer: UserUid)
    requires i < |node.app.pending| && Frame(node, node.app.pending[i], text).Some?
    requires InFlight(node, history, roomId, peer)
    ensures InFlight(Resumed(node, i, Frame(node, node.app.pending[i], text).value, gathered), history, roomId, peer)
  {
    var frame := Frame(node, node.app.pending[i], text).value;
    var after := Resumed(node, i, frame, gathered);
    if Unseen(node, history, roomId, peer) {
      assert Unseen(after, history, roomId, peer);
    } else if Posted(node.outbox, roomId, peer) {
      PostedGrows(node.outbox, frame, roomId, peer);
    } else {
      OwedWithout(node.app, i, roomId, peer);
      var rest := node.app.(pending := Without(node.app.pending, i));
      if Owed(rest, roomId, peer) {
        OwedGrows(rest, Gathered(node.app.pending[i], gathered), roomId, peer);
      } else {
        PostedGrows(node.outbox, frame, roomId, peer);
      }
    }
  }

  /** What may be dropped was not an offer for a connection in use. */
  lemma DroppedInFlight(node: Node, i: nat, history: seq<Note>, roomId: Uuid, peer: UserUid)
    requires i < |node.app.pending| && MayDrop(node, node.app.pending[i])
    requires InFlight(node, history, roomId, peer)
    ensures InFlight(GivenUp(node, i), history, roomId, peer)
  {
    var after := GivenUp(node, i);
    if Unseen(node, history, roomId, peer) {
      assert Unseen(after, history, roomId, peer);
    } else if Owed(node.app, roomId, peer) {
      OwedWithout(node.app, i, roomId, peer);
    }
  }

  lemma ActedInFlight(node: Node, frame: ClientMessage, history: seq<Note>, roomId: Uuid, peer: UserUid)
    requires InFlight(node, history, roomId, peer)
    ensures InFlight(Said(node, frame), history, roomId, peer)
  {
    if Unseen(node, history, roomId, peer) {
      assert Unseen(Said(node, frame), history, roomId, peer);
    } else if Posted(node.outbox, roomId, peer) {
      PostedGrows(node.outbox, frame, roomId, peer);
    }
  }

  // ----- The invariant -----

  function IdentsOf(clients: map<ConnId, Node>): Idents {
    map c | c in clients :: clients[c].app.ident
  }

  ghost predicate NodeOk(s: State, c: ConnId, node: Node) {
    && node.delivered <= |History(s, c)|
    && Outward(node.app)
    && (forall f :: f in node.outbox ==> FrameFits(f, node.app.ident))
    && (!node.closed ==> Follows(node.app, Replayed(History(s, c)[..node.delivered])))
  }

  ghost predicate NodesOk(s: State, clients: map<ConnId, Node>) {
    forall c :: c in clients ==> NodeOk(s, c, clients[c])
  }

  /** The offer is on its way, unless the client has closed its socket. */
  predicate Paying(node: Node, history: seq<Note>, roomId: Uuid, peer: UserUid) {
    node.closed || InFlight(node, history, roomId, peer)
  }

  /** The debt of `u` towards `v` is paid, or its payment is on the way as long as its socket is open; unless
      `u` has no power to signal in its room. */
  ghost predicate Served(permissions: Permissions, s: State, clients: map<ConnId, Node>, u: UserUid, v: UserUid)
    requires ConnectionsOk(s)
  {
    Owes(LobbyOf(s), u, v) && permissions.IsAllowed(u, LobbyOf(s).users[u].room.value, Signal) ==>
      || u in Replayed(LobbyOf(s).users[v].history).peers
      || (s.connections[u] in clients
          && Paying(clients[s.connections[u]], LobbyOf(s).users[u].history, LobbyOf(s).users[u].room.value, v))
  }

  ghost predicate AllServed(permissions: Permissions, s: State, clients: map<ConnId, Node>) {
    ConnectionsOk(s) && forall u, v :: Served(permissions, s, clients, u, v)
  }

  ghost predicate ServerFits(s: State, clients: map<ConnId, Node>) {
    TasksFit(IdentsOf(clients), s.tasks) && LogFits(IdentsOf(clients), s.log)
  }

  ghost predicate MeshOk(cfg: Config, m: Mesh) {
    && Reachable(cfg, m.server)
    && ServerFits(m.server, m.clients)
    && NodesOk(m.server, m.clients)
    && AllServed(cfg.permissions, m.server, m.clients)
  }

  // ----- Steps of one client -----

  lemma HandledNodeOk(cfg: Config, s: State, c: ConnId, node: Node)
    requires NodeOk(s, c, node) && !node.closed && node.delivered < |History(s, c)| && Legal(cfg.permissions, History(s, c))
    requires Fits(History(s, c)[node.delivered].message, node.app.ident)
    ensures NodeOk(s, c, Handled(node, History(s, c)[node.delivered].message))
  {
    var history, d := History(s, c), node.delivered;
    LegalAt(cfg.permissions, history, d);
    assert history[..d + 1] == history[..d] + [history[d]];
    Extend(cfg.permissions, history[..d], history[d]);
    HandleFollowsReplay(cfg.permissions, node.app, Replayed(history[..d]), history[d]);
    HandleStaysOutward(node.app, history[d].message);
  }

  lemma ResumedNodeOk(s: State, c: ConnId, node: Node, i: nat, text: string, gathered: seq<Json>)
    requires NodeOk(s, c, node) && i < |node.app.pending| && Frame(node, node.app.pending[i], text).Some?
    ensures NodeOk(s, c, Resumed(node, i, Frame(node, node.app.pending[i], text).value, gathered))
  {
    var p := node.app.pending[i];
    assert p in node.app.pending;
    assert FrameFits(Frame(node, p, text).value, node.app.ident);
  }

  lemma DroppedNodeOk(s: State, c: ConnId, node: Node, i: nat)
    requires NodeOk(s, c, node) && i < |node.app.pending|
    ensures NodeOk(s, c, GivenUp(node, i))
  {
  }

  lemma ActedNodeOk(s: State, c: ConnId, node: Node, frame: ClientMessage)
    requires NodeOk(s, c, node) && MayAct(node.app, frame)
    ensures NodeOk(s, c, Said(node, frame))
  {
  }

  // ----- A step that changes one client and leaves the server alone -----

  lemma SameIdents(clients: map<ConnId, Node>, c: ConnId, node: Node)
    requires c in clients && node.app.ident == clients[c].app.ident
    ensures IdentsOf(clients[c := node]) == IdentsOf(clients)
  {
  }

  lemma ClientStepServes(permissions: Permissions, s: State, clients: map<ConnId, Node>, c: ConnId, node: Node)
    requires AllServed(permissions, s, clients) && c in clients
    requires forall u, v :: Owes(LobbyOf(s), u, v) && s.connections[u] == c ==>
      (Paying(clients[c], LobbyOf(s).users[u].history, LobbyOf(s).users[u].room.value, v) ==>
       Paying(node, LobbyOf(s).users[u].history, LobbyOf(s).users[u].room.value, v))
    ensures AllServed(permissions, s, clients[c := node])
  {
    var after := clients[c := node];
    forall u, v ensures Served(permissions, s, after, u, v) {
      assert Served(permissions, s, clients, u, v);
    }
  }

  lemma ClientStepKeepsMesh(cfg: Config, m: Mesh, c: ConnId, node: Node)
    requires MeshOk(cfg, m) && c in m.clients && node.app.ident == m.clients[c].app.ident
    requires NodeOk(m.server, c, node)
    requires forall u, v :: Owes(LobbyOf(m.server), u, v) && m.server.connections[u] == c ==>
      (Paying(m.clients[c], LobbyOf(m.server).users[u].history, LobbyOf(m.server).users[u].room.value, v) ==>
       Paying(node, LobbyOf(m.server).users[u].history, LobbyOf(m.server).users[u].room.value, v))
    ensures MeshOk(cfg, WithNode(m, c, node))
  {
    SameIdents(m.clients, c, node);
    ClientStepServes(cfg.permissions, m.server, m.clients, c, node);
  }

  // ----- A step of the server -----

  lemma NodeKeptByServer(cfg: Config, s: State, step: Step, c: ConnId, node: Node)
    requires NodeOk(s, c, node)
    ensures NodeOk(Next(cfg, s, step), c, node)
  {
    HistoryGrows(cfg, s, step, c);
    assert History(Next(cfg, s, step), c)[..node.delivered] == History(s, c)[..node.delivered];
  }

  lemma OtherStepsKeepConnections(cfg: Config, s: State, step: Step, u: UserUid)
    requires Enabled(s, step) && !step.RoomMessage? && !step.CleanUp?
    requires u in s.connections && u in Next(cfg, s, step).connections
    ensures Next(cfg, s, step).connections[u] == s.connections[u]
  {
  }

  lemma ConnectionsStay(cfg: Config, s: State, step: Step, u: UserUid)
    requires ConnectionsOk(s) && LiveOk(s)
    requires forall c :: c in s.tasks ==> s.tasks[c].isRegistered == s.tasks[c].session.Some?
    requires u in s.connections && u in Next(cfg, s, step).connections
    ensures Next(cfg, s, step).connections[u] == s.connections[u]
  {
    if Enabled(s, step) {
      match step
      case RoomMessage(c, message, timestamp) => RoomMessageTasks(cfg, s, c, message, timestamp);
      case CleanUp(c) => CleanUpConnections(s, c);
      case _ => OtherStepsKeepConnections(cfg, s, step, u);
    }
  }

  lemma LobbyUser(s: State, u: UserUid)
    requires ConnectionsOk(s) && u in LobbyOf(s).users
    ensures u in s.connections && LobbyOf(s).users[u].history == History(s, s.connections[u])
  {
  }

  /** The server's steps take frames from a client and nothing else. */
  predicate SameApp(before: Node, after: Node) {
    after.app == before.app && after.delivered == before.delivered && after.closed == before.closed
  }

  lemma ConnectionSurvives(cfg: Config, s: State, step: Step, u: UserUid)
    requires StateOk(cfg.permissions, s) && ConnectionsOk(Next(cfg, s, step))
    requires u in LobbyOf(s).users && u in LobbyOf(Next(cfg, s, step)).users
    ensures u in s.connections && u in Next(cfg, s, step).connections
    ensures Next(cfg, s, step).connections[u] == s.connections[u]
  {
    forall c | c in s.tasks ensures s.tasks[c].isRegistered == s.tasks[c].session.Some? {
      assert TaskOk(cfg.permissions, s, c, s.tasks[c]);
    }
    ConnectionsStay(cfg, s, step, u);
  }

  lemma KeptPairIsServed(node: Node, node': Node, lobby: Lobby, after: Lobby, u: UserUid, v: UserUid)
    requires u in after.users && v in after.users && PairKept(lobby, after, u, v)
    requires lobby.users[u].history <= after.users[u].history
    requires SameApp(node, node')
    requires u in Replayed(lobby.users[v].history).peers
             || Paying(node, lobby.users[u].history, lobby.users[u].room.value, v)
    requires Posted(node.outbox, lobby.users[u].room.value, v) ==>
      Posted(node'.outbox, lobby.users[u].room.value, v) || u in Replayed(after.users[v].history).peers
    ensures u in Replayed(after.users[v].history).peers
            || Paying(node', after.users[u].history, after.users[u].room.value, v)
  {
    var room := lobby.users[u].room.value;
    if Unseen(node, lobby.users[u].history, room, v) {
      UnseenGrows(node, lobby.users[u].history, after.users[u].history, room, v);
      assert Unseen(node', after.users[u].history, room, v);
    }
  }

  lemma FormedPairIsUnseen(node: Node, lobby: Lobby, after: Lobby, u: UserUid, v: UserUid)
    requires u in after.users && after.users[u].room.Some? && PairFormed(lobby, after, u, v)
    requires node.delivered <= |lobby.users[u].history|
    ensures Unseen(node, after.users[u].history, after.users[u].room.value, v)
  {
    assert IsArrival(after.users[u].history[|lobby.users[u].history|].message, after.users[u].room.value, v);
  }

  /** A user that is there before and after a step has its connection and a longer history of it. */
  lemma SameConnection(cfg: Config, s: State, step: Step, u: UserUid)
    requires StateOk(cfg.permissions, s) && ConnectionsOk(Next(cfg, s, step))
    requires u in LobbyOf(s).users && u in LobbyOf(Next(cfg, s, step)).users
    ensures u in s.connections && u in Next(cfg, s, step).connections
    ensures Next(cfg, s, step).connections[u] == s.connections[u]
    ensures LobbyOf(s).users[u].history == History(s, s.connections[u])
    ensures LobbyOf(s).users[u].history <= LobbyOf(Next(cfg, s, step)).users[u].history
  {
    ConnectionSurvives(cfg, s, step, u);
    LobbyUser(s, u);
    LobbyUser(Next(cfg, s, step), u);
    HistoryGrows(cfg, s, step, s.connections[u]);
  }

  /** If the frames read are accounted for, a step of the server leaves no debt unserved. */
  lemma ServerStepServes(cfg: Config, s: State, step: Step, clients: map<ConnId, Node>, clients': map<ConnId, Node>,
                         u: UserUid, v: UserUid)
    requires StateOk(cfg.permissions, s) && NodesOk(s, clients) && Served(cfg.permissions, s, clients, u, v)
    requires ConnectionsOk(Next(cfg, s, step))
    requires u in s.connections ==>
      var c := s.connections[u];
      c in clients && c in clients' && SameApp(clients[c], clients'[c])
    requires Owes(LobbyOf(s), u, v) && Owes(LobbyOf(Next(cfg, s, step)), u, v)
             && cfg.permissions.IsAllowed(u, LobbyOf(s).users[u].room.value, Signal) ==>
      var c, room, after := s.connections[u], LobbyOf(s).users[u].room.value, LobbyOf(Next(cfg, s, step));
      Posted(clients[c].outbox, room, v) ==>
        Posted(clients'[c].outbox, room, v) || u in Replayed(after.users[v].history).peers
    ensures Served(cfg.permissions, Next(cfg, s, step), clients', u, v)
  {
    var after := Next(cfg, s, step);
    if Owes(LobbyOf(after), u, v) && cfg.permissions.IsAllowed(u, LobbyOf(after).users[u].room.value, Signal) {
      assert PairKept(LobbyOf(s), LobbyOf(after), u, v) || PairFormed(LobbyOf(s), LobbyOf(after), u, v) by {
        StepPair(cfg, s, step, u, v);
      }
      SameConnection(cfg, s, step, u);
      var c := s.connections[u];
      if PairKept(LobbyOf(s), LobbyOf(after), u, v) {
        KeptPairIsServed(clients[c], clients'[c], LobbyOf(s), LobbyOf(after), u, v);
      } else {
        assert clients[c].delivered <= |History(s, c)| by {
          assert NodeOk(s, c, clients[c]);
        }
        FormedPairIsUnseen(clients'[c], LobbyOf(s), LobbyOf(after), u, v);
      }
    }
  }
}
