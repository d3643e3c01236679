/** The work a mesh still has before it: everything that is on its way, ranked so that dealing with one
    thing only ever gives rise to things of lower rank. */
module Work {
  import opened Protocol
  import Rooms
  import opened Dispatch
  import opened Server
  import opened PeerTable
  import opened Mesh

  // ----- Ranks -----

  /** A message still to be handled. */
  function MessageRank(message: ServerMessage): (r: nat)
    ensures r <= 10
  {
    match message
    case AuthChallenge(_, _) => 7
    case PeerJoinedRoom(_, _, _) => 10
    case ForwardWebRtcSdp(_, _, sdpType, _) => if sdpType == Offer then 7 else 2
    case _ => 2
  }

  /** A frame still to be read. */
  function FrameRank(frame: ClientMessage): (r: nat)
    ensures 4 <= r <= 11
  {
    match frame
    case AuthIdentify(_, _) => 9
    case AuthResponse(_) => 5
    case JoinVoiceRoom(_) => 11
    case SendWebRtcSdp(_, _, sdpType, _) => if sdpType == Offer then 8 else 4
    case _ => 4
  }

  /** A handler still to finish. */
  function PendingRank(pending: Pending): (r: nat)
    ensures r <= 9
  {
    match pending
    case SignChallenge(_, _) => 6
    case OfferTo(_, _, _) => 9
    case AnswerTo(_, _) => 6
    case CandidateFor(_, _) => 5
  }

  function One(b: bool): nat {
    if b then 1 else 0
  }

  /** What a task still has to do: reply, register, clean up, end. */
  function TaskLoad(task: Task, r: nat): nat {
    One(r == 0 && task.writer.Running?) + One(r == 0 && !task.pc.Done?)
    + One(r == 3 && task.pc.Closing?)
    + One(r == 4 && (task.pc.Reading? || task.pc.AwaitingLock? || task.pc.Replying?))
    + One(r == 4 && task.pc.AwaitingLock?)
    + One(task.pc.Replying? && r == MessageRank(task.pc.reply) + 1)
  }

  // ----- Counting -----

  function Tally<T>(items: seq<T>, rank: T -> nat, r: nat): nat {
    if items == [] then 0
    else Tally(items[..|items| - 1], rank, r) + One(rank(items[|items| - 1]) == r)
  }

  lemma {:induction false} TallyConcat<T>(a: seq<T>, b: seq<T>, rank: T -> nat, r: nat)
    ensures Tally(a + b, rank, r) == Tally(a, rank, r) + Tally(b, rank, r)
    decreases |b|
  {
    if b == [] {
      assert a + b == a;
    } else {
      var n := |b| - 1;
      TallyConcat(a, b[..n], rank, r);
      assert (a + b)[..|a + b| - 1] == a + b[..n];
    }
  }

  lemma TallyOne<T>(x: T, rank: T -> nat, r: nat)
    ensures Tally([x], rank, r) == One(rank(x) == r)
  {
    assert [x][..0] == [];
  }

  lemma TallyAppend<T>(items: seq<T>, x: T, rank: T -> nat, r: nat)
    ensures Tally(items + [x], rank, r) == Tally(items, rank, r) + One(rank(x) == r)
  {
    TallyConcat(items, [x], rank, r);
    TallyOne(x, rank, r);
  }

  lemma TallyFirst<T>(items: seq<T>, rank: T -> nat, r: nat)
    requires items != []
    ensures Tally(items, rank, r) == One(rank(items[0]) == r) + Tally(items[1..], rank, r)
  {
    assert items == [items[0]] + items[1..];
    TallyConcat([items[0]], items[1..], rank, r);
    TallyOne(items[0], rank, r);
  }

  lemma TallyWithout<T>(items: seq<T>, i: nat, rank: T -> nat, r: nat)
    requires i < |items|
    ensures Tally(items, rank, r) == Tally(Without(items, i), rank, r) + One(rank(items[i]) == r)
  {
    assert items == items[..i] + items[i..];
    TallyConcat(items[..i], items[i..], rank, r);
    TallyFirst(items[i..], rank, r);
    assert items[i..][1..] == items[i + 1..];
    TallyConcat(items[..i], items[i + 1..], rank, r);
  }

  lemma {:induction false} TallyLow<T>(items: seq<T>, rank: T -> nat, r: nat)
    requires forall x :: x in items ==> rank(x) < r
    ensures Tally(items, rank, r) == 0
    decreases |items|
  {
    if items != [] {
      TallyLow(items[..|items| - 1], rank, r);
    }
  }

  // ----- The load of a connection and of the mesh -----

  function Unhandled(stream: seq<ServerMessage>, node: Node): seq<ServerMessage> {
    if node.delivered <= |stream| then stream[node.delivered..] else []
  }

  function Unwritten(task: Task, stream: seq<ServerMessage>): nat {
    if task.written <= |stream| then |stream| - task.written else 0
  }

  function Load(task: Task, stream: seq<ServerMessage>, node: Node, r: nat): nat {
    Tally(Unhandled(stream, node), MessageRank, r) + Tally(node.outbox, FrameRank, r)
    + Tally(node.app.pending, PendingRank, r) + TaskLoad(task, r) + (if r == 1 then Unwritten(task, stream) else 0)
  }

  function LoadOf(m: Mesh, c: ConnId, r: nat): nat {
    if c in m.clients && c in m.server.tasks && c in m.server.streams
    then Load(m.server.tasks[c], m.server.streams[c], m.clients[c], r) else 0
  }

  ghost function Sum(f: ConnId -> nat, cs: set<ConnId>): nat
    decreases |cs|
  {
    if cs == {} then 0
    else
      var c :| c in cs;
      f(c) + Sum(f, cs - {c})
  }

  lemma {:induction false} SumNotAbove(f: ConnId -> nat, g: ConnId -> nat, cs: set<ConnId>)
    requires forall c :: c in cs ==> g(c) <= f(c)
    ensures Sum(g, cs) <= Sum(f, cs)
    ensures (exists c :: c in cs && g(c) < f(c)) ==> Sum(g, cs) < Sum(f, cs)
    decreases |cs|
  {
    if cs != {} {
      var c :| c in cs && Sum(g, cs) == g(c) + Sum(g, cs - {c}) && Sum(f, cs) == f(c) + Sum(f, cs - {c});
      SumNotAbove(f, g, cs - {c});
    }
  }

  function Loads(m: Mesh, r: nat): ConnId -> nat {
    c => LoadOf(m, c, r)
  }

  /** The number of things of rank `r` on their way anywhere. */
  ghost function Total(m: Mesh, r: nat): nat {
    Sum(Loads(m, r), m.clients.Keys)
  }

  // ----- Working -----

  /** Steps that deal with something that is on its way, rather than bring in something new. */
  predicate Works(m: Mesh, step: MeshStep) {
    MeshEnabled(m, step) &&
    match step
    case Handle(_) => true
    case Resume(_, _, _, _) => true
    case Drop(_, _) => true
    case Read(_, _, _, _) => true
    case Internal(s) => Enabled(m.server, s)
    case _ => false
  }

  /** Work that must not wait for ever. A write may fail and a connection may break, but neither need happen, unless
      the client has closed the socket or a write has failed already: then the input ends sooner or later. */
  predicate Due(m: Mesh, step: MeshStep) {
    Works(m, step) &&
    match step
    case Internal(WriteNext(_, succeeds)) => succeeds
    case Internal(EndOfInput(c)) => c in m.clients && (m.clients[c].closed || m.server.tasks[c].writer.Failed?)
    case _ => true
  }

  function TaskStepRank(s: State, step: Step): (r: nat)
    requires Enabled(s, step)
    ensures r <= 11
  {
    match step
    case Register(_) => 4
    case EndOfInput(_) => 4
    case SendReply(c) => MessageRank(s.tasks[c].pc.reply) + 1
    case CleanUp(_) => 3
    case WriteNext(_, succeeds) => if succeeds then 1 else 0
    case _ => 0
  }

  /** The rank of what a step deals with, and the connection it belongs to. */
  function StepRank(m: Mesh, step: MeshStep): (r: nat)
    requires Works(m, step)
    ensures r <= 11
  {
    match step
    case Handle(c) => MessageRank(m.server.streams[c][m.clients[c].delivered])
    case Resume(c, i, _, _) => PendingRank(m.clients[c].app.pending[i])
    case Drop(c, i) => PendingRank(m.clients[c].app.pending[i])
    case Read(c, _, _, _) => FrameRank(m.clients[c].outbox[0])
    case Internal(s) => TaskStepRank(m.server, s)
  }

  function StepConnection(m: Mesh, step: MeshStep): ConnId
    requires Works(m, step)
  {
    match step
    case Handle(c) => c
    case Resume(c, _, _, _) => c
    case Drop(c, _) => c
    case Read(c, _, _, _) => c
    case Internal(s) => s.c
  }

  // ----- Clients -----

  /** What handling a message starts is of lower rank than the message. */
  lemma HandleAddsBelow(app: ClientState, message: ServerMessage, r: nat)
    requires r >= MessageRank(message)
    ensures Tally(HandleServerMessage(app, message).pending, PendingRank, r) == Tally(app.pending, PendingRank, r)
  {
    var after := HandleServerMessage(app, message).pending;
    if after != app.pending {
      var n := |app.pending|;
      assert after == app.pending + [after[n]];
      TallyAppend(app.pending, after[n], PendingRank, r);
    }
  }

  lemma HandleLowersNode(node: Node, stream: seq<ServerMessage>, task: Task, r: nat)
    requires node.delivered < |stream|
    ensures var message := stream[node.delivered];
            var rank := MessageRank(message);
            var after := Handled(node, message);
            && (r > rank ==> Load(task, stream, after, r) == Load(task, stream, node, r))
            && (r == rank ==> Load(task, stream, after, r) < Load(task, stream, node, r))
  {
    var message := stream[node.delivered];
    var after := Handled(node, message);
    TallyFirst(Unhandled(stream, node), MessageRank, r);
    assert Unhandled(stream, node)[1..] == Unhandled(stream, after);
    if r >= MessageRank(message) {
      HandleAddsBelow(node.app, message, r);
    }
  }

  /** A finished handler leaves only candidates behind, which rank below it. */
  lemma FinishedTally(pending: seq<Pending>, i: nat, gathered: seq<Json>, r: nat)
    requires i < |pending| && r >= PendingRank(pending[i])
    ensures Tally(pending, PendingRank, r)
         == Tally(Without(pending, i) + Gathered(pending[i], gathered), PendingRank, r) + One(PendingRank(pending[i]) == r)
  {
    TallyWithout(pending, i, PendingRank, r);
    TallyConcat(Without(pending, i), Gathered(pending[i], gathered), PendingRank, r);
    TallyLow(Gathered(pending[i], gathered), PendingRank, r);
  }

  lemma ResumeLowersNode(node: Node, stream: seq<ServerMessage>, task: Task, i: nat, text: string, gathered: seq<Json>, r: nat)
    requires i < |node.app.pending| && Frame(node, node.app.pending[i], text).Some?
    ensures var rank := PendingRank(node.app.pending[i]);
            var after := Resumed(node, i, Frame(node, node.app.pending[i], text).value, gathered);
            && (r > rank ==> Load(task, stream, after, r) == Load(task, stream, node, r))
            && (r == rank ==> Load(task, stream, after, r) < Load(task, stream, node, r))
  {
    TallyAppend(node.outbox, Frame(node, node.app.pending[i], text).value, FrameRank, r);
    if r >= PendingRank(node.app.pending[i]) {
      FinishedTally(node.app.pending, i, gathered, r);
      assert FrameRank(Frame(node, node.app.pending[i], text).value) < PendingRank(node.app.pending[i]);
    }
  }

  lemma DropLowersNode(node: Node, stream: seq<ServerMessage>, task: Task, i: nat, r: nat)
    requires i < |node.app.pending|
    ensures var rank := PendingRank(node.app.pending[i]);
            var after := GivenUp(node, i);
            && (r > rank ==> Load(task, stream, after, r) == Load(task, stream, node, r))
            && (r == rank ==> Load(task, stream, after, r) < Load(task, stream, node, r))
  {
    TallyWithout(node.app.pending, i, PendingRank, r);
  }

  // ----- The server -----

  /** Only messages below rank `r` have been added to the stream. */
  predicate GrownBelow(stream: seq<ServerMessage>, stream': seq<ServerMessage>, r: nat) {
    stream <= stream' && forall i :: |stream| <= i < |stream'| ==> MessageRank(stream'[i]) < r
  }

  lemma GrownLoad(task: Task, stream: seq<ServerMessage>, stream': seq<ServerMessage>, node: Node, r: nat, r': nat)
    requires GrownBelow(stream, stream', r) && r <= r' && (stream == stream' || r' > 1)
    requires node.delivered <= |stream|
    ensures Load(task, stream', node, r') == Load(task, stream, node, r')
  {
    var more := stream'[|stream|..];
    assert Unhandled(stream', node) == Unhandled(stream, node) + more;
    TallyConcat(Unhandled(stream, node), more, MessageRank, r');
    TallyLow(more, MessageRank, r');
  }

  predicate AllGrownBelow(s: State, after: State, r: nat) {
    after.streams.Keys == s.streams.Keys && forall c :: c in s.streams ==> GrownBelow(s.streams[c], after.streams[c], r)
  }

  lemma {:induction false} PublishAllGrows(s: State, before: Rooms.Members, sends: seq<Outgoing>, r: nat)
    requires forall k :: 0 <= k < |sends| ==> MessageRank(sends[k].message) < r
    ensures AllGrownBelow(s, PublishAll(s, before, sends), r)
    decreases |sends|
  {
    if sends != [] {
      PublishAllGrows(s, before, sends[..|sends| - 1], r);
    }
  }

  lemma EffectIsBelow(members: Rooms.Members, session: Rooms.SessionData, message: ClientMessage, timestamp: U64,
                      permissions: Rooms.Permissions)
    ensures var sends := HandleAuthenticatedMessage(members, session, message, timestamp, permissions).sends;
            forall k :: 0 <= k < |sends| ==> MessageRank(sends[k].message) < FrameRank(message)
  {
  }

  lemma RoomMessageGrows(cfg: Config, s: State, c: ConnId, message: ClientMessage, timestamp: U64)
    requires c in s.tasks && s.tasks[c].session.Some?
    ensures AllGrownBelow(s, DoRoomMessage(cfg, s, c, message, timestamp), FrameRank(message))
  {
    var session := s.tasks[c].session.value;
    var effect := HandleAuthenticatedMessage(s.members, session, message, timestamp, cfg.permissions);
    EffectIsBelow(s.members, session, message, timestamp, cfg.permissions);
    PublishAllGrows(WithTask(s.(members := effect.members), c, s.tasks[c].(session := Some(effect.session))),
                    s.members, effect.sends, FrameRank(message));
  }

  lemma CleanUpGrows(s: State, c: ConnId)
    requires c in s.tasks
    ensures AllGrownBelow(s, DoCleanUp(s, c), 3)
  {
    var task := s.tasks[c];
    if task.session.Some? {
      var effect := DisconnectSession(s.members, task.session.value);
      PublishAllGrows(WithTask(s, c, task.(pc := Draining))
                        .(connections := s.connections - {task.session.value.userUid}, members := effect.members),
                      s.members, effect.sends, 3);
    }
  }
}
