/** The login conversation of every client with the server: it follows the protocol, and at rest it has been
    decided. */
module MeshLogins {
  import opened Protocol
  import opened Codec
  import opened Login
  import opened Payload
  import opened Identity
  import opened Handshake
  import opened Server
  import opened ServerProofs
  import opened ServerHistory
  import opened Guarantees
  import opened LifecycleGuarantees
  import opened LoginGuarantees
  import opened PeerTable
  import opened LogProofs
  import opened Mesh
  import opened MeshProofs
  import opened MeshGuarantees
  import opened Settling

  // ----- The conversation -----

  /** What the client answers to the challenge that this input is given. */
  function SignatureFor(node: Node, input: AuthInput): Option<string> {
    node.answer(Base64Encode(input.nonce), input.timestamp)
  }

  /** The challenge is on its way to the client, or the client has it to sign, or has given up, or its answer is on
      its way to the server. */
  predicate Answering(node: Node, input: AuthInput) {
    || (node.delivered == 0 && node.outbox == [] && node.app.pending == [])
    || (node.delivered == 1 && node.outbox == [] && node.app.pending == []
        && (node.closed || SignatureFor(node, input).None?))
    || (node.delivered == 1 && node.outbox == []
        && node.app.pending == [SignChallenge(Base64Encode(input.nonce), input.timestamp)])
    || (node.delivered == 1 && node.app.pending == [] && SignatureFor(node, input).Some?
        && node.outbox == [AuthResponse(SignatureFor(node, input).value)])
  }

  predicate IsAuthFrame(frame: ClientMessage) {
    frame.AuthIdentify? || frame.AuthResponse?
  }

  /** The answer has been read: the client has nothing more to say about its login, and until it is registered
      nothing at all. */
  predicate Answered(node: Node, task: Task) {
    && node.delivered >= 1
    && (forall f :: f in node.outbox ==> !IsAuthFrame(f))
    && (forall p :: p in node.app.pending ==> !p.SignChallenge?)
    && (task.session.None? ==> node.outbox == [] && node.app.pending == [] && (node.delivered >= 2 ==> node.closed))
  }

  /** A client identifies itself, answers the challenge at most once, and acts only when it has been welcomed. */
  predicate TalkOk(node: Node, task: Task) {
    && (node.app.welcomed ==> task.session.Some?)
    && match |task.heard|
       case 0 =>
         node.delivered == 0 && node.app.pending == [] && node.outbox == [AuthIdentify(PROTOCOL_VERSION, node.app.ident)]
       case 1 =>
         task.heard[0].message == AuthIdentify(PROTOCOL_VERSION, node.app.ident) && Answering(node, task.heard[0])
       case 2 =>
         && task.heard[0].message == AuthIdentify(PROTOCOL_VERSION, node.app.ident)
         && SignatureFor(node, task.heard[0]).Some?
         && task.heard[1].message == AuthResponse(SignatureFor(node, task.heard[0]).value)
         && Answered(node, task)
       case _ => false
  }

  ghost predicate AllTalksOk(m: Mesh) {
    forall c :: c in m.clients ==> c in m.server.tasks && TalkOk(m.clients[c], m.server.tasks[c])
  }

  // ----- What the stream of such a conversation can be -----

  lemma FirstReply(ed: Ed25519, heard: seq<AuthInput>)
    requires |heard| >= 1 && heard[0].message.AuthIdentify? && heard[0].message.protocolVersion == PROTOCOL_VERSION
    ensures StateAfter(ed, heard[..1]) == ChallengeIssued(ChallengeOf(heard[0]))
    ensures Replies(ed, heard)[0] == AuthChallenge(Base64Encode(heard[0].nonce), heard[0].timestamp)
  {
    assert heard[..1][..0] == [];
    RepliesAt(ed, heard, 0);
  }

  lemma SecondReply(ed: Ed25519, heard: seq<AuthInput>)
    requires |heard| == 2 && heard[0].message.AuthIdentify? && heard[0].message.protocolVersion == PROTOCOL_VERSION
    requires heard[1].message.AuthResponse?
    ensures Replies(ed, heard)[1].AuthSuccess? || Replies(ed, heard)[1].AuthFailure?
  {
    FirstReply(ed, heard);
    RepliesAt(ed, heard, 1);
  }

  lemma NothingHeard(ed: Ed25519, task: Task, stream: seq<ServerMessage>)
    requires HeardOk(ed, task, stream) && task.heard == []
    ensures stream == [] && task.session.None?
  {
  }

  lemma OnlyChallenged(ed: Ed25519, task: Task, stream: seq<ServerMessage>)
    requires HeardOk(ed, task, stream) && |task.heard| == 1
    requires task.heard[0].message.AuthIdentify? && task.heard[0].message.protocolVersion == PROTOCOL_VERSION
    ensures task.session.None? && |stream| <= 1
    ensures stream != [] ==> stream[0] == AuthChallenge(Base64Encode(task.heard[0].nonce), task.heard[0].timestamp)
  {
    FirstReply(ed, task.heard);
    assert |Replies(ed, task.heard)| == 1;
  }

  lemma AnsweredStream(task: Task, stream: seq<ServerMessage>, replies: seq<ServerMessage>)
    requires HeardAs(task, stream, replies) && |replies| == 2
    requires replies[1].AuthSuccess? || replies[1].AuthFailure?
    ensures task.session.None? && |stream| > 1 ==> |stream| == 2 && (stream[1].AuthSuccess? || stream[1].AuthFailure?)
    ensures task.session.Some? && |stream| > 1 ==> stream[1].AuthSuccess?
  {
  }

  lemma NoLaterChallenge(cfg: Config, s: State, c: ConnId, i: nat)
    requires Reachable(cfg, s) && c in s.streams && 1 < i < |s.streams[c]| && s.streams[c][1].AuthSuccess?
    ensures !s.streams[c][i].AuthChallenge?
  {
    StreamGrammar(cfg, s, c, i);
  }

  /** What the stream of an answered conversation holds after the challenge, from its replies alone. */
  lemma AnswerIsReplied(cfg: Config, s: State, c: ConnId)
    requires Reachable(cfg, s) && c in s.tasks && c in s.streams && |s.tasks[c].heard| == 2
    requires var first := s.tasks[c].heard[0].message; first.AuthIdentify? && first.protocolVersion == PROTOCOL_VERSION
    requires s.tasks[c].heard[1].message.AuthResponse? && |s.streams[c]| > 1
    ensures if s.tasks[c].session.Some? then s.streams[c][1].AuthSuccess?
            else |s.streams[c]| == 2 && (s.streams[c][1].AuthSuccess? || s.streams[c][1].AuthFailure?)
  {
    assert HeardAs(s.tasks[c], s.streams[c], Replies(cfg.ed, s.tasks[c].heard)) by {
      Invariants(cfg, s);
    }
    SecondReply(cfg.ed, s.tasks[c].heard);
    AnsweredStream(s.tasks[c], s.streams[c], Replies(cfg.ed, s.tasks[c].heard));
  }

  /** Once the answer is read the stream holds no further challenge, and without a session no more than a refusal. */
  lemma AfterTheAnswer(cfg: Config, s: State, c: ConnId)
    requires Reachable(cfg, s) && c in s.tasks && c in s.streams && |s.tasks[c].heard| == 2
    requires var first := s.tasks[c].heard[0].message; first.AuthIdentify? && first.protocolVersion == PROTOCOL_VERSION
    requires s.tasks[c].heard[1].message.AuthResponse?
    ensures forall i :: 1 <= i < |s.streams[c]| ==> !s.streams[c][i].AuthChallenge?
    ensures s.tasks[c].session.None? && |s.streams[c]| > 1 ==> |s.streams[c]| == 2 && s.streams[c][1].AuthFailure?
  {
    if |s.streams[c]| > 1 {
      AnswerIsReplied(cfg, s, c);
      if s.tasks[c].session.None? && s.streams[c][1].AuthSuccess? {
        WelcomedTask(cfg, s, c, 1);
      }
      forall i: nat | 1 < i < |s.streams[c]| ensures !s.streams[c][i].AuthChallenge? {
        NoLaterChallenge(cfg, s, c, i);
      }
    }
  }

  // ----- Every step keeps to the conversation -----

  lemma TalkingTask(cfg: Config, m: Mesh, c: ConnId)
    requires Reachable(cfg, m.server) && c in m.server.tasks
    ensures c in m.server.streams && HeardOk(cfg.ed, m.server.tasks[c], m.server.streams[c])
    ensures PcOk(m.server.tasks[c])
  {
    Invariants(cfg, m.server);
    assert TaskOk(cfg.permissions, m.server, c, m.server.tasks[c]);
  }

  lemma ChallengeIsHandled(node: Node, task: Task, message: ServerMessage)
    requires TalkOk(node, task) && |task.heard| == 1 && node.delivered == 0
    requires message == AuthChallenge(Base64Encode(task.heard[0].nonce), task.heard[0].timestamp)
    ensures TalkOk(Handled(node, message), task)
  {
  }

  lemma RestIsHandled(node: Node, task: Task, message: ServerMessage)
    requires TalkOk(node, task) && |task.heard| == 2 && !message.AuthChallenge?
    requires task.session.None? ==> message.AuthFailure?
    ensures TalkOk(Handled(node, message), task)
  {
  }

  lemma HandleKeepsTalk(cfg: Config, m: Mesh, c: ConnId)
    requires Reachable(cfg, m.server) && MeshEnabled(m, Handle(c)) && TalkOk(m.clients[c], m.server.tasks[c])
    ensures TalkOk(Handled(m.clients[c], m.server.streams[c][m.clients[c].delivered]), m.server.tasks[c])
  {
    var node, task, stream := m.clients[c], m.server.tasks[c], m.server.streams[c];
    assert HeardOk(cfg.ed, task, stream) by {
      TalkingTask(cfg, m, c);
    }
    if task.heard == [] {
      NothingHeard(cfg.ed, task, stream);
    } else if |task.heard| == 1 {
      OnlyChallenged(cfg.ed, task, stream);
      ChallengeIsHandled(node, task, stream[node.delivered]);
    } else {
      AfterTheAnswer(cfg, m.server, c);
      RestIsHandled(node, task, stream[node.delivered]);
    }
  }

  lemma ResumeKeepsTalk(node: Node, task: Task, i: nat, text: string, gathered: seq<Json>)
    requires TalkOk(node, task) && i < |node.app.pending| && Frame(node, node.app.pending[i], text).Some?
    ensures TalkOk(Resumed(node, i, Frame(node, node.app.pending[i], text).value, gathered), task)
  {
  }

  lemma DropKeepsTalk(node: Node, task: Task, i: nat)
    requires TalkOk(node, task) && i < |node.app.pending| && MayDrop(node, node.app.pending[i])
    ensures TalkOk(GivenUp(node, i), task)
  {
  }

  lemma ActKeepsTalk(ed: Ed25519, node: Node, task: Task, stream: seq<ServerMessage>, message: ClientMessage)
    requires TalkOk(node, task) && HeardOk(ed, task, stream) && MayAct(node.app, message)
    ensures TalkOk(Said(node, message), task)
  {
    if task.heard == [] {
      NothingHeard(ed, task, stream);
    } else if |task.heard| == 1 {
      OnlyChallenged(ed, task, stream);
    }
  }

  lemma CloseKeepsTalk(node: Node, task: Task)
    requires TalkOk(node, task)
    ensures TalkOk(Closed(node), task)
  {
  }

  /** Steps of the server that read nothing do not change what has been heard. */
  lemma InternalKeepsTalk(cfg: Config, s: State, step: Step, c: ConnId, node: Node)
    requires Enabled(s, step) && !step.Open? && !step.AuthMessage? && !step.RoomMessage?
    requires c in s.tasks && TalkOk(node, s.tasks[c])
    ensures c in Next(cfg, s, step).tasks && TalkOk(node, Next(cfg, s, step).tasks[c])
  {
    TasksAfter(cfg, s, step);
  }

  lemma OpenKeepsTalk(cfg: Config, s: State, c: ConnId, d: ConnId, node: Node)
    requires c !in s.tasks && d in s.tasks && TalkOk(node, s.tasks[d])
    ensures d in Next(cfg, s, Open(c)).tasks && TalkOk(node, Next(cfg, s, Open(c)).tasks[d])
  {
  }

  lemma IdentifyIsHeard(node: Node, task: Task, input: AuthInput)
    requires TalkOk(node, task) && task.heard == [] && task.session.None? && input.message == node.outbox[0]
    ensures forall after: Task :: after.heard == [input] && after.session == task.session ==>
      TalkOk(node.(outbox := node.outbox[1..]), after)
  {
  }

  lemma AnswerIsHeard(node: Node, task: Task, input: AuthInput)
    requires TalkOk(node, task) && |task.heard| == 1 && task.session.None?
    requires node.outbox != [] && input.message == node.outbox[0]
    ensures forall after: Task :: after.heard == task.heard + [input] && after.session == task.session ==>
      TalkOk(node.(outbox := node.outbox[1..]), after)
  {
  }

  /** Reading the next frame moves the conversation on. */
  lemma ReadKeepsTalk(cfg: Config, m: Mesh, c: ConnId, nonce: Bytes32, timestamp: U64, now: nat)
    requires Reachable(cfg, m.server) && MeshEnabled(m, Read(c, nonce, timestamp, now))
    requires TalkOk(m.clients[c], m.server.tasks[c])
    ensures var after := Next(cfg, m.server, ReadStep(m, c, nonce, timestamp, now));
            c in after.tasks && TalkOk(m.clients[c].(outbox := m.clients[c].outbox[1..]), after.tasks[c])
  {
    var node, task, step := m.clients[c], m.server.tasks[c], ReadStep(m, c, nonce, timestamp, now);
    TalkingTask(cfg, m, c);
    TasksAfter(cfg, m.server, step);
    if task.heard == [] {
      NothingHeard(cfg.ed, task, m.server.streams[c]);
      IdentifyIsHeard(node, task, step.input);
    } else if |task.heard| == 1 {
      OnlyChallenged(cfg.ed, task, m.server.streams[c]);
      AnswerIsHeard(node, task, step.input);
    }
  }

  lemma ReadKeepsOthers(cfg: Config, m: Mesh, c: ConnId, nonce: Bytes32, timestamp: U64, now: nat, d: ConnId)
    requires MeshEnabled(m, Read(c, nonce, timestamp, now)) && d in m.server.tasks && d != c
    ensures var after := Next(cfg, m.server, ReadStep(m, c, nonce, timestamp, now));
            d in after.tasks && after.tasks[d] == m.server.tasks[d]
  {
    if Enabled(m.server, ReadStep(m, c, nonce, timestamp, now)) {
      TasksAfter(cfg, m.server, ReadStep(m, c, nonce, timestamp, now));
    }
  }

  // ----- Any run -----

  lemma NodeStepKeepsTalks(m: Mesh, c: ConnId, node: Node)
    requires AllTalksOk(m) && c in m.clients && TalkOk(node, m.server.tasks[c])
    ensures AllTalksOk(WithNode(m, c, node))
  {
  }

  lemma ClientKeepsTalks(cfg: Config, m: Mesh, step: MeshStep)
    requires Reachable(cfg, m.server) && AllTalksOk(m) && MeshEnabled(m, step)
    requires !step.Connect? && !step.Read? && !step.Internal?
    ensures AllTalksOk(MeshNext(cfg, m, step))
  {
    match step
    case Handle(c) =>
      HandleKeepsTalk(cfg, m, c);
      NodeStepKeepsTalks(m, c, Handled(m.clients[c], m.server.streams[c][m.clients[c].delivered]));
    case Resume(c, i, text, gathered) =>
      var frame := Frame(m.clients[c], m.clients[c].app.pending[i], text).value;
      ResumeKeepsTalk(m.clients[c], m.server.tasks[c], i, text, gathered);
      NodeStepKeepsTalks(m, c, Resumed(m.clients[c], i, frame, gathered));
    case Drop(c, i) =>
      DropKeepsTalk(m.clients[c], m.server.tasks[c], i);
      NodeStepKeepsTalks(m, c, GivenUp(m.clients[c], i));
    case Act(c, message) =>
      TalkingTask(cfg, m, c);
      ActKeepsTalk(cfg.ed, m.clients[c], m.server.tasks[c], m.server.streams[c], message);
      NodeStepKeepsTalks(m, c, Said(m.clients[c], message));
    case Disconnect(c) =>
      CloseKeepsTalk(m.clients[c], m.server.tasks[c]);
      NodeStepKeepsTalks(m, c, Closed(m.clients[c]));
    case _ =>
  }

  lemma ConnectKeepsTalks(cfg: Config, m: Mesh, c: ConnId, ident: UserUid, answer: (string, U64) -> Option<string>)
    requires AllTalksOk(m) && c !in m.clients && c !in m.server.tasks
    ensures AllTalksOk(Mesh(Next(cfg, m.server, Open(c)), m.clients[c := Newcomer(ident, answer)]))
  {
    forall d | d in m.clients ensures d in Next(cfg, m.server, Open(c)).tasks
      ensures TalkOk(m.clients[d], Next(cfg, m.server, Open(c)).tasks[d])
    {
      OpenKeepsTalk(cfg, m.server, c, d, m.clients[d]);
    }
  }

  lemma ReadKeepsTalks(cfg: Config, m: Mesh, c: ConnId, nonce: Bytes32, timestamp: U64, now: nat)
    requires Reachable(cfg, m.server) && AllTalksOk(m) && MeshEnabled(m, Read(c, nonce, timestamp, now))
    ensures AllTalksOk(Mesh(Next(cfg, m.server, ReadStep(m, c, nonce, timestamp, now)),
                            m.clients[c := m.clients[c].(outbox := m.clients[c].outbox[1..])]))
  {
    var after := Next(cfg, m.server, ReadStep(m, c, nonce, timestamp, now));
    var clients := m.clients[c := m.clients[c].(outbox := m.clients[c].outbox[1..])];
    forall d | d in clients ensures d in after.tasks && TalkOk(clients[d], after.tasks[d]) {
      if d == c {
        ReadKeepsTalk(cfg, m, c, nonce, timestamp, now);
      } else {
        assert clients[d] == m.clients[d] && TalkOk(m.clients[d], m.server.tasks[d]);
        ReadKeepsOthers(cfg, m, c, nonce, timestamp, now, d);
      }
    }
  }

  lemma MeshNextKeepsTalks(cfg: Config, m: Mesh, step: MeshStep)
    requires Reachable(cfg, m.server) && AllTalksOk(m)
    ensures AllTalksOk(MeshNext(cfg, m, step))
  {
    if MeshEnabled(m, step) {
      match step
      case Connect(c, ident, answer) => ConnectKeepsTalks(cfg, m, c, ident, answer);
      case Read(c, nonce, timestamp, now) => ReadKeepsTalks(cfg, m, c, nonce, timestamp, now);
      case Internal(s) =>
        if Enabled(m.server, s) {
          forall c | c in m.clients
            ensures c in Next(cfg, m.server, s).tasks && TalkOk(m.clients[c], Next(cfg, m.server, s).tasks[c])
          {
            InternalKeepsTalk(cfg, m.server, s, c, m.clients[c]);
          }
        }
      case _ => ClientKeepsTalks(cfg, m, step);
    }
  }

  /** In every run of server and clients, every login conversation keeps to the protocol. */
  lemma {:induction false} RunsKeepTalks(cfg: Config, steps: seq<MeshStep>)
    ensures AllTalksOk(MeshExec(cfg, steps))
    decreases |steps|
  {
    if steps != [] {
      RunsKeepTalks(cfg, steps[..|steps| - 1]);
      RunsKeepMesh(cfg, steps[..|steps| - 1]);
      MeshNextKeepsTalks(cfg, MeshExec(cfg, steps[..|steps| - 1]), steps[|steps| - 1]);
    }
  }

  lemma {:induction false} AfterKeepsTalks(cfg: Config, m: Mesh, schedule: nat -> MeshStep, n: nat)
    requires MeshOk(cfg, m) && AllTalksOk(m)
    ensures AllTalksOk(After(cfg, m, schedule, n))
  {
    if n > 0 {
      AfterKeepsTalks(cfg, m, schedule, n - 1);
      AfterKeepsMesh(cfg, m, schedule, n - 1);
      MeshNextKeepsTalks(cfg, After(cfg, m, schedule, n - 1), schedule(n - 1));
    }
  }

  // ----- What becomes of it -----

  /** The client signs with the key of its identity, and sees every timestamp below 2^53 as it was sent. */
  ghost predicate Signs(ed: Ed25519, seed: Bytes32, node: Node) {
    && SignsCorrectly(ed, seed) && node.app.ident == UserUid(ed.publicKey(seed))
    && forall nonce, t: U64 :: t < 0x20_0000_0000_0000 ==>
         SignWithSeed(ed, seed, PROTOCOL_VERSION, nonce, t).Ok? ==>
           node.answer(nonce, t) == Some(SignWithSeed(ed, seed, PROTOCOL_VERSION, nonce, t).value)
  }

  /** The answer was read before the challenge expired. */
  predicate InTime(heard: seq<AuthInput>) {
    |heard| >= 2 && heard[1].now <= heard[0].now + 5_000_000_000
  }

  /** A signed answer to a challenge opens a session. */
  lemma HandshakeIsGranted(ed: Ed25519, seed: Bytes32, first: AuthInput, second: AuthInput)
    requires SignsCorrectly(ed, seed) && first.message == AuthIdentify(PROTOCOL_VERSION, UserUid(ed.publicKey(seed)))
    requires second.now <= first.now + 5_000_000_000
    ensures var signature := SignWithSeed(ed, seed, PROTOCOL_VERSION, Base64Encode(first.nonce), first.timestamp);
            && signature.Ok?
            && (second.message == AuthResponse(signature.value) ==>
                  var turned := Turn(ed, ChallengeIssued(ChallengeOf(first)), second);
                  turned.session.Some? && turned.session.value.userUid == UserUid(ed.publicKey(seed)))
  {
    DecodeOfEncode(first.nonce);
    var claims := ChallengeOf(first).claims;
    VerifiesExactly(ed, claims, ed.sign(seed, AuthSignaturePayload(claims)));
  }

  /** In every run, a client that signs with its own key and is read in time is granted its own identity. */
  lemma SignedAnswersAreGranted(cfg: Config, node: Node, task: Task, seed: Bytes32)
    requires TalkOk(node, task) && InTime(task.heard) && Signs(cfg.ed, seed, node)
    requires task.heard[0].timestamp < 0x20_0000_0000_0000
    ensures GrantedSession(cfg.ed, task.heard).Some? && GrantedSession(cfg.ed, task.heard).value.userUid == node.app.ident
  {
    var first, second := task.heard[0], task.heard[1];
    FirstReply(cfg.ed, task.heard);
    HandshakeIsGranted(cfg.ed, seed, first, second);
    assert task.heard[..1] == [first];
  }

  /** The client is the one the server has connected under its identity. */
  predicate IsConnected(m: Mesh, c: ConnId)
    requires c in m.clients
  {
    var ident := m.clients[c].app.ident;
    ident in m.server.connections && m.server.connections[ident] == c
  }

  /** The client was challenged and could not sign. */
  predicate GaveUp(node: Node, task: Task) {
    && |task.heard| == 1 && node.delivered == 1 && node.app.pending == [] && node.outbox == []
    && SignatureFor(node, task.heard[0]).None?
  }

  /** A decided login: the connection has ended, or it stands and its client is connected or gave up signing; and a
      client that signs and is read in time has been registered, and is connected unless it has left since, or was
      refused because another connection had its identity. */
  ghost predicate LoginDecided(ed: Ed25519, m: Mesh, c: ConnId)
    requires c in m.clients && c in m.server.tasks
  {
    var node, task := m.clients[c], m.server.tasks[c];
    && (task.pc.Done? || (task.pc.Reading? && !node.closed && (IsConnected(m, c) || GaveUp(node, task))))
    && (task.pc.Reading? && IsConnected(m, c) ==> node.app.welcomed && |task.heard| == 2)
    && (forall seed :: Signs(ed, seed, node) && InTime(task.heard) && task.heard[0].timestamp < 0x20_0000_0000_0000 ==>
          || (RegisteredAs(task, node.app.ident) && (task.pc.Done? || IsConnected(m, c)))
          || TurnedAway(ed, m.server, c, node.app.ident))
  }

  /** The table lists a registered task that is still reading. */
  lemma RegisteredIsConnected(cfg: Config, m: Mesh, c: ConnId)
    requires MeshOk(cfg, m) && c in m.clients && c in m.server.tasks
    requires m.server.tasks[c].pc.Reading? && m.server.tasks[c].session.Some?
    ensures IsConnected(m, c)
  {
    assert TableOk(m.server) && IsLive(m.server.tasks[c]) by {
      Invariants(cfg, m.server);
      assert TaskOk(cfg.permissions, m.server, c, m.server.tasks[c]);
    }
    assert TaskFits(m.server.tasks[c], IdentsOf(m.clients)[c]);
  }

  /** Where nothing is left to do, the client of a reading task has nothing unhandled, unsigned or unread. */
  lemma StuckTalker(cfg: Config, m: Mesh, c: ConnId)
    requires MeshOk(cfg, m) && Stuck(m) && c in m.clients && c in m.server.tasks && m.server.tasks[c].pc.Reading?
    ensures c in m.server.streams && m.clients[c].delivered == |m.server.streams[c]|
    ensures !m.clients[c].closed && m.clients[c].outbox == []
    ensures m.clients[c].app.pending == []
  {
    InBounds(cfg, m, c);
    assert WriterOk(m.server.tasks[c], m.server.streams[c]) by {
      Invariants(cfg, m.server);
    }
    StuckReader(m, c);
    StuckClient(m, c);
  }

  /** A reading task without a session, at rest, is one whose client gave up. */
  lemma StuckWithoutSession(ed: Ed25519, node: Node, task: Task, stream: seq<ServerMessage>)
    requires TalkOk(node, task) && HeardOk(ed, task, stream) && task.pc.Reading? && task.session.None?
    requires node.delivered == |stream| && !node.closed && node.outbox == []
    requires node.app.pending == []
    ensures GaveUp(node, task)
  {
    assert |stream| == |task.heard|;
  }

  lemma RegisteredHasAnswered(ed: Ed25519, node: Node, task: Task, stream: seq<ServerMessage>)
    requires TalkOk(node, task) && HeardOk(ed, task, stream) && task.pc.Reading? && task.session.Some?
    ensures |task.heard| == 2
    ensures exists i :: 0 <= i < |stream| && stream[i].AuthSuccess?
  {
    if task.heard == [] {
      NothingHeard(ed, task, stream);
    } else if |task.heard| == 1 {
      OnlyChallenged(ed, task, stream);
    }
    assert stream[|Replies(ed, task.heard)| - 1].AuthSuccess?;
  }

  /** A client that has handled a stream with a welcome in it is welcomed. */
  lemma HandledWelcome(cfg: Config, m: Mesh, c: ConnId)
    requires MeshOk(cfg, m) && c in m.clients && c in m.server.streams && !m.clients[c].closed
    requires m.clients[c].delivered == |m.server.streams[c]|
    requires exists i :: 0 <= i < |m.server.streams[c]| && m.server.streams[c][i].AuthSuccess?
    ensures m.clients[c].app.welcomed
  {
    var history := History(m.server, c);
    StreamIsLegal(cfg, m.server, c);
    assert NodeOk(m.server, c, m.clients[c]);
    assert history[..m.clients[c].delivered] == history;
    ReplayReadsMe(history);
    MeFromSuccess(m.server.streams[c]);
  }

  lemma StandingLoginIsDecided(cfg: Config, m: Mesh, c: ConnId)
    requires MeshOk(cfg, m) && AllTalksOk(m) && Stuck(m) && c in m.clients && c in m.server.tasks
    requires m.server.tasks[c].pc.Reading?
    ensures !m.clients[c].closed
    ensures if m.server.tasks[c].session.Some?
            then IsConnected(m, c) && m.clients[c].app.welcomed && |m.server.tasks[c].heard| == 2
            else GaveUp(m.clients[c], m.server.tasks[c])
  {
    StuckTalker(cfg, m, c);
    assert HeardOk(cfg.ed, m.server.tasks[c], m.server.streams[c]) by {
      TalkingTask(cfg, m, c);
    }
    if m.server.tasks[c].session.Some? {
      RegisteredIsConnected(cfg, m, c);
      RegisteredHasAnswered(cfg.ed, m.clients[c], m.server.tasks[c], m.server.streams[c]);
      HandledWelcome(cfg, m, c);
    } else {
      StuckWithoutSession(cfg.ed, m.clients[c], m.server.tasks[c], m.server.streams[c]);
    }
  }

  /** Only registered tasks are in the table. */
  lemma ConnectedHasSession(cfg: Config, m: Mesh, c: ConnId)
    requires MeshOk(cfg, m) && c in m.clients && c in m.server.tasks && IsConnected(m, c)
    ensures m.server.tasks[c].session.Some?
  {
    Invariants(cfg, m.server);
  }

  lemma SignedLoginIsDecided(cfg: Config, m: Mesh, c: ConnId, seed: Bytes32)
    requires MeshOk(cfg, m) && AllTalksOk(m) && c in m.clients && c in m.server.tasks
    requires var task := m.server.tasks[c];
             && !task.pc.AwaitingLock? && Signs(cfg.ed, seed, m.clients[c])
             && InTime(task.heard) && task.heard[0].timestamp < 0x20_0000_0000_0000
    ensures RegisteredAs(m.server.tasks[c], m.clients[c].app.ident)
            || TurnedAway(cfg.ed, m.server, c, m.clients[c].app.ident)
  {
    SignedAnswersAreGranted(cfg, m.clients[c], m.server.tasks[c], seed);
    AcceptedLoginsAreSettled(cfg, m.server, c);
  }

  lemma StuckLoginIsDecided(cfg: Config, m: Mesh, c: ConnId)
    requires MeshOk(cfg, m) && AllTalksOk(m) && Stuck(m) && c in m.clients && c in m.server.tasks
    ensures LoginDecided(cfg.ed, m, c)
  {
    var node, task := m.clients[c], m.server.tasks[c];
    StuckPc(m, c);
    if task.pc.Draining? {
      StuckIsDrained(cfg, m, c);
    } else if task.pc.Reading? {
      StandingLoginIsDecided(cfg, m, c);
      if IsConnected(m, c) {
        ConnectedHasSession(cfg, m, c);
      }
    }
    forall seed | Signs(cfg.ed, seed, node) && InTime(task.heard) && task.heard[0].timestamp < 0x20_0000_0000_0000
      ensures RegisteredAs(task, node.app.ident) || TurnedAway(cfg.ed, m.server, c, node.app.ident)
    {
      SignedLoginIsDecided(cfg, m, c, seed);
    }
  }

  /** At rest, a client whose connection stands and that can sign its challenge has answered it and is connected. */
  lemma SignersAreConnected(cfg: Config, m: Mesh, c: ConnId)
    requires MeshOk(cfg, m) && AllTalksOk(m) && Stuck(m) && c in m.clients && c in m.server.tasks
    requires m.server.tasks[c].pc.Reading?
    ensures var heard := m.server.tasks[c].heard;
            && heard != []
            && (SignatureFor(m.clients[c], heard[0]).Some? ==>
                  |heard| == 2 && IsConnected(m, c) && m.clients[c].app.welcomed)
  {
    StandingLoginIsDecided(cfg, m, c);
  }

  /** Once no user acts, connects or disconnects any more, all logins are decided after finitely many steps, along
      with everything else that is on its way. */
  lemma WorkSettlesLogins(cfg: Config, steps: seq<MeshStep>, schedule: nat -> MeshStep)
    requires Diligent(cfg, MeshExec(cfg, steps), schedule)
    ensures exists n: nat ::
              var m := After(cfg, MeshExec(cfg, steps), schedule, n);
              && Stuck(m) && Settled(cfg.permissions, m)
              && forall c :: c in m.clients ==> c in m.server.tasks && LoginDecided(cfg.ed, m, c)
  {
    var start := MeshExec(cfg, steps);
    WorkSettlesIntoFullMeshes(cfg, steps, schedule);
    var n: nat :| Stuck(After(cfg, start, schedule, n)) && Settled(cfg.permissions, After(cfg, start, schedule, n));
    var m := After(cfg, start, schedule, n);
    assert MeshOk(cfg, m) && AllTalksOk(m) by {
      RunsKeepMesh(cfg, steps);
      RunsKeepTalks(cfg, steps);
      AfterKeepsMesh(cfg, start, schedule, n);
      AfterKeepsTalks(cfg, start, schedule, n);
    }
    forall c | c in m.clients ensures c in m.server.tasks && LoginDecided(cfg.ed, m, c) {
      StuckLoginIsDecided(cfg, m, c);
    }
  }
}
