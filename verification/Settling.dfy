/** Once no user brings in anything new, the work runs out; rooms are then as full a mesh as their
    members' power to signal allows, and connections that have ended are drained. */
module Settling {
  import opened Protocol
  import opened Rooms
  import opened Replay
  import opened Login
  import opened Server
  import opened ServerProofs
  import opened ServerHistory
  import opened Guarantees
  import opened LifecycleGuarantees
  import opened Mesh
  import opened MeshProofs
  import opened MeshGuarantees
  import opened Work

  // ----- What a step makes of its own task -----

  lemma TaskStepLowers(cfg: Config, s: State, step: Step, r: nat)
    requires Enabled(s, step) && !step.Open? && !step.AuthMessage? && !step.RoomMessage? && PcOk(s.tasks[step.c])
    requires r >= TaskStepRank(s, step)
    ensures TaskLoad(TaskAfter(cfg, s, step), r) <= TaskLoad(s.tasks[step.c], r)
    ensures r == TaskStepRank(s, step) && !(step.WriteNext? && step.succeeds) ==>
      TaskLoad(TaskAfter(cfg, s, step), r) < TaskLoad(s.tasks[step.c], r)
  {
  }

  lemma TurnIsBelow(ed: Ed25519, state: AuthenticationState, input: AuthInput)
    requires !state.Authenticated?
    ensures var turned := Turn(ed, state, input);
            if turned.session.Some? then FrameRank(input.message) > 4
            else MessageRank(turned.reply) + 1 < FrameRank(input.message)
  {
  }

  lemma ReadTaskLowers(cfg: Config, s: State, step: Step, r: nat)
    requires Enabled(s, step) && (step.AuthMessage? || step.RoomMessage?)
    requires !s.tasks[step.c].authentication.Authenticated?
    requires r >= FrameRank(if step.AuthMessage? then step.input.message else step.message)
    ensures TaskLoad(TaskAfter(cfg, s, step), r) <= TaskLoad(s.tasks[step.c], r)
  {
    if step.AuthMessage? {
      TurnIsBelow(cfg.ed, s.tasks[step.c].authentication, step.input);
    }
  }

  // ----- What it makes of the streams -----

  function SendRank(s: State, step: Step): nat
    requires Enabled(s, step)
  {
    match step
    case AuthMessage(_, input) => FrameRank(input.message)
    case RoomMessage(_, message, _) => FrameRank(message)
    case _ => TaskStepRank(s, step)
  }

  lemma StepGrows(cfg: Config, s: State, step: Step)
    requires Enabled(s, step) && !step.Open?
    ensures AllGrownBelow(s, Next(cfg, s, step), SendRank(s, step))
    ensures SendRank(s, step) <= 1 ==> Next(cfg, s, step).streams == s.streams
  {
    match step
    case RoomMessage(c, message, timestamp) => RoomMessageGrows(cfg, s, c, message, timestamp);
    case CleanUp(c) => CleanUpGrows(s, c);
    case _ =>
  }

  /** A step of the server adds nothing of its rank or above to any connection's load. */
  lemma OtherLoad(cfg: Config, s: State, step: Step, d: ConnId, node: Node, r: nat)
    requires Enabled(s, step) && !step.Open? && r >= SendRank(s, step)
    requires d in s.tasks && d in s.streams && d != step.c && node.delivered <= |s.streams[d]|
    ensures d in Next(cfg, s, step).tasks && d in Next(cfg, s, step).streams
    ensures Load(Next(cfg, s, step).tasks[d], Next(cfg, s, step).streams[d], node, r)
         == Load(s.tasks[d], s.streams[d], node, r)
  {
    StepGrows(cfg, s, step);
    TasksAfter(cfg, s, step);
    GrownLoad(s.tasks[d], s.streams[d], Next(cfg, s, step).streams[d], node, SendRank(s, step), r);
  }

  lemma OwnLoad(cfg: Config, s: State, step: Step, node: Node, r: nat)
    requires Enabled(s, step) && !step.Open? && r >= SendRank(s, step)
    requires step.c in s.streams && node.delivered <= |s.streams[step.c]|
    ensures step.c in Next(cfg, s, step).tasks && step.c in Next(cfg, s, step).streams
    ensures Load(Next(cfg, s, step).tasks[step.c], Next(cfg, s, step).streams[step.c], node, r)
         == Load(TaskAfter(cfg, s, step), s.streams[step.c], node, r)
  {
    StepGrows(cfg, s, step);
    TasksAfter(cfg, s, step);
    GrownLoad(TaskAfter(cfg, s, step), s.streams[step.c], Next(cfg, s, step).streams[step.c], node, SendRank(s, step), r);
  }

  // ----- What it makes of the whole mesh -----

  /** Less of rank `r` at one connection, and nowhere more of that rank or above. */
  ghost predicate Lowers(m: Mesh, after: Mesh, c: ConnId, r: nat) {
    && after.clients.Keys == m.clients.Keys && c in m.clients
    && LoadOf(after, c, r) < LoadOf(m, c, r)
    && forall d, r' :: d in m.clients && r' >= r ==> LoadOf(after, d, r') <= LoadOf(m, d, r')
  }

  lemma TotalLowers(m: Mesh, after: Mesh, c: ConnId, r: nat, r': nat)
    requires Lowers(m, after, c, r) && r' >= r
    ensures Total(after, r') <= Total(m, r')
    ensures r' == r ==> Total(after, r') < Total(m, r')
  {
    SumNotAbove(Loads(m, r'), Loads(after, r'), m.clients.Keys);
    assert Loads(m, r')(c) == LoadOf(m, c, r') && Loads(after, r')(c) == LoadOf(after, c, r');
  }

  lemma InBounds(cfg: Config, m: Mesh, c: ConnId)
    requires MeshOk(cfg, m) && c in m.clients
    ensures c in m.server.tasks && c in m.server.streams
    ensures m.clients[c].delivered <= |m.server.streams[c]| && m.server.tasks[c].written <= |m.server.streams[c]|
    ensures PcOk(m.server.tasks[c]) && !m.server.tasks[c].authentication.Authenticated?
  {
    assert WriterOk(m.server.tasks[c], m.server.streams[c]) && TaskOk(cfg.permissions, m.server, c, m.server.tasks[c])
           && c in m.server.streams && m.server.streams[c] == Messages(History(m.server, c)) by {
      Invariants(cfg, m.server);
      assert TaskOk(cfg.permissions, m.server, c, m.server.tasks[c]);
    }
    assert NodeOk(m.server, c, m.clients[c]);
  }

  /** Less of rank `r` at one connection, and not more of any rank above. */
  ghost predicate LoadFalls(task: Task, task': Task, stream: seq<ServerMessage>, node: Node, node': Node, r: nat) {
    && Load(task', stream, node', r) < Load(task, stream, node, r)
    && forall r' :: r' >= r ==> Load(task', stream, node', r') <= Load(task, stream, node, r')
  }

  /** A client's step changes its own load only. */
  lemma ClientStepLowers(m: Mesh, c: ConnId, node: Node, r: nat)
    requires c in m.clients && c in m.server.tasks && c in m.server.streams
    requires LoadFalls(m.server.tasks[c], m.server.tasks[c], m.server.streams[c], m.clients[c], node, r)
    ensures Lowers(m, WithNode(m, c, node), c, r)
  {
  }

  lemma HandleLowers(m: Mesh, c: ConnId)
    requires MeshEnabled(m, Handle(c))
    ensures Lowers(m, WithNode(m, c, Handled(m.clients[c], m.server.streams[c][m.clients[c].delivered])), c,
                   StepRank(m, Handle(c)))
  {
    var node, stream := m.clients[c], m.server.streams[c];
    forall r | r >= MessageRank(stream[node.delivered]) {
      HandleLowersNode(node, stream, m.server.tasks[c], r);
    }
    ClientStepLowers(m, c, Handled(node, stream[node.delivered]), MessageRank(stream[node.delivered]));
  }

  lemma ResumeLowers(m: Mesh, c: ConnId, i: nat, text: string, gathered: seq<Json>)
    requires MeshEnabled(m, Resume(c, i, text, gathered)) && c in m.server.tasks && c in m.server.streams
    ensures Lowers(m, WithNode(m, c, Resumed(m.clients[c], i, Frame(m.clients[c], m.clients[c].app.pending[i], text).value, gathered)),
                   c, StepRank(m, Resume(c, i, text, gathered)))
  {
    var node := m.clients[c];
    var rank := PendingRank(node.app.pending[i]);
    forall r | r >= rank {
      ResumeLowersNode(node, m.server.streams[c], m.server.tasks[c], i, text, gathered, r);
    }
    ClientStepLowers(m, c, Resumed(node, i, Frame(node, node.app.pending[i], text).value, gathered), rank);
  }

  lemma DropLowers(m: Mesh, c: ConnId, i: nat)
    requires MeshEnabled(m, Drop(c, i)) && c in m.server.tasks && c in m.server.streams
    ensures Lowers(m, WithNode(m, c, GivenUp(m.clients[c], i)),
                   c, StepRank(m, Drop(c, i)))
  {
    var node := m.clients[c];
    var rank := PendingRank(node.app.pending[i]);
    forall r | r >= rank {
      DropLowersNode(node, m.server.streams[c], m.server.tasks[c], i, r);
    }
    ClientStepLowers(m, c, GivenUp(node, i), rank);
  }

  // ----- Server steps -----

  ghost predicate AllInBounds(m: Mesh) {
    forall c :: c in m.clients ==>
      && c in m.server.tasks && c in m.server.streams
      && m.clients[c].delivered <= |m.server.streams[c]| && m.server.tasks[c].written <= |m.server.streams[c]|
      && PcOk(m.server.tasks[c]) && !m.server.tasks[c].authentication.Authenticated?
  }

  /** A step of the server changes its own connection's load as its task changes; other loads do not rise. */
  lemma ServerStepLowers(cfg: Config, m: Mesh, step: Step, node: Node, r: nat)
    requires AllInBounds(m) && Enabled(m.server, step) && !step.Open? && step.c in m.clients
    requires r >= SendRank(m.server, step) && node.delivered == m.clients[step.c].delivered
    requires LoadFalls(m.server.tasks[step.c], TaskAfter(cfg, m.server, step), m.server.streams[step.c],
                       m.clients[step.c], node, r)
    ensures Lowers(m, Mesh(Next(cfg, m.server, step), m.clients[step.c := node]), step.c, r)
  {
    var after := Mesh(Next(cfg, m.server, step), m.clients[step.c := node]);
    forall d, r' | d in m.clients && r' >= r
      ensures LoadOf(after, d, r') <= LoadOf(m, d, r')
      ensures d == step.c && r' == r ==> LoadOf(after, d, r') < LoadOf(m, d, r')
    {
      if d == step.c {
        OwnLoad(cfg, m.server, step, node, r');
      } else {
        OtherLoad(cfg, m.server, step, d, m.clients[d], r');
      }
    }
  }

  lemma InternalLowers(cfg: Config, m: Mesh, step: Step)
    requires AllInBounds(m) && Works(m, Internal(step)) && step.c in m.clients
    ensures Lowers(m, m.(server := Next(cfg, m.server, step)), step.c, TaskStepRank(m.server, step))
  {
    var c, r := step.c, TaskStepRank(m.server, step);
    var task, after := m.server.tasks[c], TaskAfter(cfg, m.server, step);
    TaskStepLowers(cfg, m.server, step, r);
    forall r' | r' >= r
      ensures Load(after, m.server.streams[c], m.clients[c], r') <= Load(task, m.server.streams[c], m.clients[c], r')
    {
      TaskStepLowers(cfg, m.server, step, r');
    }
    ServerStepLowers(cfg, m, step, m.clients[c], r);
    assert m.clients[c := m.clients[c]] == m.clients;
  }

  lemma ReadLowers(cfg: Config, m: Mesh, c: ConnId, nonce: Bytes32, timestamp: U64, now: nat)
    requires AllInBounds(m) && MeshEnabled(m, Read(c, nonce, timestamp, now))
    ensures Lowers(m, Mesh(Next(cfg, m.server, ReadStep(m, c, nonce, timestamp, now)),
                           m.clients[c := m.clients[c].(outbox := m.clients[c].outbox[1..])]),
                   c, FrameRank(m.clients[c].outbox[0]))
  {
    var step := ReadStep(m, c, nonce, timestamp, now);
    var node := m.clients[c].(outbox := m.clients[c].outbox[1..]);
    var r := FrameRank(m.clients[c].outbox[0]);
    ReadTaskLowers(cfg, m.server, step, r);
    TallyFirst(m.clients[c].outbox, FrameRank, r);
    forall r' | r' >= r
      ensures Load(TaskAfter(cfg, m.server, step), m.server.streams[c], node, r')
           <= Load(m.server.tasks[c], m.server.streams[c], m.clients[c], r')
    {
      ReadTaskLowers(cfg, m.server, step, r');
      TallyFirst(m.clients[c].outbox, FrameRank, r');
    }
    ServerStepLowers(cfg, m, step, node, r);
  }

  /** Every step of work takes something of its rank away and brings nothing of that rank or above. */
  lemma WorkLowers(cfg: Config, m: Mesh, step: MeshStep)
    requires MeshOk(cfg, m) && Works(m, step)
    ensures Lowers(m, MeshNext(cfg, m, step), StepConnection(m, step), StepRank(m, step))
  {
    forall c | c in m.clients {
      InBounds(cfg, m, c);
    }
    assert AllInBounds(m);
    match step
    case Handle(c) => HandleLowers(m, c);
    case Resume(c, i, text, gathered) => ResumeLowers(m, c, i, text, gathered);
    case Drop(c, i) => DropLowers(m, c, i);
    case Read(c, nonce, timestamp, now) => ReadLowers(cfg, m, c, nonce, timestamp, now);
    case Internal(s) => InternalLowers(cfg, m, s);
    case _ =>
  }

  // ----- The work runs out -----

  /** The mesh after the first `n` steps of a schedule. */
  function After(cfg: Config, m: Mesh, schedule: nat -> MeshStep, n: nat): Mesh {
    if n == 0 then m else MeshNext(cfg, After(cfg, m, schedule, n - 1), schedule(n - 1))
  }

  /** Nothing is due. */
  ghost predicate Stuck(m: Mesh) {
    forall step :: !Due(m, step)
  }

  /** As long as something is due, the schedule does some work, due or not, in whatever order. */
  ghost predicate Diligent(cfg: Config, m: Mesh, schedule: nat -> MeshStep) {
    forall n: nat :: Stuck(After(cfg, m, schedule, n)) || Works(After(cfg, m, schedule, n), schedule(n))
  }

  lemma {:induction false} AfterKeepsMesh(cfg: Config, m: Mesh, schedule: nat -> MeshStep, n: nat)
    requires MeshOk(cfg, m)
    ensures MeshOk(cfg, After(cfg, m, schedule, n))
  {
    if n > 0 {
      AfterKeepsMesh(cfg, m, schedule, n - 1);
      MeshNextKeepsMesh(cfg, After(cfg, m, schedule, n - 1), schedule(n - 1));
    }
  }

  lemma WorkIsDone(cfg: Config, m: Mesh, step: MeshStep)
    requires MeshOk(cfg, m) && Works(m, step)
    ensures Total(MeshNext(cfg, m, step), StepRank(m, step)) < Total(m, StepRank(m, step))
    ensures forall r' :: r' >= StepRank(m, step) ==> Total(MeshNext(cfg, m, step), r') <= Total(m, r')
  {
    var next, c, r := MeshNext(cfg, m, step), StepConnection(m, step), StepRank(m, step);
    assert Lowers(m, next, c, r) by {
      WorkLowers(cfg, m, step);
    }
    forall r' | r' >= r ensures Total(next, r') <= Total(m, r') {
      TotalLowers(m, next, c, r, r');
    }
    TotalLowers(m, next, c, r, r);
  }

  /** A step of the schedule leaves less of some rank, and not more of any above. */
  lemma WorkStep(cfg: Config, m: Mesh, schedule: nat -> MeshStep, k: nat) returns (r: nat)
    requires MeshOk(cfg, m) && Diligent(cfg, m, schedule)
    requires !Stuck(After(cfg, m, schedule, k))
    ensures r <= 11 && Total(After(cfg, m, schedule, k + 1), r) < Total(After(cfg, m, schedule, k), r)
    ensures forall r' :: r' >= r ==> Total(After(cfg, m, schedule, k + 1), r') <= Total(After(cfg, m, schedule, k), r')
  {
    var now, step := After(cfg, m, schedule, k), schedule(k);
    AfterKeepsMesh(cfg, m, schedule, k);
    r := StepRank(now, step);
    WorkIsDone(cfg, now, step);
  }

  /** From `k` to `k + 1` there is less of rank `r`, and not more of any above. */
  ghost predicate Falls(left: (nat, nat) -> nat, k: nat, r: nat) {
    r <= 11 && left(k + 1, r) < left(k, r) && forall r' :: r' >= r ==> left(k + 1, r') <= left(k, r')
  }

  /** What falls lexicographically, rank by rank, falls only finitely often. */
  lemma {:induction false} FallingEnds(left: (nat, nat) -> nat, done: nat -> bool, k: nat)
    requires forall n: nat :: done(n) || exists r: nat :: Falls(left, n, r)
    ensures exists n: nat :: done(n)
    decreases left(k, 11), left(k, 10), left(k, 9), left(k, 8), left(k, 7), left(k, 6), left(k, 5),
              left(k, 4), left(k, 3), left(k, 2), left(k, 1), left(k, 0)
  {
    if !done(k) {
      var r: nat :| Falls(left, k, r);
      FallingEnds(left, done, k + 1);
    }
  }

  lemma WorkEnds(cfg: Config, m: Mesh, schedule: nat -> MeshStep)
    requires MeshOk(cfg, m) && Diligent(cfg, m, schedule)
    ensures exists n: nat :: Stuck(After(cfg, m, schedule, n))
  {
    var left := (k: nat, r: nat) => Total(After(cfg, m, schedule, k), r);
    var done := (k: nat) => Stuck(After(cfg, m, schedule, k));
    forall n: nat ensures done(n) || exists r: nat :: Falls(left, n, r) {
      if !done(n) {
        var r := WorkStep(cfg, m, schedule, n);
        assert Falls(left, n, r);
      }
    }
    FallingEnds(left, done, 0);
    var n: nat :| done(n);
    assert Stuck(After(cfg, m, schedule, n));
  }

  // ----- Nothing left to do -----

  lemma StuckPc(m: Mesh, c: ConnId)
    requires Stuck(m) && c in m.server.tasks
    ensures var pc := m.server.tasks[c].pc; pc.Reading? || pc.Draining? || pc.Done?
  {
    assert !Due(m, Internal(Register(c))) && !Due(m, Internal(SendReply(c))) && !Due(m, Internal(CleanUp(c)));
  }

  lemma StuckReader(m: Mesh, c: ConnId)
    requires Stuck(m) && c in m.clients && c in m.server.tasks && c in m.server.streams
    requires m.server.tasks[c].pc.Reading? && WriterOk(m.server.tasks[c], m.server.streams[c])
    ensures !m.clients[c].closed
    ensures m.server.tasks[c].writer.Running? && m.server.tasks[c].written == |m.server.streams[c]|
  {
    assert !Due(m, Internal(EndOfInput(c))) && !Due(m, Internal(WriteNext(c, true)));
  }

  lemma StuckClient(m: Mesh, c: ConnId)
    requires Stuck(m) && c in m.clients && c in m.server.tasks && c in m.server.streams
    requires m.server.tasks[c].pc.Reading? && !m.clients[c].closed
    requires m.clients[c].delivered <= m.server.tasks[c].written == |m.server.streams[c]|
    ensures m.clients[c].delivered == |m.server.streams[c]| && m.clients[c].outbox == []
    ensures m.clients[c].app.pending == []
  {
    assert !Due(m, Handle(c)) && !Due(m, Read(c, seq(32, _ => 0), 0, 0));
    assert !Due(m, Resume(c, 0, "", [])) && !Due(m, Drop(c, 0));
  }

  /** Where nothing is left to do, the task of a connected user waits for frames, its writer has written
      everything, and its client has its socket open and has handled everything. */
  lemma StuckIsQuiet(cfg: Config, m: Mesh, u: UserUid)
    requires MeshOk(cfg, m) && Stuck(m) && u in m.server.connections
    ensures Quiet(m, u)
    ensures var c := m.server.connections[u];
            && c in m.server.tasks && m.server.tasks[c].pc.Reading? && m.server.tasks[c].writer.Running?
            && c in m.server.streams && m.server.tasks[c].written == |m.server.streams[c]|
            && c in m.clients && m.clients[c].outbox == [] && m.clients[c].app.pending == []
  {
    var s, c := m.server, m.server.connections[u];
    assert c in s.tasks && IsLive(s.tasks[c]) && WriterOk(s.tasks[c], s.streams[c]) by {
      Invariants(cfg, s);
    }
    InBounds(cfg, m, c);
    StuckPc(m, c);
    StuckReader(m, c);
    StuckClient(m, c);
  }

  lemma StuckDrain(m: Mesh, c: ConnId)
    requires Stuck(m)
    ensures !Enabled(m.server, WriteNext(c, true)) && !Enabled(m.server, StopWriter(c)) && !Enabled(m.server, Finish(c))
  {
    assert !Due(m, Internal(WriteNext(c, true))) && !Due(m, Internal(StopWriter(c))) && !Due(m, Internal(Finish(c)));
  }

  /** Where nothing is left to do, every connection that was cleaned up has returned, with its whole stream on the
      socket unless a write to it failed. */
  lemma StuckIsDrained(cfg: Config, m: Mesh, c: ConnId)
    requires MeshOk(cfg, m) && Stuck(m) && CleanedUp(m.server, c)
    ensures m.server.tasks[c].pc.Done? && (Drained(m.server, c) || m.server.tasks[c].writer.Failed?)
  {
    StuckDrain(m, c);
    EndOfDrain(cfg, m.server, c);
  }

  /** What a mesh comes to: every connected user's client has exactly its acquaintances for peers, and that is the
      whole room exactly if everyone who owes it an offer may send it; and every other connection has ended, drained
      unless a write to it failed. */
  ghost predicate Settled(permissions: Permissions, m: Mesh) {
    && (forall u :: u in m.server.connections ==>
          && HasPeers(m, u, Acquaintances(permissions, m.server, u))
          && (IsMeshed(m, u) <==> MayBeReached(permissions, m.server, u)))
    && (forall c :: CleanedUp(m.server, c) ==>
          m.server.tasks[c].pc.Done? && (Drained(m.server, c) || m.server.tasks[c].writer.Failed?))
  }

  lemma StuckIsSettled(cfg: Config, m: Mesh)
    requires MeshOk(cfg, m) && Stuck(m)
    ensures Settled(cfg.permissions, m)
  {
    forall u | u in m.server.connections ensures Quiet(m, u) {
      StuckIsQuiet(cfg, m, u);
    }
    forall u | u in m.server.connections
      ensures HasPeers(m, u, Acquaintances(cfg.permissions, m.server, u))
      ensures IsMeshed(m, u) <==> MayBeReached(cfg.permissions, m.server, u)
    {
      QuietHasPeers(cfg, m, u);
      AcquaintedWithAll(cfg, m.server, u);
    }
    forall c | CleanedUp(m.server, c)
      ensures m.server.tasks[c].pc.Done? && (Drained(m.server, c) || m.server.tasks[c].writer.Failed?)
    {
      StuckIsDrained(cfg, m, c);
    }
  }

  /** Once no user acts, connects or disconnects any more, the mesh comes to rest after finitely many steps, in
      whatever order they are taken and however many candidates are gathered on the way. */
  lemma WorkSettlesIntoFullMeshes(cfg: Config, steps: seq<MeshStep>, schedule: nat -> MeshStep)
    requires Diligent(cfg, MeshExec(cfg, steps), schedule)
    ensures exists n: nat ::
              var m := After(cfg, MeshExec(cfg, steps), schedule, n);
              Stuck(m) && Settled(cfg.permissions, m)
  {
    var start := MeshExec(cfg, steps);
    RunsKeepMesh(cfg, steps);
    WorkEnds(cfg, start, schedule);
    var n: nat :| Stuck(After(cfg, start, schedule, n));
    AfterKeepsMesh(cfg, start, schedule, n);
    StuckIsSettled(cfg, After(cfg, start, schedule, n));
  }

  /** With the evaluator the server runs with, every room then is a full mesh. */
  lemma ProductionSettlesIntoFullMeshes(ed: Ed25519, steps: seq<MeshStep>, schedule: nat -> MeshStep)
    requires Diligent(Config(ed, AllowAllPermissions()), MeshExec(Config(ed, AllowAllPermissions()), steps), schedule)
    ensures exists n: nat ::
              var m := After(Config(ed, AllowAllPermissions()), MeshExec(Config(ed, AllowAllPermissions()), steps), schedule, n);
              Stuck(m) && forall u :: u in m.server.connections ==> IsMeshed(m, u)
  {
    var cfg := Config(ed, AllowAllPermissions());
    var start := MeshExec(cfg, steps);
    WorkSettlesIntoFullMeshes(cfg, steps, schedule);
    var n: nat :| Stuck(After(cfg, start, schedule, n)) && Settled(cfg.permissions, After(cfg, start, schedule, n));
    var m := After(cfg, start, schedule, n);
    forall u | u in m.server.connections ensures IsMeshed(m, u) {
      assert MayBeReached(cfg.permissions, m.server, u);
    }
  }
}
