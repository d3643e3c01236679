/** What becomes of logins that the server has accepted. */
module LoginGuarantees {
  import opened Protocol
  import opened Rooms
  import opened Login
  import opened Server
  import opened ServerProofs
  import opened ServerHistory
  import opened Guarantees
  import opened LifecycleGuarantees

  /** The session granted by the last message of a conversation. */
  function GrantedSession(ed: Ed25519, heard: seq<AuthInput>): Option<SessionData> {
    if heard == [] then None
    else Turn(ed, StateAfter(ed, heard[..|heard| - 1]), heard[|heard| - 1]).session
  }

  predicate RegisteredAs(task: Task, uid: UserUid) {
    task.session.Some? && task.session.value.userUid == uid
  }

  /** Another connection is, or was, registered under this identity. */
  ghost predicate RegisteredElsewhere(s: State, c: ConnId, uid: UserUid) {
    exists d :: d in s.tasks && d != c && RegisteredAs(s.tasks[d], uid)
  }

  ghost predicate GrantOk(ed: Ed25519, s: State, c: ConnId)
    requires c in s.tasks
  {
    var task := s.tasks[c];
    GrantedSession(ed, task.heard).Some? ==>
      var uid := GrantedSession(ed, task.heard).value.userUid;
      || (task.pc.AwaitingLock? && task.pc.claimed.userUid == uid)
      || RegisteredAs(task, uid)
      || RegisteredElsewhere(s, c, uid)
  }

  ghost predicate AllGrantsOk(ed: Ed25519, s: State) {
    forall c :: c in s.tasks ==> GrantOk(ed, s, c)
  }

  lemma GrantExtends(ed: Ed25519, heard: seq<AuthInput>, input: AuthInput)
    ensures GrantedSession(ed, heard + [input]) == Turn(ed, StateAfter(ed, heard), input).session
  {
    assert (heard + [input])[..|heard|] == heard;
  }

  /** A registered task keeps its identity. */
  lemma RegistrationStays(cfg: Config, s: State, step: Step, d: ConnId, uid: UserUid)
    requires d in s.tasks && RegisteredAs(s.tasks[d], uid) && PcOk(s.tasks[d])
    ensures d in Next(cfg, s, step).tasks && RegisteredAs(Next(cfg, s, step).tasks[d], uid)
  {
    if Enabled(s, step) {
      TasksAfter(cfg, s, step);
      if step.RoomMessage? {
        EffectKeepsIdentity(s.members, s.tasks[step.c].session.value, step.message, step.timestamp, cfg.permissions);
      }
    }
  }

  lemma ElsewhereStays(cfg: Config, s: State, step: Step, c: ConnId, uid: UserUid)
    requires TasksOk(cfg.permissions, s) && RegisteredElsewhere(s, c, uid)
    ensures RegisteredElsewhere(Next(cfg, s, step), c, uid)
  {
    var d :| d in s.tasks && d != c && RegisteredAs(s.tasks[d], uid);
    assert TaskOk(cfg.permissions, s, d, s.tasks[d]);
    RegistrationStays(cfg, s, step, d, uid);
  }

  /** At the lock, a granted session is registered or gives way to the connection that already has its identity. */
  lemma LockedGrantIsKept(cfg: Config, s: State, step: Step, uid: UserUid)
    requires ConnectionsOk(s) && Enabled(s, step) && step.c in s.tasks && PcOk(s.tasks[step.c])
    requires s.tasks[step.c].pc.AwaitingLock? && s.tasks[step.c].pc.claimed.userUid == uid
    ensures var after := Next(cfg, s, step);
            && step.c in after.tasks
            && (|| (after.tasks[step.c].pc.AwaitingLock? && after.tasks[step.c].pc.claimed.userUid == uid)
                || RegisteredAs(after.tasks[step.c], uid)
                || RegisteredElsewhere(after, step.c, uid))
  {
    TasksAfter(cfg, s, step);
    if step.Register? && uid in s.connections {
      var d := s.connections[uid];
      assert d != step.c && RegisteredAs(s.tasks[d], uid);
      assert Next(cfg, s, step).tasks[d] == s.tasks[d];
    }
  }

  /** What its own step makes of an accepted login. */
  lemma OwnStepKeepsGrant(cfg: Config, s: State, step: Step)
    requires ConnectionsOk(s) && TasksOk(cfg.permissions, s) && Enabled(s, step)
    requires step.c in s.tasks ==> GrantOk(cfg.ed, s, step.c)
    requires step.c in s.tasks ==> s.tasks[step.c].authentication == StateAfter(cfg.ed, s.tasks[step.c].heard)
    ensures step.c in Next(cfg, s, step).tasks && GrantOk(cfg.ed, Next(cfg, s, step), step.c)
  {
    var after, c := Next(cfg, s, step), step.c;
    TasksAfter(cfg, s, step);
    if step.AuthMessage? {
      GrantExtends(cfg.ed, s.tasks[c].heard, step.input);
    } else if !step.Open? && GrantedSession(cfg.ed, s.tasks[c].heard).Some? {
      var uid := GrantedSession(cfg.ed, s.tasks[c].heard).value.userUid;
      assert TaskOk(cfg.permissions, s, c, s.tasks[c]);
      if RegisteredElsewhere(s, c, uid) {
        ElsewhereStays(cfg, s, step, c, uid);
      } else if RegisteredAs(s.tasks[c], uid) {
        RegistrationStays(cfg, s, step, c, uid);
      } else {
        LockedGrantIsKept(cfg, s, step, uid);
      }
    }
  }

  lemma OtherStepKeepsGrant(cfg: Config, s: State, step: Step, c: ConnId)
    requires TasksOk(cfg.permissions, s) && Enabled(s, step) && c in s.tasks && c != step.c && GrantOk(cfg.ed, s, c)
    ensures c in Next(cfg, s, step).tasks && GrantOk(cfg.ed, Next(cfg, s, step), c)
  {
    TasksAfter(cfg, s, step);
    if GrantedSession(cfg.ed, s.tasks[c].heard).Some? {
      var uid := GrantedSession(cfg.ed, s.tasks[c].heard).value.userUid;
      if RegisteredElsewhere(s, c, uid) {
        ElsewhereStays(cfg, s, step, c, uid);
      }
    }
  }

  lemma NextKeepsGrants(cfg: Config, s: State, step: Step)
    requires ConnectionsOk(s) && TasksOk(cfg.permissions, s) && AllGrantsOk(cfg.ed, s)
    requires forall c :: c in s.tasks ==> s.tasks[c].authentication == StateAfter(cfg.ed, s.tasks[c].heard)
    ensures AllGrantsOk(cfg.ed, Next(cfg, s, step))
  {
    if Enabled(s, step) {
      TasksAfter(cfg, s, step);
      forall c | c in Next(cfg, s, step).tasks ensures GrantOk(cfg.ed, Next(cfg, s, step), c) {
        if c == step.c {
          OwnStepKeepsGrant(cfg, s, step);
        } else {
          OtherStepKeepsGrant(cfg, s, step, c);
        }
      }
    }
  }

  lemma {:induction false} ReachableGrantsOk(cfg: Config, steps: seq<Step>)
    ensures AllGrantsOk(cfg.ed, Exec(cfg, steps))
    decreases |steps|
  {
    if steps != [] {
      var before := steps[..|steps| - 1];
      ReachableGrantsOk(cfg, before);
      ReachableStateOk(cfg, before);
      ReachableHeardOk(cfg, before);
      NextKeepsGrants(cfg, Exec(cfg, before), steps[|steps| - 1]);
    }
  }

  lemma GrantIsReplied(ed: Ed25519, heard: seq<AuthInput>)
    requires GrantedSession(ed, heard).Some?
    ensures Replies(ed, heard)[|heard| - 1] == Welcome(GrantedSession(ed, heard).value.userUid)
  {
    RepliesAt(ed, heard, |heard| - 1);
  }

  /** A conversation that ends in a welcome leaves three possibilities. */
  lemma AfterTheGrant(task: Task, stream: seq<ServerMessage>, replies: seq<ServerMessage>, uid: UserUid)
    requires HeardAs(task, stream, replies) && PcOk(task)
    requires replies != [] && replies[|replies| - 1] == Welcome(uid)
    requires task.session.None? ==> forall i :: 0 <= i < |stream| ==> !stream[i].AuthSuccess?
    ensures || (task.pc.AwaitingLock? && task.pc.claimed.userUid == uid)
            || RegisteredAs(task, uid)
            || (task.session.None? && Refused(stream, replies))
  {
  }

  /** The welcome was withheld, and this identity belongs, or belonged, to another connection. */
  ghost predicate TurnedAway(ed: Ed25519, s: State, c: ConnId, uid: UserUid) {
    && c in s.tasks && c in s.streams && s.tasks[c].session.None?
    && Refused(s.streams[c], Replies(ed, s.tasks[c].heard)) && RegisteredElsewhere(s, c, uid)
  }

  /** An accepted login waits for the lock, or is registered under its identity, or was refused because another
      connection had that identity. */
  lemma AcceptedLoginsAreSettled(cfg: Config, s: State, c: ConnId)
    requires Reachable(cfg, s) && c in s.tasks && GrantedSession(cfg.ed, s.tasks[c].heard).Some?
    ensures var task, uid := s.tasks[c], GrantedSession(cfg.ed, s.tasks[c].heard).value.userUid;
            || (task.pc.AwaitingLock? && task.pc.claimed.userUid == uid)
            || RegisteredAs(task, uid)
            || TurnedAway(cfg.ed, s, c, uid)
  {
    var task, uid := s.tasks[c], GrantedSession(cfg.ed, s.tasks[c].heard).value.userUid;
    assert c in s.streams && HeardAs(task, s.streams[c], Replies(cfg.ed, task.heard)) && PcOk(task) by {
      Invariants(cfg, s);
      assert TaskOk(cfg.permissions, s, c, task);
    }
    GrantIsReplied(cfg.ed, task.heard);
    if task.session.None? {
      forall i: nat | i < |s.streams[c]| && s.streams[c][i].AuthSuccess? ensures false {
        WelcomedTask(cfg, s, c, i);
      }
    }
    AfterTheGrant(task, s.streams[c], Replies(cfg.ed, task.heard), uid);
    assert GrantOk(cfg.ed, s, c) by {
      var steps :| s == Exec(cfg, steps);
      ReachableGrantsOk(cfg, steps);
    }
  }
}
