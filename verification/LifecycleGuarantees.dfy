/** How a connection begins and ends: where its welcome comes from, and how its stream reaches the
    socket after the read loop has ended. */
module LifecycleGuarantees {
  import opened Protocol
  import opened Codec
  import opened Replay
  import opened Presence
  import opened Login
  import opened Server
  import opened ServerProofs
  import opened ServerHistory
  import opened Guarantees

  // ----- Welcomes -----

  lemma UnannouncedIsUnwelcomed(cfg: Config, s: State, c: ConnId)
    requires Reachable(cfg, s) && c in s.tasks && s.tasks[c].pc.Replying? && s.tasks[c].session.Some?
    ensures Replayed(History(s, c)).me.None?
  {
    Invariants(cfg, s);
    assert TaskOk(cfg.permissions, s, c, s.tasks[c]);
    var u := s.tasks[c].session.value.userUid;
    assert UserOk(cfg.permissions, s.members, |s.log|, u, LobbyOf(s).users[u]);
  }

  lemma WelcomedTask(cfg: Config, s: State, c: ConnId, i: nat)
    requires Reachable(cfg, s) && c in s.streams && i < |s.streams[c]| && s.streams[c][i].AuthSuccess?
    ensures c in s.tasks && Welcomed(s.tasks[c], s.streams[c], Replies(cfg.ed, s.tasks[c].heard))
  {
    StreamIsLegal(cfg, s, c);
    var task := s.tasks[c];
    assert Replayed(History(s, c)).me.Some? by {
      ReplayReadsMe(History(s, c));
      MeFromSuccess(s.streams[c]);
    }
    assert TaskOk(cfg.permissions, s, c, task) && HeardOk(cfg.ed, task, s.streams[c]) by {
      Invariants(cfg, s);
    }
    if task.pc.Replying? && task.session.Some? {
      UnannouncedIsUnwelcomed(cfg, s, c);
    }
  }

  /** Every welcome is the answer to a challenge on the same connection: the only one open, answered in time
      with a signature valid for exactly that challenge, by the identity that is welcomed. */
  lemma WelcomesAnswerChallenges(cfg: Config, s: State, c: ConnId, i: nat)
    requires Reachable(cfg, s) && c in s.streams && i < |s.streams[c]| && s.streams[c][i].AuthSuccess?
    ensures c in s.tasks && i == |s.tasks[c].heard| - 1
    ensures var heard, stream := s.tasks[c].heard, s.streams[c];
            exists j: nat :: j < i && OpenBetween(cfg.ed, heard, j, i) && heard[j].message.AuthIdentify?
                     && Accepts(cfg.ed, ChallengeOf(heard[j]), heard[i])
                     && stream[j] == AuthChallenge(Base64Encode(heard[j].nonce), heard[j].timestamp)
                     && stream[i] == AuthSuccess(heard[j].message.clientUid,
                                                 DefaultDisplayName(heard[j].message.clientUid), SERVER_NAME)
  {
    WelcomedTask(cfg, s, c, i);
    var heard, stream := s.tasks[c].heard, s.streams[c];
    var n := |heard| - 1;
    if i < n {
      StreamGrammar(cfg, s, c, n);
    } else if n < i {
      StreamGrammar(cfg, s, c, i);
    }
    assert i == n;
    RepliesAt(cfg.ed, heard, n);
    assert stream[..|heard|][n] == stream[n];
    assert ReplyTo(cfg.ed, heard, n) == stream[n];
    LoginSucceedsExactly(cfg.ed, heard, n);
    var j: nat :| OpenBetween(cfg.ed, heard, j, n) && heard[j].message.AuthIdentify?
                  && Accepts(cfg.ed, ChallengeOf(heard[j]), heard[n]);
    RepliesAt(cfg.ed, heard, j);
    assert stream[..|heard|][j] == stream[j];
  }

  // ----- Draining -----

  predicate CleanedUp(s: State, c: ConnId) {
    c in s.tasks && (s.tasks[c].pc.Draining? || s.tasks[c].pc.Done?)
  }

  /** What is on the socket is always a prefix of the stream, and all of it once the writer has stopped by itself;
      a cleaned-up connection has no sender left. */
  lemma SocketGetsPrefix(cfg: Config, s: State, c: ConnId)
    requires Reachable(cfg, s) && c in s.tasks
    ensures c in s.streams && s.tasks[c].written <= |s.streams[c]|
    ensures s.tasks[c].writer.Finished? ==> s.streams[c][..s.tasks[c].written] == s.streams[c]
    ensures CleanedUp(s, c) <==> !HasSender(s, c)
    ensures s.tasks[c].pc.Done? ==> !s.tasks[c].writer.Running?
  {
    Invariants(cfg, s);
    assert WriterOk(s.tasks[c], s.streams[c]);
    NoSenderAfterCleanUp(s, c);
  }

  /** After clean-up nothing is ever added to the stream, whatever else the server does. */
  lemma {:induction false} StreamIsFrozen(cfg: Config, s: State, c: ConnId, more: seq<Step>)
    requires Reachable(cfg, s) && CleanedUp(s, c)
    ensures Reachable(cfg, ExecFrom(cfg, s, more)) && CleanedUp(ExecFrom(cfg, s, more), c)
    ensures c in s.streams && c in ExecFrom(cfg, s, more).streams
    ensures ExecFrom(cfg, s, more).streams[c] == s.streams[c]
    decreases |more|
  {
    Invariants(cfg, s);
    if more != [] {
      var middle := ExecFrom(cfg, s, more[..|more| - 1]);
      StreamIsFrozen(cfg, s, c, more[..|more| - 1]);
      Invariants(cfg, middle);
      SilentAfterCleanUp(cfg, middle, more[|more| - 1], c);
      ReachableNext(cfg, middle, more[|more| - 1]);
    }
  }

  /** The task has returned after its writer wrote the whole stream. */
  predicate Drained(s: State, c: ConnId) {
    && c in s.tasks && c in s.streams && s.tasks[c].pc.Done? && s.tasks[c].writer.Finished?
    && s.tasks[c].written == |s.streams[c]|
  }

  /** The successful writes of one connection among some steps. */
  function WritesIn(c: ConnId, steps: seq<Step>): nat {
    if steps == [] then 0
    else WritesIn(c, steps[..|steps| - 1]) + if steps[|steps| - 1] == WriteNext(c, true) then 1 else 0
  }

  function Min(a: nat, b: nat): nat {
    if a < b then a else b
  }

  /** The writer of a connection in clean-up after any further step: a write that is due writes one message, and
      nothing else moves it. */
  lemma DrainStep(cfg: Config, s: State, c: ConnId, step: Step)
    requires Reachable(cfg, s) && CleanedUp(s, c) && !s.tasks[c].writer.Failed? && step != WriteNext(c, false)
    ensures c in s.streams && c in Next(cfg, s, step).tasks && !Next(cfg, s, step).tasks[c].writer.Failed?
    ensures Next(cfg, s, step).tasks[c].written
         == if step == WriteNext(c, true) then Min(|s.streams[c]|, s.tasks[c].written + 1) else s.tasks[c].written
    ensures s.tasks[c].writer.Finished? ==> Next(cfg, s, step).tasks[c].writer.Finished?
    ensures s.tasks[c].pc.Done? ==> Next(cfg, s, step).tasks[c].pc.Done?
  {
    SocketGetsPrefix(cfg, s, c);
    if s.tasks[c].writer.Finished? {
      assert s.tasks[c].written == |s.streams[c]|;
    }
    if Enabled(s, step) {
      TasksAfter(cfg, s, step);
    }
  }

  /** In every run after clean-up in which no write of the connection fails, its writer has written as many messages
      as the run has writes, until the whole stream is on the socket. */
  lemma {:induction false} DrainProgress(cfg: Config, s: State, c: ConnId, more: seq<Step>)
    requires Reachable(cfg, s) && CleanedUp(s, c) && !s.tasks[c].writer.Failed? && WriteNext(c, false) !in more
    ensures var after := ExecFrom(cfg, s, more);
            && Reachable(cfg, after) && CleanedUp(after, c) && !after.tasks[c].writer.Failed?
            && c in s.streams && c in after.streams && after.streams[c] == s.streams[c]
            && after.tasks[c].written == Min(|s.streams[c]|, s.tasks[c].written + WritesIn(c, more))
            && (s.tasks[c].writer.Finished? ==> after.tasks[c].writer.Finished?)
            && (s.tasks[c].pc.Done? ==> after.tasks[c].pc.Done?)
    decreases |more|
  {
    StreamIsFrozen(cfg, s, c, more);
    SocketGetsPrefix(cfg, s, c);
    if more != [] {
      var n := |more| - 1;
      DrainProgress(cfg, s, c, more[..n]);
      StreamIsFrozen(cfg, s, c, more[..n]);
      assert more[n] in more;
      DrainStep(cfg, ExecFrom(cfg, s, more[..n]), c, more[n]);
    }
  }

  /** As long as such a connection has not drained, a step of its own brings it closer, so nothing can keep it waiting. */
  lemma DrainNeverBlocks(cfg: Config, s: State, c: ConnId)
    requires Reachable(cfg, s) && CleanedUp(s, c) && !s.tasks[c].writer.Failed?
    ensures Drained(s, c) || Enabled(s, WriteNext(c, true)) || Enabled(s, StopWriter(c)) || Enabled(s, Finish(c))
  {
    SocketGetsPrefix(cfg, s, c);
    if s.tasks[c].writer.Finished? {
      assert s.tasks[c].written == |s.streams[c]|;
    }
  }

  /** A cleaned-up connection that can take no such step has ended, drained unless a write to it failed. */
  lemma EndOfDrain(cfg: Config, s: State, c: ConnId)
    requires Reachable(cfg, s) && CleanedUp(s, c)
    requires !Enabled(s, WriteNext(c, true)) && !Enabled(s, StopWriter(c)) && !Enabled(s, Finish(c))
    ensures s.tasks[c].pc.Done? && (Drained(s, c) || s.tasks[c].writer.Failed?)
  {
    if !s.tasks[c].writer.Failed? {
      DrainNeverBlocks(cfg, s, c);
    }
  }

  lemma {:induction false} ExecJoins(cfg: Config, s: State, a: seq<Step>, b: seq<Step>)
    ensures ExecFrom(cfg, s, a + b) == ExecFrom(cfg, ExecFrom(cfg, s, a), b)
    decreases |b|
  {
    if b == [] {
      assert a + b == a;
    } else {
      var n := |b| - 1;
      assert (a + b)[..|a + b| - 1] == a + b[..n];
      ExecJoins(cfg, s, a, b[..n]);
    }
  }

  lemma ExecJoinsThree(cfg: Config, s: State, a: seq<Step>, b: seq<Step>, c: seq<Step>)
    ensures ExecFrom(cfg, s, a + b + c) == ExecFrom(cfg, ExecFrom(cfg, ExecFrom(cfg, s, a), b), c)
  {
    ExecJoins(cfg, s, a, b);
    ExecJoins(cfg, s, a + b, c);
  }

  /** One step and a run after it, taken together. */
  lemma AfterOne(cfg: Config, s: State, c: ConnId, step: Step, more: seq<Step>)
    requires Reachable(cfg, s) && CleanedUp(s, c) && !s.tasks[c].writer.Failed?
    requires step != WriteNext(c, false) && WriteNext(c, false) !in more
    ensures var next := Next(cfg, s, step);
            var after := ExecFrom(cfg, next, more);
            && ExecFrom(cfg, s, [step] + more) == after
            && Reachable(cfg, after) && CleanedUp(after, c) && CleanedUp(next, c) && !after.tasks[c].writer.Failed?
            && (next.tasks[c].writer.Finished? ==> after.tasks[c].writer.Finished?)
            && (next.tasks[c].pc.Done? ==> after.tasks[c].pc.Done?)
  {
    ExecJoins(cfg, s, [step], more);
    assert [step][..0] == [];
    DrainProgress(cfg, s, c, [step]);
    DrainProgress(cfg, Next(cfg, s, step), c, more);
  }

  /** With everything written, looking for senders stops the writer, and returning then ends the task. */
  lemma StopsAndReturns(cfg: Config, s: State, c: ConnId, stopping: seq<Step>, ending: seq<Step>)
    requires Reachable(cfg, s) && CleanedUp(s, c) && !s.tasks[c].writer.Failed?
    requires c in s.streams && s.tasks[c].written == |s.streams[c]|
    requires WriteNext(c, false) !in stopping && WriteNext(c, false) !in ending
    ensures Drained(ExecFrom(cfg, ExecFrom(cfg, s, [StopWriter(c)] + stopping), [Finish(c)] + ending), c)
  {
    SocketGetsPrefix(cfg, s, c);
    AfterOne(cfg, s, c, StopWriter(c), stopping);
    var returning := ExecFrom(cfg, s, [StopWriter(c)] + stopping);
    assert returning.tasks[c].writer.Finished?;
    AfterOne(cfg, returning, c, Finish(c), ending);
    SocketGetsPrefix(cfg, ExecFrom(cfg, returning, [Finish(c)] + ending), c);
  }

  lemma WritesEverything(cfg: Config, s: State, c: ConnId, writing: seq<Step>)
    requires Reachable(cfg, s) && CleanedUp(s, c) && !s.tasks[c].writer.Failed? && WriteNext(c, false) !in writing
    requires c in s.streams && s.tasks[c].written + WritesIn(c, writing) >= |s.streams[c]|
    ensures var after := ExecFrom(cfg, s, writing);
            && Reachable(cfg, after) && CleanedUp(after, c) && !after.tasks[c].writer.Failed?
            && c in after.streams && after.tasks[c].written == |after.streams[c]|
  {
    DrainProgress(cfg, s, c, writing);
  }

  lemma DrainsInParts(cfg: Config, s: State, c: ConnId, writing: seq<Step>, stopping: seq<Step>, ending: seq<Step>)
    requires Reachable(cfg, s) && CleanedUp(s, c) && !s.tasks[c].writer.Failed?
    requires WriteNext(c, false) !in writing && WriteNext(c, false) !in stopping && WriteNext(c, false) !in ending
    requires c in s.streams && s.tasks[c].written + WritesIn(c, writing) >= |s.streams[c]|
    ensures Drained(ExecFrom(cfg, ExecFrom(cfg, ExecFrom(cfg, s, writing), [StopWriter(c)] + stopping), [Finish(c)] + ending), c)
  {
    WritesEverything(cfg, s, c, writing);
    StopsAndReturns(cfg, ExecFrom(cfg, s, writing), c, stopping, ending);
  }

  /** A run after clean-up in which no write of the connection fails drains it, whatever other steps come between,
      once it has written as often as messages were left, then looked for senders, then returned. */
  lemma DrainTerminates(cfg: Config, s: State, c: ConnId, writing: seq<Step>, stopping: seq<Step>, ending: seq<Step>)
    requires Reachable(cfg, s) && CleanedUp(s, c) && !s.tasks[c].writer.Failed?
    requires WriteNext(c, false) !in writing && WriteNext(c, false) !in stopping && WriteNext(c, false) !in ending
    requires c in s.streams && s.tasks[c].written + WritesIn(c, writing) >= |s.streams[c]|
    ensures Drained(ExecFrom(cfg, s, writing + ([StopWriter(c)] + stopping) + ([Finish(c)] + ending)), c)
  {
    DrainsInParts(cfg, s, c, writing, stopping, ending);
    ExecJoinsThree(cfg, s, writing, [StopWriter(c)] + stopping, [Finish(c)] + ending);
  }
}
