/** What holds in every reachable state of the server and along every stream. */
module Guarantees {
  import opened Protocol
  import opened Rooms
  import opened Dispatch
  import opened Replay
  import opened Presence
  import opened Server
  import opened ServerProofs
  import opened ServerHistory

  /** The states of all runs. */
  ghost predicate Reachable(cfg: Config, s: State) {
    exists steps :: s == Exec(cfg, steps)
  }

  lemma Invariants(cfg: Config, s: State)
    requires Reachable(cfg, s)
    ensures StateOk(cfg.permissions, s) && SyncOk(s) && AllHeardOk(cfg.ed, s) && AllWritersOk(s)
  {
    var steps :| s == Exec(cfg, steps);
    ReachableStateOk(cfg, steps);
    ReachableSyncOk(cfg, steps);
    ReachableHeardOk(cfg, steps);
    ReachableWritersOk(cfg, steps);
  }

  lemma ReachableNext(cfg: Config, s: State, step: Step)
    requires Reachable(cfg, s)
    ensures Reachable(cfg, Next(cfg, s, step))
  {
    var steps :| s == Exec(cfg, steps);
    assert (steps + [step])[..|steps|] == steps;
    assert Next(cfg, s, step) == Exec(cfg, steps + [step]);
  }

  // ----- The registry is the inverse of the sessions -----

  /** The room of every connected user that is in one, read off the tasks' own sessions. */
  function OccupancyOf(s: State): Occupancy {
    map u | u in s.connections && s.connections[u] in s.tasks && s.tasks[s.connections[u]].session.Some?
            && s.tasks[s.connections[u]].session.value.activeVoiceRoomId.Some?
      :: s.tasks[s.connections[u]].session.value.activeVoiceRoomId.value
  }

  lemma RegistryOfLobby(permissions: Permissions, s: State)
    requires ConnectionsOk(s) && RegistryOk(permissions, LobbyOf(s))
    ensures s.members == Inverse(OccupancyOf(s))
  {
    var lobby := LobbyOf(s);
    forall r, u ensures u in MembersOf(s.members, r) <==> (u in OccupancyOf(s) && OccupancyOf(s)[u] == r) {
      assert u in MembersOf(lobby.members, r) <==> u in lobby.users && lobby.users[u].room == Some(r);
    }
    InverseIsUnique(s.members, OccupancyOf(s));
  }

  /** A user is a member of a room exactly if its own session says so, and only with the power to join. */
  lemma RegistryIsInverse(cfg: Config, s: State)
    requires Reachable(cfg, s)
    ensures s.members == Inverse(OccupancyOf(s))
    ensures forall r, u :: u in MembersOf(s.members, r) ==> cfg.permissions.IsAllowed(u, r, Join)
  {
    Invariants(cfg, s);
    RegistryOfLobby(cfg.permissions, s);
    assert RegistryOk(cfg.permissions, LobbyOf(s));
  }

  lemma {:induction false} CardinalityOfSubset<T>(a: set<T>, b: set<T>)
    requires a <= b
    ensures |a| <= |b|
  {
    assert |b - a| == |b| - |a|;
  }

  /** Memberships are neither lost nor duplicated: they count the sessions that are in a room. */
  lemma MembersAreConserved(cfg: Config, s: State)
    requires Reachable(cfg, s)
    ensures |s.members| <= TotalMembers(s.members) == |OccupancyOf(s)| <= |s.connections|
  {
    RegistryIsInverse(cfg, s);
    InverseConservesMembers(OccupancyOf(s));
    assert OccupancyOf(s).Keys <= s.connections.Keys;
    CardinalityOfSubset(OccupancyOf(s).Keys, s.connections.Keys);
  }

  // ----- One connection per identity -----

  lemma OneConnectionPerIdentity(cfg: Config, s: State)
    requires Reachable(cfg, s)
    ensures (forall u, v :: u in s.connections && v in s.connections && s.connections[u] == s.connections[v] ==> u == v)
            && (forall c :: c in s.tasks ==> (IsLive(s.tasks[c]) <==> c in s.connections.Values))
            && (forall u :: u in s.connections ==>
                  s.connections[u] in s.tasks && s.tasks[s.connections[u]].session.Some?
                  && s.tasks[s.connections[u]].session.value.userUid == u)
  {
    Invariants(cfg, s);
    forall c | c in s.tasks ensures IsLive(s.tasks[c]) <==> c in s.connections.Values {
      if c in s.connections.Values {
        var u :| u in s.connections && s.connections[u] == c;
      }
    }
  }

  lemma OwnerIsLive(s: State, u: UserUid)
    requires TableOk(s) && u in s.connections
    ensures s.connections[u] in s.tasks && IsLive(s.tasks[s.connections[u]])
    ensures s.streams.Keys == s.tasks.Keys
  {
  }

  lemma Refusal(cfg: Config, s: State, c: ConnId)
    requires c in s.tasks && c in s.streams && s.tasks[c].pc.AwaitingLock?
    requires s.tasks[c].pc.claimed.userUid in s.connections
    ensures Next(cfg, s, Register(c))
         == s.(tasks := s.tasks[c := s.tasks[c].(pc := Closing)],
               streams := s.streams[c := s.streams[c] + [AuthFailure(InvalidCredentials)]],
               log := s.log + [Entry({c}, Note(AuthFailure(InvalidCredentials), {}, |s.log|))])
  {
    assert Next(cfg, s, Register(c)).streams == s.streams[c := s.streams[c] + [AuthFailure(InvalidCredentials)]];
  }

  /** A second login of a connected identity only appends a refusal to its own stream. */
  lemma DuplicateLoginIsRefused(cfg: Config, s: State, c: ConnId)
    requires Reachable(cfg, s)
    requires c in s.tasks && s.tasks[c].pc.AwaitingLock? && s.tasks[c].pc.claimed.userUid in s.connections
    ensures var after := Next(cfg, s, Register(c));
            && after.members == s.members && after.connections == s.connections
            && c in s.streams
            && after.streams == s.streams[c := s.streams[c] + [AuthFailure(InvalidCredentials)]]
            && after.tasks == s.tasks[c := s.tasks[c].(pc := Closing)]
            && s.connections[s.tasks[c].pc.claimed.userUid] != c
  {
    Invariants(cfg, s);
    OwnerIsLive(s, s.tasks[c].pc.claimed.userUid);
    Refusal(cfg, s, c);
  }

  lemma CleanUpConnections(s: State, c: ConnId)
    requires ConnectionsOk(s) && LiveOk(s) && c in s.tasks && s.tasks[c].pc.Closing?
    requires s.tasks[c].isRegistered == s.tasks[c].session.Some?
    ensures var after := DoCleanUp(s, c);
            && (forall u :: u in after.connections <==> u in s.connections && s.connections[u] != c)
            && (forall u :: u in after.connections ==> after.connections[u] == s.connections[u])
  {
    if s.tasks[c].session.Some? {
      PublishAllFields(Retired(s, c), s.members, DisconnectSession(s.members, s.tasks[c].session.value).sends);
    }
  }

  /** Clean-up removes by identity, and that is exactly the disconnecting task's own entry. */
  lemma CleanUpRemovesOwnEntry(cfg: Config, s: State, c: ConnId)
    requires Reachable(cfg, s) && c in s.tasks && s.tasks[c].pc.Closing?
    ensures var after := Next(cfg, s, CleanUp(c));
            && (forall u :: u in after.connections <==> u in s.connections && s.connections[u] != c)
            && (forall u :: u in after.connections ==> after.connections[u] == s.connections[u])
            && c !in after.connections.Values
  {
    assert ConnectionsOk(s) && LiveOk(s) && s.tasks[c].isRegistered == s.tasks[c].session.Some? by {
      Invariants(cfg, s);
      assert TaskOk(cfg.permissions, s, c, s.tasks[c]);
    }
    CleanUpConnections(s, c);
  }

  // ----- One order of sends -----

  /** Every stream is the projection of the one log, so common messages come in a common order. */
  lemma StreamsAreProjections(cfg: Config, s: State, c: ConnId)
    requires Reachable(cfg, s)
    requires c in s.streams
    ensures s.streams[c] == Messages(Project(s.log, c))
  {
    Invariants(cfg, s);
  }

  /** Where the i-th send of the log lands in a stream it was sent to. */
  lemma {:induction false} ProjectedAt(log: seq<Entry>, c: ConnId, i: nat)
    requires i < |log| && c in log[i].to
    ensures |Project(log[..i], c)| < |Project(log, c)|
    ensures Project(log, c)[|Project(log[..i], c)|] == log[i].note
    decreases |log|
  {
    var n := |log| - 1;
    if i < n {
      ProjectedAt(log[..n], c, i);
      assert log[..n][..i] == log[..i];
    }
  }

  /** How many sends before the i-th went to the connection: the place of the i-th in its stream. */
  function PlaceOf(s: State, c: ConnId, i: nat): nat
    requires i <= |s.log|
  {
    |Project(s.log[..i], c)|
  }

  lemma SendIsAtItsPlace(cfg: Config, s: State, c: ConnId, i: nat)
    requires Reachable(cfg, s) && c in s.streams && i < |s.log| && c in s.log[i].to
    ensures PlaceOf(s, c, i) < |s.streams[c]| && s.streams[c][PlaceOf(s, c, i)] == s.log[i].note.message
  {
    StreamsAreProjections(cfg, s, c);
    ProjectedAt(s.log, c, i);
  }

  lemma LaterSendsComeLater(s: State, c: ConnId, i: nat, j: nat)
    requires i < j <= |s.log| && c in s.log[i].to
    ensures PlaceOf(s, c, i) < PlaceOf(s, c, j)
  {
    ProjectedAt(s.log[..j], c, i);
    assert s.log[..j][..i] == s.log[..i];
  }

  /** Two connections receive the sends that went to both of them in the same order: the order of the log. */
  lemma CommonOrder(cfg: Config, s: State, c: ConnId, d: ConnId, i: nat, j: nat)
    requires Reachable(cfg, s) && c in s.streams && d in s.streams
    requires i < |s.log| && j < |s.log| && {c, d} <= s.log[i].to && {c, d} <= s.log[j].to
    ensures PlaceOf(s, c, i) < PlaceOf(s, c, j) <==> i < j
    ensures PlaceOf(s, c, i) < PlaceOf(s, c, j) <==> PlaceOf(s, d, i) < PlaceOf(s, d, j)
    ensures PlaceOf(s, c, i) < |s.streams[c]| && PlaceOf(s, d, i) < |s.streams[d]|
    ensures s.streams[c][PlaceOf(s, c, i)] == s.streams[d][PlaceOf(s, d, i)] == s.log[i].note.message
  {
    SendIsAtItsPlace(cfg, s, c, i);
    SendIsAtItsPlace(cfg, s, d, i);
    if i < j {
      LaterSendsComeLater(s, c, i, j);
      LaterSendsComeLater(s, d, i, j);
    } else if j < i {
      LaterSendsComeLater(s, c, j, i);
      LaterSendsComeLater(s, d, j, i);
    }
  }

  lemma {:induction false} ProjectedFrom(log: seq<Entry>, c: ConnId, k: nat)
    requires k < |Project(log, c)|
    ensures exists i: nat :: i < |log| && c in log[i].to && |Project(log[..i], c)| == k
    decreases |log|
  {
    var n := |log| - 1;
    if k < |Project(log[..n], c)| {
      ProjectedFrom(log[..n], c, k);
      var i: nat :| i < n && c in log[..n][i].to && |Project(log[..n][..i], c)| == k;
      assert log[..n][..i] == log[..i];
    }
  }

  /** Every message of a stream is at the place of exactly one send. */
  lemma EveryMessageWasSentOnce(cfg: Config, s: State, c: ConnId, k: nat)
    requires Reachable(cfg, s) && c in s.streams && k < |s.streams[c]|
    ensures exists i: nat :: i < |s.log| && c in s.log[i].to && PlaceOf(s, c, i) == k
    ensures forall i: nat, j: nat :: i < j < |s.log| && c in s.log[i].to && c in s.log[j].to ==>
      PlaceOf(s, c, i) != PlaceOf(s, c, j)
  {
    StreamsAreProjections(cfg, s, c);
    ProjectedFrom(s.log, c, k);
    forall i: nat, j: nat | i < j < |s.log| && c in s.log[i].to ensures PlaceOf(s, c, i) != PlaceOf(s, c, j) {
      LaterSendsComeLater(s, c, i, j);
    }
  }

  // ----- What may appear in a stream -----

  lemma StreamIsLegal(cfg: Config, s: State, c: ConnId)
    requires Reachable(cfg, s)
    requires c in s.streams
    ensures c in s.tasks
            && Legal(cfg.permissions, History(s, c))
            && s.streams[c] == Messages(History(s, c))
  {
    Invariants(cfg, s);
    assert TaskOk(cfg.permissions, s, c, s.tasks[c]);
  }

  /** The room a recipient is in, from its stream alone. */
  function RoomOf(stream: seq<ServerMessage>): Option<Uuid> {
    if stream == [] then None
    else match stream[|stream| - 1]
      case VoiceRoomJoined(room) => Some(room)
      case VoiceRoomLeft(_) => None
      case _ => RoomOf(stream[..|stream| - 1])
  }

  /** The arrivals a recipient has seen since it last entered a room, less the departures. */
  function ViewOf(stream: seq<ServerMessage>): set<UserUid> {
    if stream == [] then {}
    else
      var before := stream[..|stream| - 1];
      match stream[|stream| - 1]
      case VoiceRoomJoined(_) => {}
      case VoiceRoomLeft(_) => {}
      case PeerJoinedRoom(_, peer, _) => ViewOf(before) + {peer}
      case PeerLeftRoom(_, peer) => ViewOf(before) - {peer}
      case _ => ViewOf(before)
  }

  lemma {:induction false} MessagesPrefix(history: seq<Note>, k: nat)
    requires k <= |history|
    ensures Messages(history[..k]) == Messages(history)[..k]
  {
    assert forall i :: 0 <= i < k ==> Messages(history[..k])[i] == Messages(history)[i];
  }

  lemma {:induction false} ReplayReadsStream(history: seq<Note>)
    ensures Replayed(history).room == RoomOf(Messages(history))
    ensures Replayed(history).view == ViewOf(Messages(history))
    decreases |history|
  {
    if history != [] {
      var n := |history| - 1;
      ReplayReadsStream(history[..n]);
      MessagesPrefix(history, n);
    }
  }

  /** The room a room message is about. */
  function RoomNamed(message: ServerMessage): Uuid
    requires IsRoomMessage(message)
  {
    message.roomId
  }

  /** Every message about peers, text or signals names the room of the latest `VoiceRoomJoined`; none comes
      while the recipient is in no room; and it enters only rooms it is not in and leaves only its own. */
  lemma RoomScoping(cfg: Config, s: State, c: ConnId, k: nat)
    requires Reachable(cfg, s)
    requires c in s.streams && k < |s.streams[c]| && IsRoomMessage(s.streams[c][k])
    ensures var stream := s.streams[c];
            if stream[k].VoiceRoomJoined? then RoomOf(stream[..k]) != Some(RoomNamed(stream[k]))
            else RoomOf(stream[..k]) == Some(RoomNamed(stream[k]))
  {
    StreamIsLegal(cfg, s, c);
    var history := History(s, c);
    LegalAt(cfg.permissions, history, k);
    ReplayReadsStream(history[..k]);
    MessagesPrefix(history, k);
  }

  function MeIn(stream: seq<ServerMessage>): Option<UserUid> {
    if stream == [] then None
    else if stream[|stream| - 1].AuthSuccess? then Some(stream[|stream| - 1].verifiedUid)
    else MeIn(stream[..|stream| - 1])
  }

  lemma {:induction false} ReplayReadsMe(history: seq<Note>)
    ensures Replayed(history).me == MeIn(Messages(history))
    decreases |history|
  {
    if history != [] {
      var n := |history| - 1;
      ReplayReadsMe(history[..n]);
      MessagesPrefix(history, n);
    }
  }

  lemma {:induction false} MeFromSuccess(stream: seq<ServerMessage>)
    ensures MeIn(stream).Some? <==> exists i :: 0 <= i < |stream| && stream[i].AuthSuccess?
    decreases |stream|
  {
    if stream != [] {
      var n := |stream| - 1;
      MeFromSuccess(stream[..n]);
      if exists i :: 0 <= i < |stream| && stream[i].AuthSuccess? {
        var i :| 0 <= i < |stream| && stream[i].AuthSuccess?;
        if i < n {
          assert stream[..n][i].AuthSuccess?;
        }
      }
    }
  }

  /** Challenges and refusals, then at most one welcome, then room messages only. */
  lemma StreamGrammar(cfg: Config, s: State, c: ConnId, k: nat)
    requires Reachable(cfg, s)
    requires c in s.streams && k < |s.streams[c]|
    ensures var stream := s.streams[c];
            var welcomed := exists i :: 0 <= i < k && stream[i].AuthSuccess?;
            welcomed <==> IsRoomMessage(stream[k])
  {
    StreamIsLegal(cfg, s, c);
    var history := History(s, c);
    var stream := s.streams[c];
    LegalAt(cfg.permissions, history, k);
    ReplayReadsMe(history[..k]);
    MessagesPrefix(history, k);
    MeFromSuccess(stream[..k]);
    if exists i :: 0 <= i < k && stream[i].AuthSuccess? {
      var i :| 0 <= i < k && stream[i].AuthSuccess?;
      assert stream[..k][i].AuthSuccess?;
    }
  }

  /** At every position, whoever a message comes from or speaks of is where the recipient has been told it is:
      texts and signals come from members it knows to be present (or, for signals, itself), arrivals are
      news, departures are of members present; and all of them act with the power and under the name they have. */
  lemma CausalDelivery(cfg: Config, s: State, c: ConnId, k: nat)
    requires Reachable(cfg, s)
    requires c in s.streams && k < |s.streams[c]|
    ensures k < |History(s, c)|
    ensures var known := Replayed(History(s, c)[..k]);
            match s.streams[c][k]
               case PeerJoinedRoom(room, peer, name) =>
                 peer !in known.present && Some(peer) != known.me && name == DefaultDisplayName(peer)
                 && cfg.permissions.IsAllowed(peer, room, Join)
               case PeerLeftRoom(room, peer) => peer in known.present
               case BroadcastTextMessage(room, sender, name, _, _) =>
                 sender in known.present && name == DefaultDisplayName(sender)
                 && cfg.permissions.IsAllowed(sender, room, Write)
               case ForwardWebRtcSdp(room, sender, _, _) =>
                 (sender in known.present || Some(sender) == known.me)
                 && cfg.permissions.IsAllowed(sender, room, Signal)
               case ForwardWebRtcIce(room, sender, _) =>
                 (sender in known.present || Some(sender) == known.me)
                 && cfg.permissions.IsAllowed(sender, room, Signal)
               case AuthSuccess(uid, name, server) => name == DefaultDisplayName(uid) && server == SERVER_NAME
               case _ => true
  {
    StreamIsLegal(cfg, s, c);
    LegalAt(cfg.permissions, History(s, c), k);
  }
}
