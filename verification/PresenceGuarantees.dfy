/** What the members of a room know of each other, in every reachable state. */
module PresenceGuarantees {
  import opened Protocol
  import opened Rooms
  import opened Replay
  import opened Presence
  import opened Server
  import opened ServerProofs
  import opened Guarantees

  /** The stream of a connected user. */
  function StreamOf(s: State, u: UserUid): seq<ServerMessage> {
    if u in s.connections && s.connections[u] in s.streams then s.streams[s.connections[u]] else []
  }

  /** The users whose arrival `u` has seen since it entered its room. */
  function View(s: State, u: UserUid): set<UserUid> {
    ViewOf(StreamOf(s, u))
  }

  lemma UserFacts(cfg: Config, s: State, u: UserUid)
    requires Reachable(cfg, s) && u in s.connections
    ensures ConnectionsOk(s) && u in LobbyOf(s).users
    ensures UserOk(cfg.permissions, s.members, |s.log|, u, LobbyOf(s).users[u])
    ensures s.connections[u] in s.streams && s.connections[u] in s.tasks
    ensures s.streams[s.connections[u]] == Messages(LobbyOf(s).users[u].history)
    ensures LobbyOf(s).users[u].history == History(s, s.connections[u])
    ensures View(s, u) == Replayed(LobbyOf(s).users[u].history).view
    ensures forall r :: u in MembersOf(s.members, r) <==> LobbyOf(s).users[u].room == Some(r)
  {
    Invariants(cfg, s);
    ReplayReadsStream(LobbyOf(s).users[u].history);
    assert RegistryOk(cfg.permissions, LobbyOf(s));
  }

  lemma MemberIsConnected(cfg: Config, s: State, roomId: Uuid, u: UserUid)
    requires Reachable(cfg, s) && u in MembersOf(s.members, roomId)
    ensures u in s.connections
  {
    RegistryIsInverse(cfg, s);
    InverseMembers(OccupancyOf(s), roomId);
  }

  /** Starting from the members it found, folding the announced arrivals and departures always gives a user
      exactly the other members of its room; outside a room it gives nobody. */
  lemma PresenceIsExact(cfg: Config, s: State, u: UserUid)
    requires Reachable(cfg, s) && u in s.connections
    ensures s.connections[u] in s.tasks && s.tasks[s.connections[u]].session.Some?
    ensures var room := s.tasks[s.connections[u]].session.value.activeVoiceRoomId;
            && RoomOf(StreamOf(s, u)) == room
            && Replayed(History(s, s.connections[u])).present
               == (if room.Some? then MembersOf(s.members, room.value) - {u} else {})
  {
    UserFacts(cfg, s, u);
    ReplayReadsStream(History(s, s.connections[u]));
  }

  function JoinedAt(s: State, u: UserUid): nat {
    if u in s.connections then Replayed(History(s, s.connections[u])).joinedAt else 0
  }

  /** A member sees exactly those arrive that joined later. */
  lemma PairFacts(cfg: Config, s: State, roomId: Uuid, u: UserUid, v: UserUid)
    requires Reachable(cfg, s)
    requires u in MembersOf(s.members, roomId) && v in MembersOf(s.members, roomId) && u != v
    ensures v in View(s, u) <==> JoinedAt(s, u) < JoinedAt(s, v)
    ensures JoinedAt(s, u) != JoinedAt(s, v)
  {
    MemberIsConnected(cfg, s, roomId, u);
    MemberIsConnected(cfg, s, roomId, v);
    UserFacts(cfg, s, u);
    UserFacts(cfg, s, v);
    assert PairOk(LobbyOf(s), u, v) by {
      Invariants(cfg, s);
      assert SameRoom(LobbyOf(s), u, v);
    }
  }

  /** Of two members of a room exactly one has seen the other arrive, so exactly one of them makes an offer. */
  lemma ExactlyOneInitiator(cfg: Config, s: State, roomId: Uuid, u: UserUid, v: UserUid)
    requires Reachable(cfg, s)
    requires u in MembersOf(s.members, roomId) && v in MembersOf(s.members, roomId) && u != v
    ensures v in View(s, u) <==> u !in View(s, v)
  {
    PairFacts(cfg, s, roomId, u, v);
    PairFacts(cfg, s, roomId, v, u);
  }

  /** Nobody sees itself or a stranger arrive, and whoever arrived for a later member arrived for the earlier one:
      seeing arrive is a strict total order on the members of a room. */
  lemma ViewsAreJoinOrder(cfg: Config, s: State, roomId: Uuid, u: UserUid, v: UserUid, w: UserUid)
    requires Reachable(cfg, s) && u in MembersOf(s.members, roomId)
    ensures View(s, u) <= MembersOf(s.members, roomId) - {u}
    ensures v in View(s, u) && w in View(s, v) ==> w in View(s, u)
  {
    MemberIsConnected(cfg, s, roomId, u);
    UserFacts(cfg, s, u);
    if v in View(s, u) && w in View(s, v) {
      MemberIsConnected(cfg, s, roomId, v);
      UserFacts(cfg, s, v);
      PairFacts(cfg, s, roomId, u, v);
      PairFacts(cfg, s, roomId, v, w);
      if u == w {
        PairFacts(cfg, s, roomId, v, u);
      } else {
        PairFacts(cfg, s, roomId, u, w);
      }
    }
  }

  type Views = map<UserUid, set<UserUid>>

  function ViewsOf(s: State, users: set<UserUid>): Views {
    map u | u in users :: View(s, u)
  }

  /** The pairs (u, v) in which u has seen v arrive and so owes v an offer. */
  function Offers(views: Views): set<(UserUid, UserUid)> {
    set u, v | u in views && v in views[u] && v in views :: (u, v)
  }

  ghost predicate OneWay(views: Views) {
    && (forall u, v :: u in views && v in views && u != v ==> (v in views[u] <==> u !in views[v]))
    && (forall u :: u in views ==> u !in views[u])
  }

  /** The offers that involve one user: one with every other user, in one direction or the other. */
  function OffersWith(views: Views, others: set<UserUid>, x: UserUid): set<(UserUid, UserUid)>
    requires x in views
  {
    set v | v in others :: if v in views[x] then (x, v) else (v, x)
  }

  lemma OffersOfOne(views: Views, x: UserUid)
    requires OneWay(views) && x in views
    ensures Offers(views) == Offers(views - {x}) + OffersWith(views, views.Keys - {x}, x)
    ensures Offers(views - {x}) !! OffersWith(views, views.Keys - {x}, x)
  {
    var mine := OffersWith(views, views.Keys - {x}, x);
    forall u, v | (u, v) in Offers(views) ensures (u, v) in Offers(views - {x}) + mine {
      if u == x {
        assert v in views.Keys - {x};
      } else if v == x {
        assert u in views.Keys - {x} && u !in views[x];
      }
    }
    forall u, v | (u, v) in mine ensures (u, v) in Offers(views) && (u, v) !in Offers(views - {x}) {
    }
  }

  lemma {:induction false} OffersWithCount(views: Views, others: set<UserUid>, x: UserUid)
    requires x in views && x !in others
    ensures |OffersWith(views, others, x)| == |others|
    decreases others
  {
    if others != {} {
      var v :| v in others;
      var pair := if v in views[x] then (x, v) else (v, x);
      OffersWithCount(views, others - {v}, x);
      assert OffersWith(views, others, x) == OffersWith(views, others - {v}, x) + {pair};
      assert pair !in OffersWith(views, others - {v}, x);
    } else {
      assert OffersWith(views, others, x) == {};
    }
  }

  /** The number of unordered pairs of n things. */
  function PairsAmong(n: nat): nat {
    if n == 0 then 0 else PairsAmong(n - 1) + n - 1
  }

  lemma {:induction false} PairsAmongFormula(n: nat)
    ensures 2 * PairsAmong(n) == n * (n - 1)
  {
    if n > 0 {
      PairsAmongFormula(n - 1);
      assert (n - 1) * (n - 2) + 2 * (n - 1) == n * (n - 1);
    }
  }

  lemma {:induction false} CountOffers(views: Views)
    requires OneWay(views)
    ensures |Offers(views)| == PairsAmong(|views|)
    decreases |views|
  {
    if views == map[] {
      assert Offers(views) == {};
    } else {
      var x :| x in views;
      var rest := views - {x};
      assert rest.Keys == views.Keys - {x};
      assert |rest.Keys| == |views.Keys| - 1;
      assert |Offers(rest)| == PairsAmong(|rest|) by {
        CountOffers(rest);
      }
      assert |Offers(views)| == |Offers(rest)| + |rest.Keys| by {
        OffersOfOne(views, x);
        OffersWithCount(views, rest.Keys, x);
      }
    }
  }

  /** In a room of n members there are n(n-1)/2 offers: one for each pair. */
  lemma OffersFormFullMesh(cfg: Config, s: State, roomId: Uuid)
    requires Reachable(cfg, s)
    ensures var members := MembersOf(s.members, roomId);
            2 * |Offers(ViewsOf(s, members))| == |members| * (|members| - 1)
  {
    var members := MembersOf(s.members, roomId);
    var views := ViewsOf(s, members);
    forall u, v | u in members && v in members && u != v
      ensures v in views[u] <==> u !in views[v]
    {
      ExactlyOneInitiator(cfg, s, roomId, u, v);
    }
    forall u | u in members ensures u !in views[u] {
      ViewsAreJoinOrder(cfg, s, roomId, u, u, u);
    }
    CountOffers(views);
    assert |views| == |views.Keys| && views.Keys == members;
    PairsAmongFormula(|members|);
  }
}
