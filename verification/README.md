# VTNet: verified model

VTNet is a voice-room service. A server keeps, in memory and behind one lock, who is connected and who is in
which room; each WebSocket connection is served by a task that runs a challenge-response login and then handles
room messages, and by a writer that empties the connection's outbound queue. Clients keep a table of WebRTC peer
connections that they update from the messages of their stream. This project models that protocol in Dafny, from
the bytes a client signs to the whole system of server and clients, and proves what the system guarantees over every
run, in which tasks, writers and clients may interleave in any order.

`dafny verify dfyconfig.toml` checks everything.

## How the model is built

- `Protocol`, `Codec`, `Payload`, `Names`: the messages; Base64 (section 4 of RFC 4648) and big-endian numbers computed on
  bytes; the payload that clients sign; the names of guests.
- `Login`, `Authentication`, `Identity`, `Handshake`: the login state machine, as functions and as the object that
  updates its state in place; the client's stored identity and signer; both ends together. Ed25519 (RFC 8032) is a
  black box of four functions.
- `Rooms`, `RoomRegistries`, `Dispatch`, `ServerStates`: what the server does while it holds the lock. `Rooms` and
  `Dispatch` are functions on values; `RoomRegistries` and `ServerStates` hold the classes that mutate maps and
  queues, and each of their methods is proved to compute those functions.
- `Server`: the step system. One step is one region under the lock, one action of a task outside it, or one action
  of a writer. The reply to a login is queued after the lock has been given up, so other tasks can run between
  registration and `AuthSuccess`. `streams` holds everything ever sent to each outbound queue; `log` is the history
  of all sends.
- `Replay`: reading a stream back. `Standing` is what a recipient can reconstruct; `Admits` says which message may
  come next; `Legal` says that every message of a history was admissible when it was sent.
- `Presence`, `PresenceProofs`: the server as seen from its registered users, and the invariant of that view.
  `ServerProofs` shows that every step of the server is a transition of it or leaves it alone; `ServerHistory` adds
  the invariants about streams, login conversations and writers.
- `Guarantees`, `PresenceGuarantees`, `DeliveryGuarantees`, `LifecycleGuarantees`,
  `LoginGuarantees`: the results about every reachable state of the server.
- `PeerTable`, `Client`: the client's peer table, as functions and as the object that updates it.
- `Mesh`: the server composed with any number of clients. `PairProofs`, `LogProofs`, `ClientProofs`, `MeshProofs` and
  `MeshGuarantees` prove that nothing is lost between them, ending in the full-mesh theorem; `Work` and `Settling`
  rank everything that can be on its way and prove that it runs out; `MeshLogins` follows every client's login
  conversation, with the client's own signature in it, to its end; `ClientGuarantees` says what holds of each client in
  every run.

Assumptions of the composed system: frames and streams are delivered in order; the active room a client compares
messages with changes in the same step as the message that changes it (client/src/App.tsx:34-36 and 163 update it
one render later); an offer is completed unless its connection has been closed meanwhile; users act only once they
are welcomed, as the form and buttons of client/src/App.tsx:285-295 allow. Sending an offer or an answer makes its
connection gather any finite number of network candidates, each of which the client passes on at some later point or
drops; further candidates, as after a change of network, are acts of the client. Any write may fail and any connection
may break at any time. Only where the system is to come to rest does something have to happen: the input of a
connection must end sooner or later once its client has closed the socket or a write to it has failed.

The permission evaluator is arbitrary and stays the same during a run; the production evaluator
(server/src/main.rs:22-33) grants every action. A full mesh needs more than the power to join: where a member that
joined earlier may not signal, its offer to a later one is refused, and the later one never learns of it. The results
about clients therefore say for every evaluator which peers a client ends up with, and that this is the whole room if
and only if every member that owes it an offer may signal.

## Model

| member | source | states |
|---|---|---|
| Settling.WorkSettlesIntoFullMeshes | client/src/App.tsx:74-214 | from the end of any run, once no user acts, connects or disconnects any more, any schedule of tasks, writers and clients that does some work as long as something is due, candidates, failing writes and breaking connections included, comes to rest after finitely many steps; then every connected user's client has exactly the peers it can have, these are all other members of its room if and only if those that owe it an offer may signal, and every connection that was cleaned up has returned, with its whole stream on the socket unless a write to it failed |
| MeshLogins.WorkSettlesLogins | client/src/App.tsx:122-156 | at the same point every login is decided: a connection has ended, or it stands and its client is connected under its own identity and knows it, or could not sign its challenge; and a client that signs with its own key and was read in time has been registered, and is connected unless its connection has ended, or was refused in favour of another connection of the same identity |
| MeshLogins.SignersAreConnected | client/src/App.tsx:122-145 | at rest, a client whose connection stands has been heard, and if it can sign its challenge it has answered it, is connected and has handled its welcome |
| MeshLogins.MeshNextKeepsTalks | client/src/App.tsx:122-139 | every step of server and clients keeps every login conversation to the protocol: one identification, one challenge, at most one answer, which is what the client makes of that challenge, and nothing else before the welcome |
| MeshLogins.SignedAnswersAreGranted | server/src/auth.rs:113-140 | in such a conversation an answer signed with the client's own key and read in time is granted the client's own identity |
| LoginGuarantees.AcceptedLoginsAreSettled | server/src/main.rs:106-121 | in every reachable state an accepted login waits for the lock, is registered under its identity, or has its welcome replaced by a refusal because of another connection that has been registered under that identity |
| Settling.ProductionSettlesIntoFullMeshes | server/src/main.rs:22-33 | with the evaluator the server runs with, every connected user's client is then connected to exactly the other members of its room |
| Settling.WorkLowers | client/src/App.tsx:113-214 | every step of work removes something of its rank and brings nothing of that rank or above, on any connection: login replies, arrivals, offers, answers and candidates cannot give rise to each other for ever |
| Settling.StuckIsQuiet | server/src/main.rs:61-131 | where nothing is due, every connected user's task waits for frames with none unread, its running writer has written the whole stream, and its client has its socket open, has handled everything and has no handler left to finish |
| Settling.StuckIsDrained | server/src/main.rs:66-76 | where nothing is due, every connection that was cleaned up has returned, with its whole stream on the socket unless a write to it failed |
| MeshGuarantees.PeersAtQuiescence | client/src/App.tsx:158-206 | at any point of any run of server and clients, with others still acting, writes failing and connections breaking, whenever every connected user's socket is open, its stream is handled and no offer is pending or unread, each client is in the room the server has it in, and its peers are the members it has seen arrive and those of the others that may signal |
| MeshGuarantees.FullMeshAtQuiescence | client/src/App.tsx:158-206 | at any such point a client is connected to exactly the other members of its room if and only if every member that has seen it arrive may signal |
| MeshGuarantees.FullMeshInProduction | server/src/main.rs:22-33 | with the evaluator the server runs with, each client is then connected to exactly the other members of its room |
| MeshGuarantees.MeshNextKeepsMesh | client/src/App.tsx:113-214 | every step of any client, task or writer keeps: clients follow their streams, nobody connects to itself, every debt of an offer by a member that may signal is paid or on its way |
| MeshProofs.HandledInFlight | client/src/App.tsx:175-184 | handling any message never loses an offer: it stays, is started, or its peer's arrival is still to be handled |
| MeshProofs.DroppedInFlight | client/src/App.tsx:100-105 | a handler that gives up because its connection was closed takes no offer owed to a present peer with it |
| PairProofs.StepPair | server/src/main.rs:133-199 | whatever step the server takes, a pair that owes an offer owed it before, in the same room and without being forgotten, or its newcomer has just been announced |
| PairProofs.OfferIsRelayed | server/src/lib.rs:190-214 | an offer between two members of a room puts the sender into what the target can reconstruct |
| ClientProofs.HandleFollowsReplay | client/src/App.tsx:158-206 | the client's active room, the keys of its peer table and its status stay those of the replay of its stream, for every admissible message, a signal from itself included, as long as a welcome names the client's own identity |
| ClientProofs.StrayMessagesChangeNothing | client/src/App.tsx:158-213 | messages about a room the client is not in change nothing; entering or leaving any room empties the table |
| ClientProofs.PeersMaySignal | server/src/lib.rs:190-237 | whoever a stream makes a peer without announcing its arrival has the power to signal in the current room |
| ClientProofs.SeenSince | client/src/App.tsx:175-189 | a peer seen now and not seen at an earlier point has been announced in between, for the current room |
| Client.App.HandleServerMessage | client/src/App.tsx:113-214 | the in-place update of room, peer table and unfinished handlers is the function `PeerTable.HandleServerMessage` |
| Client.App.PeerConnection | client/src/App.tsx:74-98 | reuses the peer's connection or creates and records one; nothing else changes |
| Client.App.RemovePeer | client/src/App.tsx:100-105 | removes exactly that peer |
| Client.App.HandleClose | client/src/App.tsx:238-245 | a closed socket empties the table and forgets the room |
| ClientGuarantees.ClosedClientsAreEmpty | client/src/App.tsx:238-245 | in every run a client whose socket has closed has no peer connection, no room and is not connected |
| ClientGuarantees.HandlersAreConserved | client/src/App.tsx:122-201 | in every run the challenges a client received, the arrivals it was told of and the offers it was made, peer by peer, are as many as the signatures, offers and answers it has sent, is still making, or has given up |
| ClientGuarantees.ConnectionsAreNotReused | client/src/App.tsx:74-105 | in every run a connection that has left the table never comes back to it, and every connection in the table, and every one a handler works on, was made for its peer |
| ClientGuarantees.FrameCarries | client/src/App.tsx:80-198 | a finished handler's frame goes to its own peer, an offer for the room of the arrival, answers and candidates for the room the client is in, with the description, candidate or signature it was made with |
| PresenceGuarantees.PresenceIsExact | server/src/main.rs:142-176 | in every reachable state, folding the arrivals and departures of a user's stream from the members it found yields exactly the other members of its room, and nobody outside a room |
| PresenceGuarantees.ExactlyOneInitiator | server/src/main.rs:147-165 | of any two members of a room exactly one has seen the other arrive |
| PresenceGuarantees.PairFacts | server/src/main.rs:156-165 | a member has seen exactly those members arrive that joined after it, and no two joined at once |
| PresenceGuarantees.ViewsAreJoinOrder | server/src/main.rs:141-199 | having seen arrive is a strict order on the members: nobody sees itself or a stranger, and it is transitive |
| PresenceGuarantees.OffersFormFullMesh | server/src/main.rs:141-199 | in a room of n members there are n(n-1)/2 pairs in which one owes the other an offer |
| Guarantees.RegistryIsInverse | server/src/lib.rs:112-157 | in every reachable state the registry is the inverse of the sessions' active rooms, without empty rooms, and every member has the power to join |
| Guarantees.MembersAreConserved | server/src/lib.rs:295-315 | room entries are at most memberships, memberships equal the sessions in a room, and those are at most the connections |
| Guarantees.OneConnectionPerIdentity | server/src/main.rs:106-121 | the connection table and the live registered tasks are in bijection, each under its own identity |
| Guarantees.DuplicateLoginIsRefused | server/src/main.rs:108-114 | a login of a connected identity changes nothing but its own stream, which gets a refusal, and its own task, which ends |
| Guarantees.CleanUpRemovesOwnEntry | server/src/main.rs:187-189 | removal by identity removes exactly the entry of the connection that ends |
| Guarantees.StreamsAreProjections | server/src/main.rs:201-211 | every stream is the projection of the one log of sends |
| Guarantees.CommonOrder | server/src/main.rs:139-184 | two connections receive the sends that went to both in the same order, the order of the log, each send at its own place in either stream |
| Guarantees.EveryMessageWasSentOnce | server/src/main.rs:201-211 | every message of a stream stands at the place of exactly one send of the log |
| Guarantees.StreamIsLegal | server/src/main.rs:81-199 | every message of every stream was admissible for its recipient when it was sent |
| Guarantees.RoomScoping | server/src/lib.rs:122-156 | every peer, text and signal message names the room of the latest `VoiceRoomJoined`; none comes outside a room; a room is entered only from elsewhere and left only from inside |
| Guarantees.StreamGrammar | server/src/main.rs:94-123 | a stream is login replies, then at most one welcome, then room messages only, whatever runs between registration and the welcome |
| Guarantees.CausalDelivery | server/src/lib.rs:159-293 | at every position, texts and signals come from members the recipient knows to be present (signals possibly from itself), arrivals are news, departures are of members present, all with the power and the name they have |
| DeliveryGuarantees.EffectReachesStreams | server/src/main.rs:133-185 | a room message sends every connected user exactly its share of the effect, in order, and touches no other task or stream |
| DeliveryGuarantees.TextReachesEachOtherMemberOnce | server/src/lib.rs:167-189 | an accepted text is appended once to the stream of every other member and to no other; a refused one changes nothing |
| DeliveryGuarantees.SignalReachesItsTargetOnly | server/src/lib.rs:190-237 | an accepted SDP or ICE message is appended unchanged, under the sender's verified identity, to its target's stream only, which may be the sender's; a refused one changes nothing |
| DeliveryGuarantees.IdleMessagesChangeNothing | server/src/lib.rs:118-123 | denied joins, joins of the current room and leaves of another room leave the whole server as it was |
| DeliveryGuarantees.SwitchDecomposes | server/src/lib.rs:124-134 | a switch leaves the registry, all tasks and all other streams as a leave followed by a join does; the switcher only misses its `VoiceRoomLeft` |
| LifecycleGuarantees.WelcomesAnswerChallenges | server/src/main.rs:99-123 | every welcome in a stream answers the one challenge open on that connection, in time and with a signature valid for exactly it, and names the identity that was challenged |
| LifecycleGuarantees.SocketGetsPrefix | server/src/main.rs:66-76 | the socket has a prefix of the stream, all of it once the writer has ended by itself; a connection has no sender left exactly when it is cleaned up |
| LifecycleGuarantees.StreamIsFrozen | server/src/main.rs:126-130 | after clean-up nothing is added to the stream, whatever else the server does |
| LifecycleGuarantees.DrainProgress | server/src/main.rs:66-76 | in every run after clean-up in which no write of the connection fails, whatever else the server does, the socket has what it had and one message more for each write of the run, up to the whole stream, which does not change |
| LifecycleGuarantees.DrainNeverBlocks | server/src/main.rs:129-130 | until it has drained, a cleaned-up connection to which no write has failed can always take a step of its own |
| LifecycleGuarantees.DrainTerminates | server/src/main.rs:129-130 | every such run with as many writes as there were messages left, then a look for senders, then the return, with any steps in between, ends the task with the whole stream on the socket |
| ServerHistory.NextKeepsHeard | server/src/main.rs:99-123 | every step keeps: a stream begins with the replies to its connection's login messages, up to a withheld welcome |
| ServerHistory.OthersWhileReplying | server/src/main.rs:116-123 | between registration and its welcome a connection is sent nothing by any step of another task |
| ServerHistory.StreamStep | server/src/main.rs:66-130 | no step shortens a stream; only its own task adds to the stream of an unregistered connection |
| ServerProofs.NextKeepsState | server/src/main.rs:61-199 | every step keeps the server's invariant: table, tasks and presence |
| ServerProofs.RoomMessageLobby | server/src/main.rs:133-185 | a room message of one task is one transition of the users' view, whatever queues the table holds |
| ServerProofs.CleanUpLobby | server/src/main.rs:187-199 | a disconnect removes exactly its user from the users' view and tells the others |
| PresenceProofs.RoomEventKeepsLobby | server/src/main.rs:141-184 | joins, switches, leaves, texts and signals keep registry, replays and join order in agreement |
| PresenceProofs.RemoveKeepsLobby | server/src/main.rs:187-199 | so does a disconnect |
| PresenceProofs.RoomEventCases | server/src/main.rs:140-184 | every message of a logged-in user is without effect, an entry, an exit or a relay |
| Rooms.JoinCommutes | server/src/lib.rs:112-142 | joining is an update of the partial function from users to rooms; a denied join changes nothing |
| Rooms.TransitionsNamePlaces | server/src/lib.rs:46-52 | the transition answered names the rooms the user was in before and is in afterwards, for joins, switches, leaves and requests without effect |
| Rooms.PowerDecidesJoins | server/src/lib.rs:70-72 | a join is admitted if the user's power reaches the power required, equality included, and otherwise denied without effect |
| Rooms.MovesAffectOneUser | server/src/lib.rs:112-157 | whatever the registry holds, joins and leaves move the one user from the room of its session and touch no other membership |
| Rooms.RoutingDecides | server/src/lib.rs:159-285 | exactly when a text or signal is routed, to whom, and which of the four errors is answered otherwise, in the powers and memberships themselves |
| Rooms.LeaveCommutes | server/src/lib.rs:144-157 | leaving removes the user from that function; a stale leave changes nothing |
| Rooms.SwitchIsLeaveThenJoin | server/src/lib.rs:124-134 | switching rooms is leaving one and joining the other |
| Rooms.WithMemberCommutes | server/src/lib.rs:295-300 | adding a member is one new entry of the partial function |
| Rooms.WithoutMemberCommutes | server/src/lib.rs:302-315 | removing a member, and the room when it was the last, is removing one entry |
| Rooms.InverseIsUnique | server/src/lib.rs:302-315 | a registry without empty rooms is determined by who is where |
| Rooms.InverseIsInjective | server/src/lib.rs:40-43 | the registry determines who is where |
| Rooms.InverseConservesMembers | server/src/lib.rs:295-315 | the room sets together have as many members as there are users in rooms, and there are no more rooms than that |
| RoomRegistries.RoomRegistry.JoinVoiceRoom | server/src/lib.rs:112-142 | the in-place update of registry and session, and the result, are those of `Rooms.JoinVoiceRoom` |
| RoomRegistries.RoomRegistry.LeaveVoiceRoom | server/src/lib.rs:144-157 | likewise for leaving |
| RoomRegistries.RoomRegistry.AddMember | server/src/lib.rs:295-300 | one more member of one room, created if it was missing |
| RoomRegistries.RoomRegistry.RemoveMember | server/src/lib.rs:302-315 | one member less, and no empty room |
| ServerStates.ServerState.SendToUsers | server/src/main.rs:201-211 | every connected recipient's queue gets the message once, in whatever order the recipients come; other queues are unchanged |
| ServerStates.ListUsers | server/src/main.rs:143-148 | lists a set in some order, each element once |
| ServerStates.ServerState.Register | server/src/main.rs:106-121 | registers an identity that is not connected, refuses any other on its own queue |
| ServerStates.ServerState.HandleAuthenticatedMessage | server/src/main.rs:133-185 | rooms, session and queues end as the function `Dispatch.HandleAuthenticatedMessage` says |
| ServerStates.ServerState.HandleJoin | server/src/main.rs:141-166 | the join branch, with recipients captured before the transition |
| ServerStates.ServerState.HandleLeave | server/src/main.rs:167-176 | the leave branch |
| ServerStates.ServerState.DisconnectSession | server/src/main.rs:187-199 | the entry is gone and its queue unchanged, the room is left through a copy of the session, the others are told |
| Login.LoginSucceedsExactly | server/src/auth.rs:82-143 | a login succeeds if and only if its message answers the open challenge in time with a valid signature; the reply names the challenged identity |
| Login.EveryReplyExactly | server/src/auth.rs:82-143 | every reply of every conversation: while a challenge is open, a welcome to an answer read within five seconds and signed for it, `RequestExpired` to a later one, `InvalidCredentials` to anything else; otherwise a challenge to an identification with version 1, `UnsupportedProtocolVersion` to another version, `InvalidCredentials` to anything else |
| Login.OpenChallenge | server/src/auth.rs:82-143 | the authenticator's state is exactly the open challenge of the conversation so far; it survives everything but a response |
| Login.OpenChallengeIsUnique | server/src/auth.rs:89-115 | at most one challenge is open at a time |
| Login.ChallengesAreUsedOnce | server/src/auth.rs:113-115 | no challenge is good for two logins |
| Login.ChallengeAccounting | server/src/auth.rs:82-143 | challenges issued less responses that consumed one is 0 or 1, and 1 exactly while one is open |
| Names.DefaultNameReads | server/src/auth.rs:169-172 | a default name is `Guest-` and eight hexadecimal digits that read as the first four bytes of the key |
| Names.DefaultNamesAgreeExactly | server/src/auth.rs:169-172 | two identities share their default name if and only if the first four bytes of their keys agree |
| Authentication.ConnectionAuthenticator.HandleMessage | server/src/auth.rs:82-143 | new state and result are those of `Login.HandleMessage` |
| Authentication.ConnectionAuthenticator.TakeAuthenticatedSession | server/src/auth.rs:69-80 | hands the session over once and starts again |
| Payload.BuildAuthSignaturePayload | shared/src/lib.rs:13-33 | the buffer filled part by part is the canonical payload of 87 bytes |
| Payload.PayloadLayout | shared/src/lib.rs:9-33 | what stands where in the 87 bytes: the separator in ASCII, then version, nonce, timestamp and key |
| Payload.PayloadIsExact | shared/src/lib.rs:9-33 | a decoder recovers version, nonce, timestamp and key from every payload and accepts nothing else |
| Payload.PayloadIsInjective | shared/src/lib.rs:9-33 | different claims have different payloads |
| Codec.Base64IsExact | server/src/auth.rs:149-151 | a text decodes to some bytes if and only if it is their encoding: padded, canonical Base64 |
| Codec.SextetsAreTableOne | shared/src/lib.rs:45 | the alphabet of standard Base64, in ASCII codes |
| Codec.BlockReadsAsItsBytes | shared/src/lib.rs:45 | four characters read in base 64 are the three bytes read in base 256 |
| Codec.EncodedLength | server/src/auth.rs:106 | the length of encoded text |
| Codec.BigEndianRoundTrip | shared/src/lib.rs:28-30 | numbers are recovered from their big-endian bytes |
| Codec.BigEndianIsCanonical | shared/src/lib.rs:28-30 | bytes are recovered from the number they stand for |
| Codec.FourBytesRead | shared/src/lib.rs:28-30 | the most significant byte comes first |
| Codec.UidTextIsExact | shared/src/lib.rs:40-62 | a text reads as an identity if and only if it is how that identity is written |
| Codec.UidTextErrors | shared/src/lib.rs:54-58 | every other text is refused as no Base64 at all, or as Base64 of the wrong number of bytes |
| Identity.IdentityStore.LoadOrCreate | client/src-tauri/src/identity.rs:54-82 | cache, keyring, then a new seed saved before use; errors leave the cache alone |
| Identity.LoadsOrCreatesExactly | client/src-tauri/src/identity.rs:54-82 | a cached seed is used as it is; otherwise the seed is the one whose text is stored, or with no entry the one drawn, whose text is saved; what stands in the way is the error; the entry changes only when a seed is drawn |
| Identity.IdentityStore.SignAuthChallenge | client/src-tauri/src/identity.rs:38-52 | signs exactly the canonical payload of the request with the stored seed |
| Identity.IdentityIsStable | client/src-tauri/src/identity.rs:54-82 | once an identity has been used, every later use has the same, whatever happens to the keyring; and one that was saved is found again |
| Identity.SecretTextIsExact | client/src-tauri/src/identity.rs:84-101 | seeds and nonces decode exactly from the encodings of 32 bytes |
| Identity.SecretTextErrors | client/src-tauri/src/identity.rs:84-101 | every other text is refused as no Base64 at all, or as Base64 of the wrong number of bytes |
| Handshake.HandshakeCompletesExactly | client/src-tauri/src/identity.rs:40-52 | for every seed, nonce and timestamp, the client's answer is accepted if and only if it is read within five seconds and the client saw the timestamp the server sent; it then yields the client's own identity |
| Handshake.HandshakeSurvivesJavaScript | client/src/App.tsx:122-138 | given that a JavaScript number keeps timestamps below 2^53 as they are, an answer in time to a challenge with such a timestamp yields a session of the client's own identity |
| Handshake.SignaturesAreForTheirClaims | client/src-tauri/src/identity.rs:40-52 | the client's signature of a challenge verifies for exactly the version, nonce, timestamp and key it was made for |
| Handshake.AnswersAreNotTransferable | server/src/auth.rs:145-167 | a signature that binds one message is accepted for two challenges only if version, nonce, timestamp and key agree |

## Left out

- axum and tokio setup, TCP, WebSocket framing, the frame-size limit and JSON encoding (server/src/transport.rs): messages are datatypes; a frame that does not decode, a close frame and a broken connection are all the step `EndOfInput`; frames that are ignored are no step. A failed write or encoding is `WriteNext` without success.
- The writer's pop from the channel and its write to the socket are one step, and dropping the task's own sender is part of the clean-up step: nothing else can observe the points in between.
- Ed25519 itself, random nonces and seeds, the clocks and the operating system's keyring: parameters of the functions and steps. The login clock counts nanoseconds and may go backwards.
- AnswersAreNotTransferable: assumes of the one signature at hand that it verifies under one key and message only, since no signature scheme can have that of all byte strings.
- HandshakeSurvivesJavaScript: what JavaScript does to timestamps of 2^53 and above is not modelled; `HandshakeCompletesExactly` says that any change makes the login fail.
- WorkSettlesIntoFullMeshes: the schedule must go on while there is something to do, so handlers whose asynchronous calls never return and connections that gather candidates without end are not covered, nor is any bound on the time taken.
- FullMeshAtQuiescence: every connection has a client state of its own. In the application the handlers still pending when a socket closes outlive it, and `sendMessage` (client/src/App.tsx:43-47) uses whatever socket is current when they finish, so an old offer, answer, candidate or signature can go out on a new connection; that is not modelled.
- WorkSettlesLogins: of the connection in whose favour a login was refused it is only remembered that it has been registered under the identity; that it is in the table at the moment of the refusal is `DuplicateLoginIsRefused`. Timestamps of 2^53 and above are excluded as for the handshake.
- FullMeshAtQuiescence: connections are numbered keys of the table; SDP and ICE contents, signalling states, the `track` event, audio elements and the microphone are not modelled. Candidates are taken to be objects, as the client requires before it creates a connection for one.
- FullMeshAtQuiescence: the clients of the model can do more than the real ones: send candidates for any room, describe their connections by any text, join, leave and write for any room, drop their answers. An answer that finishes after the room was left is not sent; the real client would send it without a room, which the server cannot decode and answers by ending the connection, a step any connection may take.
- Text content is any string: the limit of 4 KiB and the check for blank text (shared/src/lib.rs:98-110) are applied while decoding.
- Display names other than the default, the list of chat messages, forms, rendering, muting and status lines.
- Documented and not implemented, so not modelled: rate limiting, role tables, close codes, the database schema, encrypted rooms, wiping of keys. Where documents and code differ in names or encodings, the code is followed.
