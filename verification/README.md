# Round: room signaling and peer sessions, verified

A Dafny model of the parts of Round that many threads and browser callbacks touch at once, with proofs
of what they keep. `dafny verify dfyconfig.toml` checks everything.

Round is a video room for a few people. A signaling server admits connections, keeps the rooms and
passes messages on; the clients connect to each other, negotiate, chat over data channels and share
their screens.

## What is modelled

**The signaling server** (`SignalingState` to `SignalingService`). Each section that a thread runs under
the monitor of `SignalingService` is one step, written as a function on a state in `SignalingState` and
`SignalingEvents`: admission, connecting, all messages, sweeps, closes, and the three sections of a
drain, between which a send is under way. A run is any sequence of steps, so it is any interleaving of
threads. Queueing a frame can find a queue full or a lease expired; that closes a connection, which tells
the others, which can close more. This cascade is the work list of `enqueueAllLocked`, modelled as it
is. The state keeps, as a log, every frame ever queued for and handed to each session; `Frames` says what
a client believes that reads such a log. Another log says what became of the timers of rooms that were
left; `SignalingParking` says from it which timers come back. The class `SignalingService` has the fields and loops of the
original, and each method is proved equal to the function of its section. `OutboundDispatcher`,
`ConnectionAdmission`, `InboundLimiter`, `RoomStudyState` and `RoomHandQueue` are its parts, each as
functions, lemmas and a class.

**Rate limits** (`FixedWindow`, `LateWindow`, `InboundHistory`, `InboundCapacity`, `TurnIssuanceLimiter`,
`TurnHistory`, `TurnSharing`). What the two fixed-window limiters let through over whole histories, exactly
when their bounds hold, and how exact Retry-After is. TURN requests read the clock before they take the
lock; how far an instant may lie behind one handled before is a parameter.

**Negotiation** (`PeerConnectionLifecycle`, `PeerNegotiation` and the modules after it). An async handler
is cut at its awaits; each piece is a step, and a suspended handler is a task that may go on at any later
time, on a connection that has been replaced since. What the room session does about a connection that
fails is modelled too: after an answer that cannot be given, it closes the connection and refuses the
signals of that participant. The object with the negotiation ids is a class as well.

**Chat** (`ChatReceiving`, `RoomChat`, `ChatDelivery`, `ChatEffects`, `ChatTimes`, `ChatEndToEnd` and the
classes `RoomChatLedger` and `PeerDataChannel`). Sending, retrying and acknowledging across the ledger and
the queues of all recipients, how late a copy can leave, and how long the two memories of received ids
keep a repeated chat from being shown twice.

**Screen sharing** (`ScreenShare` and the modules after it). Start, rollback and stop wait for one sender
after the other while participants come, go and are replaced; again every piece between two awaits is a
step, and the object is a class.

Results of the environment are parameters that may have any value: the length of a frame, whether a
lease has expired, whether a send or a `replaceTrack` succeeds, which candidates are gathered.

## What the proofs assume

- Frames have positive length: `inFlightBytes == 0` means that nothing is being sent.
- Clocks do not go back, timers do not fire early, and new ids are new. How late timers run is a
  parameter of the theorems about chat; its participants read one clock.
- A connection of the client fails only after the browser has taken a remote description. Where it
  matters, a theorem says that the other side does not offer under an id this side has made up.
- The limits satisfy what SignalingProperties and TurnProperties validate.

## Where the code does not do what one might expect

- Retry-After is exact only if the clock was read after the windows behind the refusal were opened. The
  instant is read before the lock is taken, so it can be older (`EarlyReaderIsToldTooLittle`);
  `RetryAfterIsExact` is the exact condition.
- A client that leaves can be evicted to make room, and comes back with a fresh allowance. So it is held
  to twice its limit exactly while no more clients connect than the table has room for
  (`TwiceExactlyWithRoom`, `AcceptedTwiceExactlyWithRoom`).
- A timer of a queued chat may run late, and until it has run a flush sends the chat. So copies can leave
  later than the retry deadline and one timeout, by exactly as much as timers can be late
  (`BoundIsExact`, with `LateCopy`).
- A TURN request that gets its instant first can get the lock second. Then a window can open before the
  former would have ended, and a span of one window can serve more than twice a limit (`AtMostTwice`), or
  the server can refuse a client although the others took no more than what is beyond twice its limit
  (`TwiceIsEnoughExactly`).
- Candidates that `#replacePeer` preserves are always dropped when the replacement takes its first id
  (`InheritedCandidatesAreDropped`).

## Model

| member | source | states |
|---|---|---|
| `SignalingRuns.ViewsAreExact` | apps/signaling/src/main/java/com/personal/round/signaling/SignalingService.java:541-564 | Whatever happens (overflow cascades, expired leases, takeovers, shutdown), a connected member that reads the frames queued for it in order knows exactly the other members of its room, the current hand queue and the current timer (its revision, topic, mode and duration) if it was told of them; no session, connected or closed, was ever told that somebody left who was not announced to it, that somebody it knows has joined again, or anything of a room it is not in |
| `SignalingRuns.FramesInOrder` | apps/signaling/src/main/java/com/personal/round/signaling/SignalingOutboundDispatcher.java:129-167 | Each session is drained by at most one thread; what was handed to it is a prefix of what was queued for it; while it is connected the rest is on its queue in order, with a drain to serve it; a closed session has no frame left on its queue |
| `SignalingRuns.BytesAreAccounted` | apps/signaling/src/main/java/com/personal/round/signaling/SignalingOutboundDispatcher.java:91-181 | In every interleaving of enqueueing, sending, failing and disconnecting, the global counter is the sum of all queues, each queue counts its frames and the one being sent, a closed session only the latter, and the per-session byte, 256-frame and global limits hold |
| `SignalingRuns.ReservationsAreConserved` | apps/signaling/src/main/java/com/personal/round/signaling/ConnectionAdmissionPolicy.java:39-129 | The admission counters count exactly the handshakes under way, the connections, and the superseded sessions whose close has not returned; all four limits hold; each of the latter sessions has exactly one close outstanding |
| `SignalingRuns.RoomsAreWellFormed` | apps/signaling/src/main/java/com/personal/round/signaling/SignalingService.java:510-565 | A connection is in a room exactly if the room lists it; no room is empty or too big; a person is in a room at most once; hand queues hold announced members once each; timers belong to rooms, parked ones (at most 1,000, one per room) to rooms that do not exist; whoever is in a room has been announced |
| `SignalingRuns.CapacityAlwaysFollows` | apps/signaling/src/main/java/com/personal/round/signaling/SignalingInboundLimiter.java:46-58 | Whichever handshake is the next to connect, the assertion in `retain` holds |
| `SignalingRuns.AssertionHolds` | apps/signaling/src/main/java/com/personal/round/signaling/SignalingService.java:155-186 | When a connection is about to be made, the client table has room once expired and inactive entries are gone, because reservations, connections and table entries agree |
| `SignalingRuns.NextOk` | apps/signaling/src/main/java/com/personal/round/signaling/SignalingService.java:78-99 | Every section that any thread runs under the monitor, at any time and in any order, keeps all invariants of the server |
| `SignalingRuns.RunOk` | apps/signaling/src/main/java/com/personal/round/signaling/SignalingService.java:78-99 | Every run, that is every interleaving of such sections from the start of the server, keeps all invariants |
| `SignalingRuns.ConnectOk` | apps/signaling/src/main/java/com/personal/round/signaling/SignalingService.java:155-186 | Connecting keeps all invariants: the reservation moves from the handshake to the connection, and the client table counts it |
| `SignalingRuns.AcceptOk` | apps/signaling/src/main/java/com/personal/round/signaling/SignalingService.java:198-224 | Counting an inbound frame, and closing a session that exceeds its own limit, keeps all invariants |
| `SignalingRuns.HeartbeatOk` | apps/signaling/src/main/java/com/personal/round/signaling/SignalingService.java:295-332 | A heartbeat sweep keeps all invariants, even if it closes connections it has yet to visit |
| `SignalingRuns.SweepAllOk` | apps/signaling/src/main/java/com/personal/round/signaling/SignalingService.java:335-357 | The sweep of sessions that have not joined keeps all invariants, whoever it closes on the way |
| `SignalingRuns.CloseReturnedOk` | apps/signaling/src/main/java/com/personal/round/signaling/SignalingService.java:1050-1062 | When a close returns, the reservation of a superseded session is given back and everything is kept |
| `SignalingRuns.DrainFailsOk` | apps/signaling/src/main/java/com/personal/round/signaling/SignalingService.java:1064-1073 | A failed send closes its session and keeps everything |
| `SignalingRuns.StopOk` | apps/signaling/src/main/java/com/personal/round/signaling/SignalingService.java:1092-1118 | Stopping leaves no connection, gives all their reservations back, and keeps everything |
| `SignalingDelivery.EnqueueAllKeeps` | apps/signaling/src/main/java/com/personal/round/signaling/SignalingService.java:961-974 | The work list ends, and however many connections it closes on the way, every invariant holds at its end with nothing left to tell; who stays connected is not changed |
| `SignalingDelivery.EnqueueAllInduction` | apps/signaling/src/main/java/com/personal/round/signaling/SignalingService.java:961-974 | Whatever one frame of the work list keeps, the whole list keeps; it terminates on (connections, length of the list) |
| `SignalingDelivery.EnqueueOneKeeps` | apps/signaling/src/main/java/com/personal/round/signaling/SignalingService.java:976-1014 | Dealing with one frame, with everything it closes and all it adds to the list, keeps every invariant |
| `SignalingDelivery.RefusedExactlyWhen` | apps/signaling/src/main/java/com/personal/round/signaling/SignalingService.java:976-1014 | A frame for a connected session is refused, and the session closed, exactly if its lease has expired, its queue has no room, or the global limit is exceeded and the session is among the victims or the frame does not fit beside the frames being sent |
| `SignalingCascade.CloseVictimsInduction` | apps/signaling/src/main/java/com/personal/round/signaling/SignalingService.java:995-1002 | Whatever closing one connection keeps, closing the victims keeps; the target survives exactly if it is not among them |
| `SignalingCascade.CloseVictimsKeepsInv` | apps/signaling/src/main/java/com/personal/round/signaling/SignalingService.java:995-1002 | Closing the victims keeps every invariant of the server, given the notices it adds to the list; the target survives exactly if it is not among them |
| `SignalingCascade.CloseKeepsInv` | apps/signaling/src/main/java/com/personal/round/signaling/SignalingService.java:786-831 | Disconnecting and closing one connection keeps every invariant, given the notices it adds to the list; a superseded session keeps its reservation until its close returns |
| `SignalingCascade.DisconnectKeepsInv` | apps/signaling/src/main/java/com/personal/round/signaling/SignalingService.java:786-806 | Disconnecting a session that has closed by itself keeps every invariant, given the notices it adds to the list |
| `SignalingRooms.RemoveKeepsViews` | apps/signaling/src/main/java/com/personal/round/signaling/SignalingService.java:872-916 | Removing a member brings the view of everybody else up to date, through the notices it leaves |
| `SignalingRooms.RemoveKeepsHouse` | apps/signaling/src/main/java/com/personal/round/signaling/SignalingService.java:872-916 | Removing a member keeps the rooms, hand queues and timers well formed, whether or not it stays connected |
| `SignalingRooms.ParkKeeps` | apps/signaling/src/main/java/com/personal/round/signaling/SignalingService.java:854-862 | Parking a timer keeps at most 1,000 of them, one per room, none for a room that exists |
| `Frames.BroadcastFor` | apps/signaling/src/main/java/com/personal/round/signaling/SignalingService.java:928-938 | A broadcast reaches every member but the excluded one exactly once, and nobody else |
| `SignalingJoin.JoinOk` | apps/signaling/src/main/java/com/personal/round/signaling/SignalingService.java:473-565 | Joining keeps every invariant on all its paths: refusals, a full room, giving way to a newer session, taking over from an older one, and being closed by the own welcome |
| `SignalingJoin.EnterOk` | apps/signaling/src/main/java/com/personal/round/signaling/SignalingService.java:541-565 | Entering a room that is not full keeps every invariant, the view of the newcomer and of everybody else included, even if one of its frames closes somebody |
| `SignalingJoin.RestoreKeepsStudies` | apps/signaling/src/main/java/com/personal/round/signaling/SignalingService.java:864-870 | Bringing a parked timer back to a room, which somebody then enters, keeps timers well formed and changes no other |
| `SignalingTakeover.OlderGivesWay` | apps/signaling/src/main/java/com/personal/round/signaling/SignalingService.java:510-525 | When somebody joins a room where another session of the same person is, exactly the session with the lower connection sequence is superseded, whichever of the two is joining; otherwise nobody is |
| `SignalingTakeover.TimerSurvivesTakeover` | apps/signaling/src/main/java/com/personal/round/signaling/SignalingService.java:516-526 | Joining never changes the timer of the room, not even by taking over from its only member |
| `SignalingParking.TimerComesBack` | apps/signaling/src/main/java/com/personal/round/signaling/SignalingService.java:854-870 | After any run, when somebody enters a room that nobody is in, its timer comes back if and only if the last that happened to it is that it was parked, less than ten minutes ago, nobody has entered the room and the server has not stopped since, and at no time since were a thousand newer timers parked; it is the timer that was parked |
| `SignalingParking.DepartureIsTheLastWord` | apps/signaling/src/main/java/com/personal/round/signaling/SignalingService.java:893-902 | When the last member goes, the last that happened to the timer of the room is that it was parked, or that it was dropped because the member left by request |
| `SignalingParking.Placed` | apps/signaling/src/main/java/com/personal/round/signaling/SignalingService.java:854-862 | A parked timer that is young and not crowded out is in the list, and behind it exactly the timers of the rooms left behind since that nobody has come back to |
| `SignalingParking.CrowdedOut` | apps/signaling/src/main/java/com/personal/round/signaling/SignalingService.java:859-861 | A timer that had a thousand newer ones behind it at any time is gone, whatever has happened since |
| `SignalingMessages.LeaveOk` | apps/signaling/src/main/java/com/personal/round/signaling/SignalingService.java:581-588 | Leaving keeps every invariant |
| `SignalingMessages.HandOk` | apps/signaling/src/main/java/com/personal/round/signaling/SignalingService.java:641-652 | A hand update keeps every invariant: who was told of the queue knows the current one |
| `SignalingMessages.StudyOk` | apps/signaling/src/main/java/com/personal/round/signaling/SignalingService.java:654-671 | A study command keeps every invariant: who was told of the timer knows the current one |
| `SignalingMessages.ForwardOk` | apps/signaling/src/main/java/com/personal/round/signaling/SignalingService.java:590-625 | Passing a message on keeps every invariant |
| `SignalingMessages.CloseNowOk` | apps/signaling/src/main/java/com/personal/round/signaling/SignalingService.java:808-831 | Closing a connection removes it, changes nobody who stays, and keeps every invariant |
| `SignalingMessages.CheckLeaseOk` | apps/signaling/src/main/java/com/personal/round/signaling/SignalingService.java:758-784 | Looking at a lease keeps every invariant and changes nobody who stays; if it has expired the connection is gone |
| `SignalingMessages.DisconnectOk` | apps/signaling/src/main/java/com/personal/round/signaling/SignalingService.java:359-365 | The end of a connection keeps every invariant and changes nobody who stays |
| `SignalingEffects.EverythingDueIsQueued` | apps/signaling/src/main/java/com/personal/round/signaling/SignalingService.java:961-974 | For a connection that survives the cascade, every frame of the work list is queued, in order |
| `SignalingEffects.RelayIsDelivered` | apps/signaling/src/main/java/com/personal/round/signaling/SignalingService.java:590-604 | A message to another member of the room is queued for it if it survives |
| `SignalingEffects.CascadeCloses` | apps/signaling/src/main/java/com/personal/round/signaling/SignalingService.java:1016-1023 | Every connection that a cascade drops gets its close |
| `SignalingEffects.ClosingCloses` | apps/signaling/src/main/java/com/personal/round/signaling/SignalingService.java:808-845 | Closing a connection removes it, and schedules the close of it and of every other that is dropped because of it |
| `SignalingEffects.JoiningGetsIn` | apps/signaling/src/main/java/com/personal/round/signaling/SignalingService.java:510-565 | A permitted join gets a connection that survives it into the room with its role, exactly unless the room is full; who takes over always finds a place |
| `SignalingEffects.LeavingGetsOut` | apps/signaling/src/main/java/com/personal/round/signaling/SignalingService.java:581-588 | Whoever leaves is in no room afterwards |
| `SignalingEffects.HandIsTaken` | apps/signaling/src/main/java/com/personal/round/signaling/SignalingService.java:641-652 | Raising or lowering a hand puts it in or out of the queue as long as its owner stays, whoever else is closed |
| `SignalingEffects.CommandIsTaken` | apps/signaling/src/main/java/com/personal/round/signaling/SignalingService.java:654-671 | The command of a host is applied to the timer of the room, nobody else's is |
| `SignalingEffects.HandshakeConnects` | apps/signaling/src/main/java/com/personal/round/signaling/SignalingService.java:155-186 | A handshake becomes a connection, the next one, exactly if its lease has not expired and the server runs; otherwise it keeps its reservation to give back |
| `SignalingEffects.SweepCloses` | apps/signaling/src/main/java/com/personal/round/signaling/SignalingService.java:335-357 | A sweep leaves no connection that it found to have waited too long |
| `SignalingEffects.HeartbeatCloses` | apps/signaling/src/main/java/com/personal/round/signaling/SignalingService.java:295-332 | A heartbeat leaves no connection whose answer is overdue |
| `SignalingEffects.ExcessCloses` | apps/signaling/src/main/java/com/personal/round/signaling/SignalingService.java:198-224 | A frame closes its session exactly if the lease has expired or the session exceeds its own limits |
| `SignalingHolds.CapacityFollowsAdmission` | apps/signaling/src/main/java/com/personal/round/signaling/SignalingInboundLimiter.java:95-102 | While a handshake is under way, evicting inactive entries leaves room for its client |
| `SignalingHolds.ActiveAtMostConnected` | apps/signaling/src/main/java/com/personal/round/signaling/SignalingInboundLimiter.java:46-62 | There are no more active clients than connections |
| `SignalingHolds.RoomForHandshake` | apps/signaling/src/main/java/com/personal/round/signaling/ConnectionAdmissionPolicy.java:49-52 | There are fewer connections than the server allows while a handshake is under way |
| `SignalingHolds.DisconnectReleases` | apps/signaling/src/main/java/com/personal/round/signaling/SignalingService.java:786-806 | A disconnect gives the reservation back at once |
| `SignalingHolds.SupersedeKeeps` | apps/signaling/src/main/java/com/personal/round/signaling/SignalingService.java:815-831 | A superseded session keeps its reservation, now waiting for its close |
| `SignalingHolds.CleanupReleases` | apps/signaling/src/main/java/com/personal/round/signaling/SignalingService.java:1050-1062 | When that close returns, the reservation is given back |
| `SignalingHolds.ConnectTransfers` | apps/signaling/src/main/java/com/personal/round/signaling/SignalingService.java:172-184 | A new connection takes the reservation over from its handshake |
| `SignalingHolds.AbandonReleases` | apps/signaling/src/main/java/com/personal/round/signaling/SignalingService.java:191-195 | A handshake that fails gives its reservation back |
| `SignalingCascade.ScheduleKeeps` | apps/signaling/src/main/java/com/personal/round/signaling/SignalingService.java:833-845 | At most one close of a session is in progress, and its action is the only one outstanding |
| `SignalingWire.PutKeepsWire` | apps/signaling/src/main/java/com/personal/round/signaling/SignalingOutboundDispatcher.java:91-102 | Queueing a frame that fits keeps queues, drains and logs in step |
| `SignalingWire.TakeKeepsWire` | apps/signaling/src/main/java/com/personal/round/signaling/SignalingOutboundDispatcher.java:132-154 | Taking a frame, or ending the drain, keeps queues, drains and logs in step |
| `SignalingWire.SentKeepsWire` | apps/signaling/src/main/java/com/personal/round/signaling/SignalingOutboundDispatcher.java:161-181 | Returning from a send keeps queues, drains and logs in step |
| `SignalingWire.FailedKeepsWire` | apps/signaling/src/main/java/com/personal/round/signaling/SignalingOutboundDispatcher.java:158-165 | The end of a drain whose send has failed keeps queues, drains and logs in step |
| `SignalingWire.ClearKeepsWire` | apps/signaling/src/main/java/com/personal/round/signaling/SignalingOutboundDispatcher.java:104-118 | Disconnecting a session keeps queues, drains and logs in step; only the frame being sent is left |
| `SignalingService.SignalingService.constructor` | apps/signaling/src/main/java/com/personal/round/signaling/SignalingService.java:101-131 | The service starts with no connection, room or reservation |
| `SignalingService.SignalingService.RemovePeerFromRoom` | apps/signaling/src/main/java/com/personal/round/signaling/SignalingService.java:872-916 | The peer leaves its room; hand queue, timer and room are updated or dropped and the remaining members told, as specified by `RemovePeerFromRoom` of SignalingState |
| `SignalingService.SignalingService.DisconnectLocked` | apps/signaling/src/main/java/com/personal/round/signaling/SignalingService.java:786-806 | The connection is removed, its queue cleared, its reservation given back if asked for, and its room left |
| `SignalingService.SignalingService.DisconnectAndCloseLocked` | apps/signaling/src/main/java/com/personal/round/signaling/SignalingService.java:815-831 | The connection is removed as by DisconnectLocked and its close scheduled; a superseded session keeps its reservation |
| `SignalingService.SignalingService.ScheduleCloseLocked` | apps/signaling/src/main/java/com/personal/round/signaling/SignalingService.java:833-845 | A close is dispatched unless one is in progress |
| `SignalingService.SignalingService.CloseVictimsLocked` | apps/signaling/src/main/java/com/personal/round/signaling/SignalingService.java:995-1002 | The victims are closed in order until the target itself is closed |
| `SignalingService.SignalingService.RelieveAndPutLocked` | apps/signaling/src/main/java/com/personal/round/signaling/SignalingService.java:993-1013 | The global limit is relieved, and the frame queued or its target closed |
| `SignalingService.SignalingService.EnqueueOneLocked` | apps/signaling/src/main/java/com/personal/round/signaling/SignalingService.java:976-1014 | The new state is exactly that of `EnqueueOne`, whose properties are proved above; the result says whether the frame was accepted |
| `SignalingService.SignalingService.PutOnQueueLocked` | apps/signaling/src/main/java/com/personal/round/signaling/SignalingService.java:1010-1013 | The frame is queued and logged, and a drain started exactly if none is running |
| `SignalingService.SignalingService.EnqueueAllLocked` | apps/signaling/src/main/java/com/personal/round/signaling/SignalingService.java:961-974 | The loop over the work list computes `EnqueueAll` |
| `SignalingService.SignalingService.Enqueue` | apps/signaling/src/main/java/com/personal/round/signaling/SignalingService.java:950-959 | A single frame is queued; the result says whether it was accepted and its target is still connected |
| `SignalingService.SignalingService.AppendBroadcast` | apps/signaling/src/main/java/com/personal/round/signaling/SignalingService.java:928-938 | The loop appends the frame for every member but the excluded one, in order |
| `SignalingService.SignalingService.SendError` | apps/signaling/src/main/java/com/personal/round/signaling/SignalingService.java:940-948 | An error frame is queued |
| `SignalingService.SignalingService.CloseNowLocked` | apps/signaling/src/main/java/com/personal/round/signaling/SignalingService.java:808-831 | The connection is closed and everybody else is told |
| `SignalingService.SignalingService.CloseForExpiredAuthorizationLocked` | apps/signaling/src/main/java/com/personal/round/signaling/SignalingService.java:758-784 | An expired connection is closed, any other is left alone |
| `SignalingService.SignalingService.FindSameBatonParticipant` | apps/signaling/src/main/java/com/personal/round/signaling/SignalingService.java:567-579 | The first member with the same subject, or none |
| `SignalingService.SignalingService.RestoreParkedStudyLocked` | apps/signaling/src/main/java/com/personal/round/signaling/SignalingService.java:864-870 | The parked timer of the room is taken out, and put back unless it is too old or the room has one |
| `SignalingService.SignalingService.EnterLocked` | apps/signaling/src/main/java/com/personal/round/signaling/SignalingService.java:526-565 | A full room is refused; otherwise the peer enters, is told who is there, and is announced if it survives that |
| `SignalingService.SignalingService.TakeOver` | apps/signaling/src/main/java/com/personal/round/signaling/SignalingService.java:516-526 | The older session is closed, the timer of the room kept, and the peer enters if it is still connected |
| `SignalingService.SignalingService.JoinRoom` | apps/signaling/src/main/java/com/personal/round/signaling/SignalingService.java:473-565 | All paths of `join` |
| `SignalingService.SignalingService.Leave` | apps/signaling/src/main/java/com/personal/round/signaling/SignalingService.java:581-588 | The peer leaves its room by request |
| `SignalingService.SignalingService.HandLocked` | apps/signaling/src/main/java/com/personal/round/signaling/SignalingService.java:641-652 | The hand queue is updated, or only reported |
| `SignalingService.SignalingService.StudyLocked` | apps/signaling/src/main/java/com/personal/round/signaling/SignalingService.java:654-671 | The timer is updated, or only reported |
| `SignalingService.SignalingService.Forward` | apps/signaling/src/main/java/com/personal/round/signaling/SignalingService.java:590-639 | A relay, reconnect or moderation message is passed on, or refused |
| `SignalingService.SignalingService.Handle` | apps/signaling/src/main/java/com/personal/round/signaling/SignalingService.java:226-246 | A message of a connected client with a live lease is dispatched; a session that is not connected is closed |
| `SignalingService.SignalingService.Dispatch` | apps/signaling/src/main/java/com/personal/round/signaling/SignalingService.java:233-243 | Each message goes to its handler, or is refused outside the room it names |
| `SignalingService.SignalingService.BeatLocked` | apps/signaling/src/main/java/com/personal/round/signaling/SignalingService.java:300-329 | One connection of a heartbeat sweep: its lease is looked at, and it is pinged, left alone or closed |
| `SignalingService.SignalingService.AcceptInboundFrame` | apps/signaling/src/main/java/com/personal/round/signaling/SignalingService.java:198-224 | The frame is counted; the session is closed if it exceeds its own limits |
| `SignalingService.SignalingService.HeartbeatSweep` | apps/signaling/src/main/java/com/personal/round/signaling/SignalingService.java:295-332 | The loop visits the connections in order and pings or closes them |
| `SignalingService.SignalingService.ExpireUnjoinedSessions` | apps/signaling/src/main/java/com/personal/round/signaling/SignalingService.java:335-357 | The loop closes the connections that have not joined in time |
| `SignalingService.SignalingService.Reserve` | apps/signaling/src/main/java/com/personal/round/signaling/ConnectionAdmissionPolicy.java:39-84 | A handshake gets the next reservation, or the reason why not |
| `SignalingService.SignalingService.Connect` | apps/signaling/src/main/java/com/personal/round/signaling/SignalingService.java:155-186 | The connection is made unless its lease has expired or the server is not running; without it the reservation is given back |
| `SignalingService.SignalingService.AddConnection` | apps/signaling/src/main/java/com/personal/round/signaling/SignalingService.java:170-185 | The connection gets the next number and the reservation of its handshake, and is counted for its client |
| `SignalingService.SignalingService.EndFailedDrain` | apps/signaling/src/main/java/com/personal/round/signaling/SignalingOutboundDispatcher.java:158-165 | The bytes of the frame are released and the drain is over |
| `SignalingService.SignalingService.Start` | apps/signaling/src/main/java/com/personal/round/signaling/SignalingService.java:1085-1089 | The server accepts connections |
| `SignalingService.SignalingService.Disconnect` | apps/signaling/src/main/java/com/personal/round/signaling/SignalingService.java:359-365 | The connection is removed and everybody else told |
| `SignalingService.SignalingService.DisconnectAndClose` | apps/signaling/src/main/java/com/personal/round/signaling/SignalingService.java:367-379 | The connection is closed; a session that is not connected is only closed |
| `SignalingService.SignalingService.CompleteCloseAttempt` | apps/signaling/src/main/java/com/personal/round/signaling/SignalingService.java:1050-1062 | The close is over; a reservation that waited for it is given back |
| `SignalingService.SignalingService.TakeNextFrame` | apps/signaling/src/main/java/com/personal/round/signaling/SignalingOutboundDispatcher.java:132-154 | The next frame is taken for sending, or the drain ends |
| `SignalingService.SignalingService.SendReturned` | apps/signaling/src/main/java/com/personal/round/signaling/SignalingOutboundDispatcher.java:161-181 | The bytes of the frame are released and the drain goes on |
| `SignalingService.SignalingService.HandleOutboundSendFailure` | apps/signaling/src/main/java/com/personal/round/signaling/SignalingService.java:1064-1073 | The session of a failed send is closed |
| `SignalingService.SignalingService.RunSection` | apps/signaling/src/main/java/com/personal/round/signaling/SignalingService.java:78-99 | Whatever section a thread runs on the object, all invariants hold again after it, and the new state is that of the step |
| `SignalingService.SignalingService.Perform` | apps/signaling/src/main/java/com/personal/round/signaling/SignalingService.java:78-99 | Every step of the model is a section of the object: running it computes exactly that step |
| `SignalingService.SignalingService.Stop` | apps/signaling/src/main/java/com/personal/round/signaling/SignalingService.java:1092-1116 | All connections are dropped with their queues, reservations, rooms, hands and timers |
| `OutboundDispatcher.VictimsAreFewest` | apps/signaling/src/main/java/com/personal/round/signaling/SignalingOutboundDispatcher.java:69-88 | No smaller set of the same connections would have freed enough |
| `OutboundDispatcher.VictimsSuffice` | apps/signaling/src/main/java/com/personal/round/signaling/SignalingOutboundDispatcher.java:69-88 | The victims are distinct, have something to free, and free enough unless nothing more can be freed |
| `OutboundDispatcher.ReliefIsComplete` | apps/signaling/src/main/java/com/personal/round/signaling/SignalingService.java:993-1004 | After closing the victims, a frame still does not fit exactly if it does not fit beside the frames being sent |
| `OutboundDispatcher.RankedIsBest` | apps/signaling/src/main/java/com/personal/round/signaling/SignalingOutboundDispatcher.java:71-76 | No choice of k connections frees more than the first k in the order of the comparator |
| `OutboundDispatcher.EnqueueKeeps` | apps/signaling/src/main/java/com/personal/round/signaling/SignalingOutboundDispatcher.java:91-102 | A frame within the limits keeps all counters exact and the limits kept |
| `OutboundDispatcher.ClearKeeps` | apps/signaling/src/main/java/com/personal/round/signaling/SignalingOutboundDispatcher.java:104-118 | Clearing a queue keeps exactly the bytes being sent |
| `OutboundDispatcher.TakeFrameKeeps` | apps/signaling/src/main/java/com/personal/round/signaling/SignalingOutboundDispatcher.java:142-153 | Taking a frame keeps the counters exact: its bytes are now in flight |
| `OutboundDispatcher.ReleaseKeeps` | apps/signaling/src/main/java/com/personal/round/signaling/SignalingOutboundDispatcher.java:169-181 | Returning from a send releases exactly the bytes of that frame |
| `OutboundDispatcher.ClearAllFrees` | apps/signaling/src/main/java/com/personal/round/signaling/SignalingOutboundDispatcher.java:104-118 | Closing several connections frees exactly what their queues hold apart from the frames being sent |
| `OutboundDispatcher.SignalingOutboundDispatcher.PeerLimitExceededLocked` | apps/signaling/src/main/java/com/personal/round/signaling/SignalingOutboundDispatcher.java:56-63 | Whether the frame exceeds the 256 frames or the bytes of a session |
| `OutboundDispatcher.SignalingOutboundDispatcher.GlobalLimitExceededLocked` | apps/signaling/src/main/java/com/personal/round/signaling/SignalingOutboundDispatcher.java:65-67 | Whether the frame exceeds what is left of the global limit |
| `OutboundDispatcher.SignalingOutboundDispatcher.GlobalPressureVictimsLocked` | apps/signaling/src/main/java/com/personal/round/signaling/SignalingOutboundDispatcher.java:69-88 | The loop computes the victims whose properties are proved above |
| `OutboundDispatcher.SignalingOutboundDispatcher.EnqueueLocked` | apps/signaling/src/main/java/com/personal/round/signaling/SignalingOutboundDispatcher.java:91-102 | The frame is appended and counted; the result says whether a drain has to be started; if neither limit was exceeded, the counters are exact and the limits hold again |
| `OutboundDispatcher.SignalingOutboundDispatcher.ClearLocked` | apps/signaling/src/main/java/com/personal/round/signaling/SignalingOutboundDispatcher.java:104-118 | The queue loses all frames but the one being sent |
| `OutboundDispatcher.SignalingOutboundDispatcher.TakeFrameLocked` | apps/signaling/src/main/java/com/personal/round/signaling/SignalingOutboundDispatcher.java:132-154 | The first section of the drain loop |
| `OutboundDispatcher.SignalingOutboundDispatcher.ReleaseInFlightLocked` | apps/signaling/src/main/java/com/personal/round/signaling/SignalingOutboundDispatcher.java:169-181 | The second section of the drain loop |
| `ConnectionAdmission.AdmitConserves` | apps/signaling/src/main/java/com/personal/round/signaling/ConnectionAdmissionPolicy.java:49-83 | An accepted request keeps every counter equal to the number of live reservations it stands for, tokens reserved once, and the server, client, token (1) and participant-room (2) limits |
| `ConnectionAdmission.AcceptedExactly` | apps/signaling/src/main/java/com/personal/round/signaling/ConnectionAdmissionPolicy.java:49-70 | A request is accepted exactly if its token is free and the live reservations leave room on the server, for its client and for its participant |
| `ConnectionAdmission.ReleaseConserves` | apps/signaling/src/main/java/com/personal/round/signaling/ConnectionAdmissionPolicy.java:116-143 | Closing a reservation gives back exactly what it held; closing it again changes nothing |
| `ConnectionAdmission.ConnectionAdmissionPolicy.Reserve` | apps/signaling/src/main/java/com/personal/round/signaling/ConnectionAdmissionPolicy.java:39-84 | The first limit that is reached is the reason for the rejection; otherwise the reservation is counted everywhere |
| `ConnectionAdmission.ConnectionAdmissionPolicy.ReleaseReservation` | apps/signaling/src/main/java/com/personal/round/signaling/ConnectionAdmissionPolicy.java:116-129 | The reservation is released once |
| `InboundHistory.AtMostTwice` | apps/signaling/src/main/java/com/personal/round/signaling/SignalingInboundLimiter.java:141-165 | Over any history between a start and a stop of the server, in any span up to the length of the window, a session, the server, and a client that has not been evicted get through at most twice the frames and bytes of their limit |
| `InboundCapacity.TwiceExactlyWithRoom` | apps/signaling/src/main/java/com/personal/round/signaling/SignalingInboundLimiter.java:46-58 | For every valid configuration and set of clients: in all histories of the server with only these clients, each is held to twice its limit, of frames and of bytes, if and only if there are no more of them than the table has room for |
| `InboundCapacity.AcceptedTwiceExactlyWithRoom` | apps/signaling/src/main/java/com/personal/round/signaling/SignalingInboundLimiter.java:64-76 | The same for the frames that pass all three limits: with one client too many there is a history in which more than twice the limit is accepted within one window's length |
| `InboundCapacity.FewClientsAreNeverEvicted` | apps/signaling/src/main/java/com/personal/round/signaling/SignalingInboundLimiter.java:95-102 | If no more clients ever connect than the table has room for, nobody is evicted |
| `InboundCapacity.SweepsAreUnobservable` | apps/signaling/src/main/java/com/personal/round/signaling/SignalingInboundLimiter.java:78-84 | Dropping expired inactive clients is unobservable: with room for all clients, two histories that differ only in when the table is swept decide every frame alike |
| `InboundCapacity.ManyBytes` | apps/signaling/src/main/java/com/personal/round/signaling/SignalingInboundLimiter.java:95-102 | With one client too many, a client can get any number of bytes past its limit within one window, by being evicted over and over |
| `InboundHistory.ServerRefusalNeedsOthers` | apps/signaling/src/main/java/com/personal/round/config/SignalingProperties.java:69-91 | If the limit of the server refuses a frame within the limit of its client, the other clients used more than the server has beyond twice a client's limit |
| `InboundHistory.LoneClientKeepsItsAllowance` | apps/signaling/src/main/java/com/personal/round/config/SignalingProperties.java:69-91 | A client alone on the server is never refused by the limits of the server |
| `InboundLimiter.EvictKeepsActive` | apps/signaling/src/main/java/com/personal/round/signaling/SignalingInboundLimiter.java:95-102 | Eviction removes only inactive entries, and fails to make room only when none is left |
| `InboundLimiter.RoomForActive` | apps/signaling/src/main/java/com/personal/round/signaling/SignalingInboundLimiter.java:46-54 | If fewer clients are active than the table holds, `retain` finds room |
| `InboundLimiter.SignalingInboundLimiter.RetainClient` | apps/signaling/src/main/java/com/personal/round/signaling/SignalingInboundLimiter.java:46-58 | One more connection of the client, in a new entry if need be; where there is room once inactive entries are gone, the assertion of the source holds |
| `InboundLimiter.SignalingInboundLimiter.EvictInactiveForCapacity` | apps/signaling/src/main/java/com/personal/round/signaling/SignalingInboundLimiter.java:95-102 | The loop removes inactive entries, eldest first, while the table is full |
| `InboundLimiter.SignalingInboundLimiter.TryAcquireFrame` | apps/signaling/src/main/java/com/personal/round/signaling/SignalingInboundLimiter.java:64-76 | The frame is counted by session, client and server in turn, up to the first that refuses it; the client becomes the youngest |
| `InboundLimiter.SignalingInboundLimiter.ForgetExpiredInactive` | apps/signaling/src/main/java/com/personal/round/signaling/SignalingInboundLimiter.java:78-84 | Entries without connections whose window has expired are gone |
| `InboundLimiter.SignalingInboundLimiter.ReleaseClient` | apps/signaling/src/main/java/com/personal/round/signaling/SignalingInboundLimiter.java:60-62 | One connection of the client less |
| `InboundLimiter.SignalingInboundLimiter.Reset` | apps/signaling/src/main/java/com/personal/round/signaling/SignalingInboundLimiter.java:90-93 | The table and the window of the server are as at the start |
| `FixedWindow.SpanBound` | apps/signaling/src/main/java/com/personal/round/signaling/SignalingInboundLimiter.java:141-165 | Any span of at most k windows admits at most k + 1 windows' worth, for any history of a fixed-window counter |
| `FixedWindow.TwiceAtMost` | apps/signaling/src/main/java/com/personal/round/signaling/SignalingInboundLimiter.java:141-165 | A span of one window admits at most two windows' worth |
| `TurnIssuanceLimiter.RetryAfterIsExact` | apps/signaling/src/main/java/com/personal/round/turn/TurnIssuanceLimiter.java:42-115 | The delay of a refusal is exact over every combination of client, participant, global and capacity causes if and only if no window behind it was opened after the instant of the request: the same request is refused at every earlier instant and accepted from then on |
| `TurnIssuanceLimiter.EarlyReaderIsToldTooLittle` | apps/signaling/src/main/java/com/personal/round/turn/TurnIssuanceLimiter.java:42-51 | The other case happens: a request whose instant was read first but that gets the lock second is told to come back too early |
| `TurnIssuanceLimiter.WaitingTheHeaderSuffices` | apps/signaling/src/main/java/com/personal/round/turn/TurnIssuanceLimiter.java:117-123 | Waiting the whole seconds of the header suffices if and only if every reason to refuse ends by then, which is so if no window behind one was opened after the instant of the request; they are at least one |
| `TurnIssuanceLimiter.ReasonLasts` | apps/signaling/src/main/java/com/personal/round/turn/TurnIssuanceLimiter.java:57-84 | Each reason to refuse lasts until its own end, and no new one appears by waiting |
| `TurnIssuanceLimiter.RefusedIff` | apps/signaling/src/main/java/com/personal/round/turn/TurnIssuanceLimiter.java:56-87 | A request is refused exactly if one of the five reasons holds once expired windows are gone |
| `TurnIssuanceLimiter.PruneTwice` | apps/signaling/src/main/java/com/personal/round/turn/TurnIssuanceLimiter.java:46-50 | Forgetting expired windows at one instant is unobservable at another if and only if none of them counts again there, which is so at every later instant |
| `TurnIssuanceLimiter.TurnIssuanceLimiter.TryAcquire` | apps/signaling/src/main/java/com/personal/round/turn/TurnIssuanceLimiter.java:42-100 | The request is counted everywhere or, if refused, nowhere |
| `TurnIssuanceLimiter.TurnIssuanceLimiter.FindRejections` | apps/signaling/src/main/java/com/personal/round/turn/TurnIssuanceLimiter.java:52-84 | Every reason to refuse is found, in the order of the source, each with its delay |
| `TurnIssuanceLimiter.TurnIssuanceLimiter.RemoveExpiredWindows` | apps/signaling/src/main/java/com/personal/round/turn/TurnIssuanceLimiter.java:102-106 | The loop keeps exactly the windows that have not expired |
| `TurnIssuanceLimiter.TurnIssuanceLimiter.RetryAfterCapacityNanos` | apps/signaling/src/main/java/com/personal/round/turn/TurnIssuanceLimiter.java:108-115 | The loop finds the shortest time until one of the windows is forgotten |
| `TurnHistory.AtMostTwice` | apps/signaling/src/main/java/com/personal/round/turn/TurnIssuanceLimiter.java:52-99 | Over all histories of requests whose instants, read before the lock is taken, lie at most a given time behind one handled before: every span of a given positive length serves a client, a participant and the server at most twice their limits if and only if that length and twice the lateness exceed the window by at most a nanosecond; for spans of the length of the window, if and only if no instant is late |
| `TurnSharing.ServerRefusalNeedsOthers` | apps/signaling/src/main/java/com/personal/round/config/TurnProperties.java:78-84 | If only the limit of the server refuses a request, the others took in the window of the server what it has beyond m + 2 times the limit of a client, if instants are at most so late that m windows, each shortened by the lateness, last as long as that less a nanosecond |
| `TurnSharing.TwiceIsEnoughExactly` | apps/signaling/src/main/java/com/personal/round/config/TurnProperties.java:78-84 | That the limit of the server is twice that of a client is enough for the others to have taken what is beyond it, if and only if no instant is more than a nanosecond late |
| `TurnHistory.LoneClientKeepsItsAllowance` | apps/signaling/src/main/java/com/personal/round/config/TurnProperties.java:78-84 | A client alone is never refused by the limit of the server alone, in whatever order its requests get the lock |
| `TurnHistory.ServeStaysBounded` | apps/signaling/src/main/java/com/personal/round/turn/TurnIssuanceLimiter.java:73-84 | Over any history no more windows are remembered than configured |
| `RoomStudyState.DriftBound` | apps/signaling/src/main/java/com/personal/round/signaling/RoomStudyState.java:17-46 | What the timer shows is never less than the exact time left, exceeds it by less than one millisecond per command applied since the last start or reset plus one, and stays within the duration |
| `RoomStudyState.DriftBoundIsTight` | apps/signaling/src/main/java/com/personal/round/signaling/RoomStudyState.java:24 | Two milliseconds are almost reached after one command |
| `RoomStudyState.RevisionCountsApplied` | apps/signaling/src/main/java/com/personal/round/signaling/RoomStudyState.java:22-42 | The revision counts exactly the commands that named the revision current at their arrival |
| `RoomStudyState.RoomStudyState.ApplyCommand` | apps/signaling/src/main/java/com/personal/round/signaling/RoomStudyState.java:22-42 | A command with a stale revision changes nothing; any other is applied as specified |
| `RoomStudyState.RoomStudyState.TakeSnapshot` | apps/signaling/src/main/java/com/personal/round/signaling/RoomStudyState.java:17-20 | The snapshot shows the time left, running only while there is some |
| `RoomStudyState.RoomStudyState.RemainingMs` | apps/signaling/src/main/java/com/personal/round/signaling/RoomStudyState.java:44-46 | The time left in whole milliseconds, never negative, which only runs down while the timer runs |
| `RoomHandQueue.UpdateKeepsOrder` | apps/signaling/src/main/java/com/personal/round/signaling/RoomHandQueue.java:12-16 | An update keeps the queue free of repetitions, puts the peer it names in or out, and moves nobody else |
| `RoomHandQueue.RoomHandQueue.UpdateHand` | apps/signaling/src/main/java/com/personal/round/signaling/RoomHandQueue.java:12-16 | The queue is updated; the result says whether it changed |
| `NegotiationRuns.CandidatesFollowDescriptions` | packages/rtc-core/src/peer-negotiation-lifecycle.ts:336-363 | Over every interleaving at the awaits, a candidate goes out only after an offer or answer with its id, and candidates in the order in which they were gathered |
| `NegotiationRuns.SupersededIsSilent` | packages/rtc-core/src/peer-negotiation-lifecycle.ts:89-95 | A handler whose connection or negotiation was superseded while it waited sends nothing, adds nothing and changes no id |
| `NegotiationRuns.CandidatesKeepTheirNegotiation` | packages/rtc-core/src/peer-negotiation-lifecycle.ts:268-333 | A remote candidate is only added to the connection it arrived at, under the id it arrived with; candidates taken over by a replacement are therefore never added |
| `NegotiationRuns.InheritedCandidatesAreDropped` | packages/rtc-core/src/peer-connection-lifecycle.ts:88-97 | What a replacement takes over is thrown away with the first id it takes |
| `NegotiationRuns.OneLocalOffer` | packages/rtc-core/src/peer-negotiation-lifecycle.ts:55-70 | At most one local offer is being made per connection, and none can start meanwhile |
| `NegotiationRuns.NoOfferDuringAnswer` | packages/rtc-core/src/peer-negotiation-lifecycle.ts:56-58 | No local offer starts while a remote one is being answered |
| `NegotiationRuns.StaleGenerationsStayDead` | packages/rtc-core/src/peer-connection-lifecycle.ts:132-136 | The retired ids are exactly the newest eight ids the connection, and those it replaced, gave up, in order; no signal with one of them is accepted |
| `NegotiationRuns.StaleSignalsAreIgnored` | packages/rtc-core/src/peer-negotiation-lifecycle.ts:165-168 | An offer, answer or candidate with a retired id changes nothing |
| `NegotiationRuns.CurrentIdIsAlive` | packages/rtc-core/src/peer-connection-lifecycle.ts:99-130 | After every run in which the other side does not offer under an id this side has made up, the current id of an open connection is not retired: what arrives for it is accepted |
| `NegotiationRuns.AcceptedOfferIsHeard` | packages/rtc-core/src/peer-negotiation-lifecycle.ts:165-178 | An accepted offer is answered by the current connection, or by a replacement exactly if that has failed, and every candidate that then comes for it waits for its description |
| `NegotiationRuns.NoOfferIsOvertaken` | packages/rtc-core/src/peer-negotiation-lifecycle.ts:165-178 | No offer that is accepted for a failed connection has the id that connection already has, so no replacement retires an id and uses it at once |
| `NegotiationRuns.ThrowingGivesUp` | packages/rtc-core/src/room-session.ts:1293-1302 | What handleOffer or handleAnswer throws closes the connection, and the participant is given up |
| `NegotiationRuns.GivenUpIsSilent` | packages/rtc-core/src/room-session.ts:940-945 | Whatever happens then, no signal of the participant is accepted, and nothing is sent to it or added to a connection, until it is made anew or a new offer is started |
| `NegotiationRuns.RunSafe` | packages/rtc-core/src/peer-negotiation-lifecycle.ts:51-363 | Every run keeps all invariants of the negotiation |
| `NegotiationTasks.NextKeepsTasks` | packages/rtc-core/src/peer-negotiation-lifecycle.ts:51-229 | Every step keeps: a connection makes an offer exactly while one handler does, and remembers exactly the offers that are being answered |
| `NegotiationGenerations.NextKeepsAlive` | packages/rtc-core/src/peer-negotiation-lifecycle.ts:51-266 | Every step keeps the current id of an open connection unretired, and made up here, being answered, described on either side, or known from no more than a candidate |
| `NegotiationGenerations.NextKeepsGenerations` | packages/rtc-core/src/peer-connection-lifecycle.ts:261-270 | Every step keeps the retired ids of every connection the newest eight it gave up |
| `NegotiationGenerations.ReplacementInherits` | packages/rtc-core/src/room-session.ts:1558-1598 | A replacement inherits the retired ids of the connection it replaces, and that connection's own id among them |
| `NegotiationSafety.NextKeepsRelay` | packages/rtc-core/src/peer-negotiation-lifecycle.ts:291-363 | Every step keeps the order of what is relayed |
| `NegotiationSafety.NextKeepsRemote` | packages/rtc-core/src/peer-negotiation-lifecycle.ts:268-333 | Every step keeps the candidates with their negotiation |
| `PeerConnectionLifecycle.RetiringKeepsExact` | packages/rtc-core/src/peer-connection-lifecycle.ts:261-270 | Retiring an id keeps the retired ids the newest eight, each once |
| `PeerConnectionLifecycle.RetiredIsRefused` | packages/rtc-core/src/peer-connection-lifecycle.ts:99-130 | A retired id is refused by all three checks |
| `PeerConnectionLifecycle.ReplacingStaysFresh` | packages/rtc-core/src/peer-connection-lifecycle.ts:88-97 | An id taken after one of the checks is not a retired one |
| `PeerConnectionLifecycle.PeerConnectionLifecycle.RememberRetiredNegotiation` | packages/rtc-core/src/peer-connection-lifecycle.ts:261-270 | The loop drops the oldest ids to make room for the current one |
| `PeerConnectionLifecycle.PeerConnectionLifecycle.ReplaceId` | packages/rtc-core/src/peer-connection-lifecycle.ts:88-97 | The new id replaces the old one, which is retired; waiting candidates and the local description are forgotten |
| `PeerConnectionLifecycle.PeerConnectionLifecycle.StartLocalNegotiation` | packages/rtc-core/src/peer-connection-lifecycle.ts:76-86 | The loop ends with an id that is neither current nor retired |
| `PeerConnectionLifecycle.PeerConnectionLifecycle.AdoptOrMatchCandidateNegotiation` | packages/rtc-core/src/peer-connection-lifecycle.ts:116-130 | A candidate is accepted if its id is current, or taken as the first id |
| `PeerConnectionLifecycle.PeerConnectionLifecycle.RetireNegotiations` | packages/rtc-core/src/peer-connection-lifecycle.ts:133-136 | The current id is retired and the set handed to the replacement |
| `PeerConnectionLifecycle.PeerConnectionLifecycle.QueueCandidate` | packages/rtc-core/src/peer-connection-lifecycle.ts:138-149 | The oldest of 256 candidates makes room; the first time the result says so |
| `PeerConnectionLifecycle.PeerConnectionLifecycle.ExtractPendingRemoteCandidates` | packages/rtc-core/src/peer-connection-lifecycle.ts:151-158 | All waiting candidates are handed over |
| `PeerConnectionLifecycle.PeerConnectionLifecycle.PublishLocalDescription` | packages/rtc-core/src/peer-connection-lifecycle.ts:179-182 | The description counts as published and the waiting candidates are handed over |
| `PeerConnectionLifecycle.PeerConnectionLifecycle.ResetLocal` | packages/rtc-core/src/peer-connection-lifecycle.ts:174-177 | The local description counts as unpublished and no local candidate waits |
| `PeerConnectionLifecycle.PeerConnectionLifecycle.Dispose` | packages/rtc-core/src/peer-connection-lifecycle.ts:243-259 | A closed connection keeps no candidate and no remote offer |
| `NegotiationProgress.OfferIsPublished` | packages/rtc-core/src/peer-negotiation-lifecycle.ts:51-122 | An offer whose steps nothing disturbs is published with its id, and the connection is idle again |
| `NegotiationProgress.OfferIsAnswered` | packages/rtc-core/src/peer-negotiation-lifecycle.ts:160-229 | An accepted offer whose steps nothing disturbs is answered with its id, after all candidates that waited for it were added in order |
| `NegotiationProgress.FlushAddsAll` | packages/rtc-core/src/peer-negotiation-lifecycle.ts:304-315 | A flush that nothing disturbs adds all waiting candidates, in order, under the id they wait for |
| `ChatReceiving.ShownOnce` | packages/rtc-core/src/room-chat.ts:63-71 | In any span of 260 seconds in which messages are accepted on at most five channels, no (sender, id) key is recorded twice |
| `ChatEndToEnd.ChatIsShownOnce` | packages/rtc-core/src/peer-data-channel.ts:14-19 | Over every run of a sender whose timers run at most a given time late and every run of a recipient to which copies take at most a given time: if both together are within 95 seconds, and messages are accepted on at most five channels in the 260 seconds after the chat was created, it is shown once |
| `ChatReceiving.ChannelsBound` | packages/rtc-core/src/peer-data-channel.ts:340-362 | n channels accept at most n (k + 1) 120 messages in the time of k windows |
| `ChatReceiving.ArriveKeepsKeys` | packages/rtc-core/src/room-chat.ts:63-71 | The room remembers exactly the newest 16,384 recorded keys, each once |
| `ChatDelivery.LedgerAndQueuesAgree` | packages/rtc-core/src/room-chat.ts:101-191 | After every run, the ledger awaits an answer from a recipient if and only if exactly one copy is in that recipient's queue; the delivery shown for a chat is the aggregate of its recipients; an entry is kept exactly for the chats in the history or still awaited |
| `ChatDelivery.QueuesAreOrdered` | packages/rtc-core/src/peer-data-channel.ts:93-101 | A queue holds at most 50 chats, those sent on the present channel before all others |
| `ChatTimes.CopiesAreSentInTime` | packages/rtc-core/src/room-chat.ts:73-81 | If timers run at most a given time late, no copy is sent later than the retry deadline, one acknowledgement timeout and that time, and none before the chat was created |
| `ChatTimes.BoundIsExact` | packages/rtc-core/src/peer-data-channel.ts:165-179 | Whatever happens, all copies are sent within a margin after the retry deadline and one timeout if and only if timers run no later than that margin |
| `ChatTimes.LateCopy` | packages/rtc-core/src/peer-data-channel.ts:234-249 | The late copy: a chat sent again just before its deadline leaves with a flush just before its late timer runs |
| `ChatDelivery.RunKeeps` | packages/rtc-core/src/room-session.ts:946-1018 | Every run of sending, retrying, flushing, acknowledging, expiring, attaching, disposing and receiving keeps all invariants |
| `ChatDelivery.SendKeeps` | packages/rtc-core/src/room-session.ts:946-987 | Sending keeps ledger, queues and deadlines in agreement |
| `ChatDelivery.RetryKeeps` | packages/rtc-core/src/room-session.ts:989-1018 | A retry keeps ledger, queues and deadlines in agreement |
| `ChatDelivery.AcknowledgeKeeps` | packages/rtc-core/src/peer-data-channel.ts:309-319 | An acknowledgement keeps ledger, queues and deadlines in agreement |
| `ChatDelivery.ExpireKeeps` | packages/rtc-core/src/peer-data-channel.ts:321-330 | A timeout keeps ledger, queues and deadlines in agreement |
| `ChatDelivery.DisposeKeeps` | packages/rtc-core/src/peer-data-channel.ts:146-163 | Disposing of a channel keeps ledger, queues and deadlines in agreement |
| `ChatDelivery.FlushedOk` | packages/rtc-core/src/peer-data-channel.ts:234-249 | Flushing sends the first unsent chats, so that what was sent still comes first |
| `ChatEffects.SendingReaches` | packages/rtc-core/src/room-session.ts:1632-1667 | A new chat is sent if and only if somebody can be reached, if there is anybody, and no queue is full; it is then awaited from exactly those who can be reached, and has failed for all others |
| `ChatEffects.RetryingReaches` | packages/rtc-core/src/room-session.ts:989-1018 | Before its deadline a chat is sent again to exactly the failed recipients that are ready and have room |
| `ChatEffects.AcknowledgementSettles` | packages/rtc-core/src/peer-data-channel.ts:309-319 | An acknowledgement settles exactly the chat it names for this recipient, if it was ever sent to it |
| `ChatEffects.TimeoutSettles` | packages/rtc-core/src/peer-data-channel.ts:321-330 | A timeout fails exactly the chat it is for, for this recipient |
| `ChatEffects.DisposalSettles` | packages/rtc-core/src/peer-data-channel.ts:146-163 | After a channel is disposed of nothing is awaited from its participant, and from the others what was awaited before |
| `ChatEffects.NewChannelGetsEverything` | packages/rtc-core/src/peer-data-channel.ts:93-101 | A new channel that takes everything is sent every chat that is still unanswered, in order, those sent on the old one included |
| `RoomChat.MarkKeeps` | packages/rtc-core/src/room-chat.ts:101-123 | A recipient's answer changes what is known of that recipient alone, and keeps the ledger consistent |
| `RoomChat.TrimKeeps` | packages/rtc-core/src/room-chat.ts:167-191 | Dropping the oldest messages keeps entries for exactly the shown and the awaited |
| `RoomChat.RecordOutgoingKeeps` | packages/rtc-core/src/room-chat.ts:51-61 | Recording a chat keeps the ledger consistent, awaits exactly its pending recipients, and sets its deadline |
| `RoomChat.PrepareRetryKeeps` | packages/rtc-core/src/room-chat.ts:83-93 | A retry keeps the ledger consistent and awaits exactly the given recipients again |
| `RoomChatLedger.RoomChatLedger.AggregateDeliveryState` | packages/rtc-core/src/room-chat.ts:145-165 | The loop finds the aggregate: pending if anybody is awaited, else sent, failed or partial |
| `RoomChatLedger.RoomChatLedger.Remember` | packages/rtc-core/src/room-chat.ts:167-176 | The loop drops the oldest messages while there are too many |
| `RoomChatLedger.RoomChatLedger.RecordOutgoingChat` | packages/rtc-core/src/room-chat.ts:51-61 | The chat is recorded with its recipients and deadline |
| `RoomChatLedger.RoomChatLedger.RecordReceivedChat` | packages/rtc-core/src/room-chat.ts:63-71 | A chat that is not remembered is recorded, the oldest keys make room |
| `RoomChatLedger.RoomChatLedger.PrepareRetryOf` | packages/rtc-core/src/room-chat.ts:83-93 | The recipients are awaited again |
| `RoomChatLedger.RoomChatLedger.MarkRecipient` | packages/rtc-core/src/room-chat.ts:101-123 | Only a recipient that is awaited changes; the result says whether the history does |
| `RoomChatLedger.RoomChatLedger.RetireLocalMessageIdIfUnused` | packages/rtc-core/src/room-chat.ts:178-191 | An entry that is neither shown nor awaited is dropped |
| `PeerDataChannel.PeerDataChannel.ForgetSent` | packages/rtc-core/src/peer-data-channel.ts:98-101 | Nothing counts as sent on the new channel |
| `PeerDataChannel.PeerDataChannel.EnqueueChat` | packages/rtc-core/src/peer-data-channel.ts:165-179 | The chat joins the queue, unsent |
| `PeerDataChannel.PeerDataChannel.FlushChats` | packages/rtc-core/src/peer-data-channel.ts:234-249 | The loop sends the first n unsent chats |
| `PeerDataChannel.PeerDataChannel.AcknowledgeChat` | packages/rtc-core/src/peer-data-channel.ts:309-319 | The chat leaves the queue exactly if it was ever sent |
| `PeerDataChannel.PeerDataChannel.Dispose` | packages/rtc-core/src/peer-data-channel.ts:146-163 | The queue is emptied and its chats have failed |
| `PeerDataChannel.PeerDataChannel.ConsumeInboundBudget` | packages/rtc-core/src/peer-data-channel.ts:340-362 | The message is counted in the current or a new window, or refused |
| `PeerDataChannel.PeerDataChannel.RememberReceivedChatId` | packages/rtc-core/src/peer-data-channel.ts:332-338 | The id is remembered, the oldest of 128 make room |
| `ScreenShareRuns.EveryoneSeesTheShare` | packages/rtc-core/src/screen-share-lifecycle.ts:283-349 | Over all interleavings of starts, stops, cancellations, participants and the end of the session: during a share every current connection sends the screen, those made during the start or the share included (a failed sender has been replaced by a new connection) |
| `ScreenShareRuns.NobodyKeepsTheScreen` | packages/rtc-core/src/screen-share-lifecycle.ts:316-407 | A connection sends a screen only while it is shared or its start goes on: a cancelled start and a finished stop leave no sender with it |
| `ScreenShareRuns.NoTrackLeaks` | packages/rtc-core/src/screen-share-lifecycle.ts:227-432 | Every screen track the browser hands out is stopped, or shared, or waits for the start that asked for it |
| `ScreenShareRuns.PendingExcludesActive` | packages/rtc-core/src/screen-share-lifecycle.ts:409-418 | A pending and a shared track never coexist, and no start goes on during a share |
| `ScreenShareRuns.CancelledNeverShares` | packages/rtc-core/src/screen-share-lifecycle.ts:178-188 | A start that is cancelled, stopped or outlived by the session shares nothing, whatever happens then |
| `ScreenShareRuns.SupersededNeverShares` | packages/rtc-core/src/screen-share-lifecycle.ts:409-418 | A start that is not the last operation never shares its track |
| `ScreenShareRuns.ShareBegins` | packages/rtc-core/src/screen-share-lifecycle.ts:316-342 | A share begins only with the track of the start that still is the last operation, in an active room |
| `ScreenShareRuns.ShareEnds` | packages/rtc-core/src/screen-share-lifecycle.ts:358-407 | A share ends only with the session or when its own stop is through; its track has been stopped by then |
| `ScreenShareRuns.StreamWithoutShare` | packages/rtc-core/src/screen-share-lifecycle.ts:363-372 | Outside a share the local stream shows no screen |
| `ScreenShareRuns.RunSafe` | packages/rtc-core/src/screen-share-lifecycle.ts:99-432 | Every run keeps all invariants of screen sharing |
| `ScreenShareProgress.StartSucceeds` | packages/rtc-core/src/screen-share-lifecycle.ts:227-356 | If the user picks something and then only the senders answer, each that is asked as it may, the screen is shared in the end |
| `ScreenShareProgress.StopSucceeds` | packages/rtc-core/src/screen-share-lifecycle.ts:358-407 | If only the senders answer after a stop, each that is asked as it may, nothing is shared any more in the end |
| `ScreenShareSafety.ReplacingKeepsInv` | packages/rtc-core/src/screen-share-lifecycle.ts:283-314 | The loop over the senders, from any point, keeps the invariant, by which every connection it has passed sends the screen or has failed to |
| `ScreenShareSafety.RollingBackKeepsInv` | packages/rtc-core/src/room-session.ts:865-891 | Rolling back keeps the invariant, by which every sender that still sends the screen will get back what it sent |
| `ScreenShareSafety.RestoringKeepsInv` | packages/rtc-core/src/screen-share-lifecycle.ts:375-407 | The loop of a stop keeps the invariant, by which every sender that still sends the screen is yet to be visited or has failed |
| `ScreenShareSafety.RecoverReplaces` | packages/rtc-core/src/peer-recovery-lifecycle.ts:244-282 | Recovery leaves no failed connection; all others are as before, or new and sending what the local stream has |
| `ScreenShareLifecycle.ScreenShareLifecycle.Start` | packages/rtc-core/src/screen-share-lifecycle.ts:99-119 | A start begins only if nothing is shared, starting or stopping |
| `ScreenShareLifecycle.ScreenShareLifecycle.DisplayMediaAnswered` | packages/rtc-core/src/screen-share-lifecycle.ts:233-276 | The track is taken as pending, and given up at once if the start has been superseded |
| `ScreenShareLifecycle.ScreenShareLifecycle.ReplaceSenders` | packages/rtc-core/src/screen-share-lifecycle.ts:283-327 | The loop of `performStart` computes `ReplaceFrom` |
| `ScreenShareLifecycle.ScreenShareLifecycle.CommitStart` | packages/rtc-core/src/screen-share-lifecycle.ts:329-349 | The screen replaces the cameras in the local stream, and failed senders are recovered |
| `ScreenShareLifecycle.ScreenShareLifecycle.RollBackSenders` | packages/rtc-core/src/room-session.ts:865-891 | The loop of the rollback computes `RollBack` |
| `ScreenShareLifecycle.ScreenShareLifecycle.StartResumed` | packages/rtc-core/src/screen-share-lifecycle.ts:302-327 | The start goes on after the sender it waited for |
| `ScreenShareLifecycle.ScreenShareLifecycle.CancelPending` | packages/rtc-core/src/screen-share-lifecycle.ts:178-188 | A pending start is superseded and its track stopped |
| `ScreenShareLifecycle.ScreenShareLifecycle.RequestStop` | packages/rtc-core/src/screen-share-lifecycle.ts:121-176 | The track is stopped at once, and the cameras begin to return |
| `ScreenShareLifecycle.ScreenShareLifecycle.RestoreSenders` | packages/rtc-core/src/screen-share-lifecycle.ts:375-407 | The loop of `performStop` computes `RestoreFrom` |
| `ScreenShareLifecycle.ScreenShareLifecycle.StopResumed` | packages/rtc-core/src/screen-share-lifecycle.ts:382-390 | The stop goes on after the sender it waited for |
| `ScreenShareLifecycle.ScreenShareLifecycle.RestoreLocalStream` | packages/rtc-core/src/screen-share-lifecycle.ts:363-372 | The screen leaves the local stream, the live cameras come back, and a stream made for the share alone is given up |
| `ScreenShareLifecycle.ScreenShareLifecycle.EnsurePeer` | packages/rtc-core/src/room-session.ts:1467-1486 | A new connection gets the next number and sends the last video track of the local stream |
| `ScreenShareLifecycle.ScreenShareLifecycle.CancelStart` | packages/rtc-core/src/screen-share-lifecycle.ts:316-327 | The track of a superseded start is stopped and the rollback begins |
| `ScreenShareLifecycle.ScreenShareLifecycle.RecoverPeersAfterSenderFailure` | packages/rtc-core/src/peer-recovery-lifecycle.ts:244-282 | The loop replaces the failed connections |
| `ScreenShareLifecycle.ScreenShareLifecycle.TakeOwnedTracks` | packages/rtc-core/src/screen-share-lifecycle.ts:209-225 | Every track is handed to the caller and nothing is kept |
| `ScreenShareLifecycle.ScreenShareLifecycle.RunStep` | packages/rtc-core/src/screen-share-lifecycle.ts:99-432 | Whatever step the object takes, all invariants of screen sharing hold again after it |
| `ScreenShareLifecycle.ScreenShareLifecycle.Terminate` | packages/rtc-core/src/room-session.ts:1815-1838 | The end of the session closes all connections and stops all tracks |

## Left out

- Heartbeat states, pong payloads and the arithmetic of leases: what a sweep finds, and whether a lease has expired, is a parameter of the step.
- Payloads of relayed messages, JSON, encoders, validators, metrics and logging.
- A locked section reads the clock once, where the source may read it again for a parked timer or a study frame; leases are looked at anew for every frame.
- Peer, session and reservation ids are numbers in order of creation, in place of fresh UUIDs and object identity.
- Integer widths and the wrap-around of nanoTime: times and counters are unbounded.
- The Peer objects of SignalingService are values in a map; two references to one Peer are not modelled.
- The wait of `stop` for closes, its timeouts, and the executors: closes and drains run whenever they run.
- Drains and closes of a section are dispatched as it goes; the source collects them and dispatches them after the lock is released.
- SignalingService.SignalingService.Reserve: does not model the address key and token parsing; they are keys.
- The renewal of participation leases (`renewParticipationLease`): a lease may look expired or not at every look.
- PeerNegotiation has no class: Dafny has no suspended methods, so its handlers are step functions; the object they share is `PeerConnectionLifecycle`.
- NegotiationRuns.OneLocalOffer: does not say when renegotiation is drained; offers may start at any time the guards of createOffer allow.
- Glare, rollback and the liveness of recovery: they depend on the browser.
- The end of candidates is a candidate without a fragment, which it is to every check here; a new connection has no remote description.
- The epochs and former own ids of `#acceptPeerSignal`, which only filter signals further; that it refuses participants who were given up is modelled.
- A handler that throws after its socket was replaced: all connections are dropped with the socket.
- SignalingRuns.ViewsAreExact: does not say whether the timer runs and how much time is left, which depend on the instant at which a frame is made.
- InboundHistory.AtMostTwice: does not cover a span in which the server is stopped and started again; a stop closes all sessions and clears the limiter.
- ChatReceiving.ShownOnce: does not bound the channels; five are those of the other participants of a full room, and a channel that is made anew within the span counts as one more.
- ChatEndToEnd.ChatIsShownOnce: does not bound how long a copy is under way or how late timers run; 95 seconds for both is what the numbers leave.
- Acknowledgements and media frames of `flush`, buffer sizes and channel recovery: the model is told how many chats a channel takes.
- Participant names and the text of chats.
- Switching the camera during a share (refused), or between the end of the shared track and its event; the enabled flags of camera tracks; the result values of start and stop; callbacks that call back while a share begins.
- A connection that could be made but whose tracks could not be added.
- ScreenShareRuns.NoTrackLeaks: does not cover further tracks of a display stream, which are stopped as soon as it is handed out.
- Cloudflare and coturn clients, cookies, tokens, HTTP, the user interface.
