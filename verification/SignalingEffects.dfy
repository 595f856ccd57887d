/**
 What the operations of the server achieve, whatever else has to be closed while the frames about it
 are queued. That nothing breaks is proved elsewhere; here it is that something happens.
 */
module SignalingEffects {
  import opened Common
  import opened Frames
  import opened SignalingState
  import opened SignalingRooms
  import opened SignalingHolds
  import opened SignalingCascade
  import opened SignalingDelivery
  import opened SignalingMessages
  import opened SignalingJoin
  import opened SignalingTakeover
  import opened SignalingEvents
  import SignalingRuns
  import Inbound = InboundLimiter
  import Hand = RoomHandQueue
  import Study = RoomStudyState

  // ----- every frame arrives -----

  /** What is queued for q and still to be queued, in order. */
  ghost function Due(s: State, pending: seq<Pending>, q: PeerId): seq<Frame> {
    Logged(s.wire.queued, q) + For(pending, q)
  }

  lemma CloseKeepsLogs(e: Env, s: State, p: PeerId)
    requires s.connected <= s.peers.Keys && p in s.connected
    ensures DisconnectAndClose(e, s, p, false).state.wire.queued == s.wire.queued
    ensures DisconnectAndClose(e, s, p, false).state.connected <= DisconnectAndClose(e, s, p, false).state.peers.Keys
  {
    OneCleared(e, s, p, DisconnectAndClose(e, s, p, false).state);
  }

  lemma RelieveKeepsLogs(c: Config, e: Env, s: State, p: PeerId, bytes: int)
    requires s.connected <= s.peers.Keys && p in s.connected
    ensures var r := Relieved(c, e, s, p, bytes);
            r.state.wire.queued == s.wire.queued && r.state.connected <= r.state.peers.Keys
  {
    if Out.GlobalLimitExceeded(s.wire.queues, c.maxGlobalBytes, bytes) {
      var victims := Out.Victims(s.wire.queues, s.connected, c.maxGlobalBytes, bytes);
      VictimsConnected(s.wire.queues, s.connected, c.maxGlobalBytes, bytes, victims);
      var queued := s.wire.queued;
      var P := (x: State, y: seq<Pending>) => x.wire.queued == queued && x.connected <= x.peers.Keys;
      forall x: State, y: seq<Pending>, q: PeerId | P(x, y) && q in x.connected
        ensures KeptByClosing(e, x, y, q, P)
      {
        CloseKeepsLogs(e, x, q);
      }
      CloseVictimsInduction(e, s, [], victims, p, P);
    }
  }

  /** A frame is queued for its target, unless the target is closed, and for nobody else. */
  lemma OneFrameLogs(c: Config, e: Env, s: State, p: PeerId, f: Frame, q: PeerId)
    requires s.connected <= s.peers.Keys
    ensures var r := EnqueueOne(c, e, s, p, f).state;
            && r.connected <= r.peers.Keys
            && (q in r.connected ==> Logged(r.wire.queued, q) == Logged(s.wire.queued, q) + if p == q then [f] else [])
  {
    if p in s.connected {
      var looked := s.(checks := s.checks + 1);
      EnqueueOneInParts(c, e, s, p, f);
      if ClosedAtOnce(c, e, s, p, f) {
        CloseKeepsLogs(e, looked, p);
      } else {
        var r := Relieved(c, e, looked, p, Length(e, f));
        RelieveAndPutInParts(c, e, looked, p, f);
        RelieveKeepsLogs(c, e, looked, p, Length(e, f));
        if p in r.state.connected && Out.GlobalLimitExceeded(r.state.wire.queues, c.maxGlobalBytes, Length(e, f)) {
          CloseKeepsLogs(e, r.state, p);
        }
      }
    }
  }

  lemma Regrouped(queued: seq<Frame>, first: seq<Frame>, rest: seq<Frame>, more: seq<Frame>)
    ensures (queued + first) + (rest + more) == (queued + (first + rest)) + more
  {
  }

  lemma DueOfFirst(s: State, pending: seq<Pending>, more: seq<Pending>, s': State, q: PeerId, first: seq<Frame>)
    requires pending != [] && first == if pending[0].to == q then [pending[0].frame] else []
    requires Logged(s'.wire.queued, q) == Logged(s.wire.queued, q) + first
    ensures Due(s', pending[1..] + more, q) == Due(s, pending, q) + For(more, q)
  {
    ForSum(pending[1..], more, q);
    assert For(pending, q) == first + For(pending[1..], q);
    Regrouped(Logged(s.wire.queued, q), first, For(pending[1..], q), For(more, q));
  }

  ghost predicate KeepsDue(s: State, pending: seq<Pending>, q: PeerId, due: seq<Frame>) {
    s.connected <= s.peers.Keys && (q in s.connected ==> due <= Due(s, pending, q))
  }

  lemma OneFrameKeepsDue(c: Config, e: Env, s: State, pending: seq<Pending>, q: PeerId, due: seq<Frame>, one: Step)
    requires pending != [] && KeepsDue(s, pending, q, due)
    requires one == EnqueueOne(c, e, s, pending[0].to, pending[0].frame)
    ensures KeepsDue(one.state, pending[1..] + one.more, q, due)
  {
    OneFrameLogs(c, e, s, pending[0].to, pending[0].frame, q);
    if q in one.state.connected {
      DueOfFirst(s, pending, one.more, one.state, q, if pending[0].to == q then [pending[0].frame] else []);
    }
  }

  /** For a connection that survives, every frame of the work list is queued, in order. */
  lemma EverythingDueIsQueued(c: Config, e: Env, s: State, pending: seq<Pending>, q: PeerId)
    requires s.connected <= s.peers.Keys && q in EnqueueAll(c, e, s, pending).connected
    ensures Due(s, pending, q) <= Logged(EnqueueAll(c, e, s, pending).wire.queued, q)
  {
    var due := Due(s, pending, q);
    var P := (x: State, y: seq<Pending>) => KeepsDue(x, y, q, due);
    forall x: State, y: seq<Pending> | P(x, y) && y != []
      ensures KeptByOne(c, e, x, y, P)
    {
      OneFrameKeepsDue(c, e, x, y, q, due, EnqueueOne(c, e, x, y[0].to, y[0].frame));
    }
    EnqueueAllInduction(c, e, s, pending, P);
  }

  /** A message to another member reaches it if it survives. */
  lemma RelayIsDelivered(c: Config, e: Env, s: State, p: PeerId, m: Message, r: State)
    requires Ok(c, s) && m.Relay? && p in s.connected && s.peers[p].room == Some(m.room)
    requires p != m.to && m.to in s.connected && s.peers[m.to].room == Some(m.room)
    requires r == DoForward(c, e, s, p, m) && m.to in r.connected
    ensures Logged(s.wire.queued, m.to) + [Neutral(m.kind, Some(p), m.payload)] <= Logged(r.wire.queued, m.to)
  {
    var frame := Neutral(m.kind, Some(p), m.payload);
    assert Member(s.house.rooms, m.room, m.to);
    assert r == EnqueueAll(c, e, s, [Pending(m.to, frame)]);
    EverythingDueIsQueued(c, e, s, [Pending(m.to, frame)], m.to);
    ForOne(m.to, frame, m.to);
  }

  // ----- whoever is dropped is closed -----

  ghost predicate DroppedAreClosed(before: set<PeerId>, s: State) {
    forall q: PeerId :: q in before && q !in s.connected ==> q in s.closing.inProgress
  }

  lemma DroppingIsStable(e: Env, before: set<PeerId>)
    ensures Stable(e, (x: State) => DroppedAreClosed(before, x))
  {
  }

  /** Every connection that a cascade drops gets its close. */
  lemma CascadeCloses(c: Config, e: Env, s: State, pending: seq<Pending>, before: set<PeerId>)
    requires s.connected <= s.peers.Keys && DroppedAreClosed(before, s)
    ensures DroppedAreClosed(before, EnqueueAll(c, e, s, pending))
  {
    DroppingIsStable(e, before);
    EnqueueAllKeepsBoth(c, e, (x: State) => DroppedAreClosed(before, x), s, pending);
  }

  /** Closing a connection removes it, and closes it and every other that is dropped because of it. */
  lemma ClosingCloses(c: Config, e: Env, s: State, p: PeerId, superseded: bool)
    requires s.connected <= s.peers.Keys && p in s.connected
    ensures var r := CloseNow(c, e, s, p, superseded);
            p !in r.connected && p in r.closing.inProgress && DroppedAreClosed(s.connected, r)
  {
    var d := DisconnectAndClose(e, s, p, superseded);
    RemovalKeepsOthers(s.peers, s.house, p, e.now, false);
    assert DroppedAreClosed(s.connected, d.state);
    CascadeCloses(c, e, d.state, d.more, s.connected);
  }

  // ----- joining and leaving -----

  ghost predicate IsIn(s: State, p: PeerId, room: RoomId, host: bool) {
    p in s.connected ==> p in s.peers && s.peers[p].room == Some(room) && s.peers[p].host == host
  }

  lemma BeingInIsStable(e: Env, p: PeerId, room: RoomId, host: bool)
    ensures Stable(e, (x: State) => IsIn(x, p, room, host))
  {
    forall s: State, q: PeerId | IsIn(s, p, room, host) && q in s.connected && s.connected <= s.peers.Keys
      ensures IsIn(DisconnectAndClose(e, s, q, false).state, p, room, host)
    {
      RemovalKeepsOthers(s.peers, s.house, q, e.now, false);
    }
  }

  lemma SendingKeepsIn(c: Config, e: Env, s: State, pending: seq<Pending>, p: PeerId, room: RoomId, host: bool)
    requires s.connected <= s.peers.Keys && IsIn(s, p, room, host)
    ensures var r := EnqueueAll(c, e, s, pending);
            IsIn(r, p, room, host) && r.connected <= r.peers.Keys
  {
    BeingInIsStable(e, p, room, host);
    EnqueueAllKeepsBoth(c, e, (x: State) => IsIn(x, p, room, host), s, pending);
  }

  lemma EnteringGetsIn(c: Config, e: Env, s: State, p: PeerId, room: RoomId, host: bool)
    requires s.connected <= s.peers.Keys && p in s.connected && |MembersOf(s.house, room)| < c.maxRoomSize
    ensures IsIn(Enter(c, e, s, p, room, host), p, room, host)
  {
    var inside := Entered(s, p, room, host, e.now);
    var welcome := [Pending(p, RoomJoined(room, MembersOf(s.house, room)))];
    var told := EnqueueAll(c, e, inside, welcome);
    EnterInParts(c, e, s, p, room, host, told);
    SendingKeepsIn(c, e, inside, welcome, p, room, host);
    if p in told.connected {
      SendingKeepsIn(c, e, told.(peers := told.peers[p := told.peers[p].(announced := true)]),
                     Broadcast(MembersOf(told.house, room), PeerJoined(room, p), Some(p)), p, room, host);
    }
  }

  ghost predicate InNoRoom(s: State, p: PeerId) {
    p in s.peers ==> s.peers[p].room == None
  }

  lemma SendingKeepsOutside(c: Config, e: Env, s: State, pending: seq<Pending>, p: PeerId)
    requires s.connected <= s.peers.Keys && InNoRoom(s, p)
    ensures InNoRoom(EnqueueAll(c, e, s, pending), p)
  {
    forall x: State, q: PeerId | InNoRoom(x, p) && q in x.connected && x.connected <= x.peers.Keys
      ensures InNoRoom(DisconnectAndClose(e, x, q, false).state, p)
    {
      RemovalKeepsOthers(x.peers, x.house, q, e.now, false);
    }
    EnqueueAllKeepsBoth(c, e, (x: State) => InNoRoom(x, p), s, pending);
  }

  /** A room has a place again once the older session of a person has been closed. */
  lemma PlaceIsFree(c: Config, s: State, replaced: State, room: RoomId, existing: PeerId)
    requires HouseOk(c, s.connected, s.peers, s.house) && HouseOk(c, replaced.connected, replaced.peers, replaced.house)
    requires Keeps(s, replaced) && Member(s.house.rooms, room, existing) && existing !in replaced.connected
    ensures |MembersOf(replaced.house, room)| < c.maxRoomSize
  {
    var before, after := MembersOf(s.house, room), MembersOf(replaced.house, room);
    forall q: PeerId | q in after
      ensures q in before && q != existing
    {
      assert Member(replaced.house.rooms, room, q);
      StillMember(c, s, replaced, room, q);
    }
    NoDupSize(before);
    if room in replaced.house.rooms {
      NoDupSize(after);
    }
    SubsetSize(Elems(after), Elems(before) - {existing});
    assert existing in Elems(before);
  }

  /**
   Joining, once permitted, gets the connection into the room with its role if it survives, exactly
   unless the room is full; who takes over from an older session always finds a place.
   */
  lemma JoiningGetsIn(c: Config, e: Env, s: State, p: PeerId, m: Message)
    requires ValidConfig(c) && Ok(c, s) && m.Join? && p in s.connected && s.peers[p].room == None && m.allowed && m.role.Some?
    requires p in DoJoin(c, e, s, p, m).connected
    ensures var r := DoJoin(c, e, s, p, m);
            var found := SameSubject(s.peers, MembersOf(s.house, m.room), s.peers[p].subject);
            if found.Some? || |MembersOf(s.house, m.room)| < c.maxRoomSize
            then IsIn(r, p, m.room, m.role.value) else InNoRoom(r, p)
  {
    var found := SameSubject(s.peers, MembersOf(s.house, m.room), s.peers[p].subject);
    SameSubjectFinds(s.peers, MembersOf(s.house, m.room), s.peers[p].subject);
    JoinInParts(c, e, s, p, m, found);
    if found == None {
      if |MembersOf(s.house, m.room)| < c.maxRoomSize {
        EnteringGetsIn(c, e, s, p, m.room, m.role.value);
      } else {
        FullRoomExists(c, s.house, m.room);
        RestoresNothing(s.house, m.room, e.now);
        SendingKeepsOutside(c, e, s, [Pending(p, Neutral("error", None, "ROOM_FULL"))], p);
      }
    } else {
      assert Member(s.house.rooms, m.room, found.value);
      TakingOverGetsIn(c, e, s, p, m.room, m.role.value, found.value, CloseNow(c, e, s, found.value, true), DoJoin(c, e, s, p, m));
    }
  }

  lemma TakingOverGetsIn(c: Config, e: Env, s: State, p: PeerId, room: RoomId, host: bool, existing: PeerId, replaced: State, r: State)
    requires Ok(c, s) && p in s.connected && Member(s.house.rooms, room, existing)
    requires replaced == CloseNow(c, e, s, existing, true)
    requires r == if p < existing then CloseNow(c, e, s, p, true)
                  else if p !in replaced.connected || p !in replaced.peers then replaced
                  else Enter(c, e, PuttingBack(s, replaced, room), p, room, host)
    ensures IsIn(r, p, room, host)
  {
    if p < existing {
      CloseNowOk(c, e, s, p, true, r);
    } else {
      CloseNowOk(c, e, s, existing, true, replaced);
      PuttingBackGetsIn(c, e, s, p, room, host, existing, replaced);
    }
  }

  lemma PuttingBackGetsIn(c: Config, e: Env, s: State, p: PeerId, room: RoomId, host: bool, existing: PeerId, replaced: State)
    requires Ok(c, s) && Member(s.house.rooms, room, existing) && replaced == CloseNow(c, e, s, existing, true)
    ensures p in replaced.connected && p in replaced.peers
            ==> IsIn(Enter(c, e, PuttingBack(s, replaced, room), p, room, host), p, room, host)
  {
    CloseNowOk(c, e, s, existing, true, replaced);
    PlaceIsFree(c, s, replaced, room, existing);
    if p in replaced.connected && p in replaced.peers {
      var kept := PuttingBack(s, replaced, room);
      assert MembersOf(kept.house, room) == MembersOf(replaced.house, room);
      EnteringGetsIn(c, e, kept, p, room, host);
    }
  }

  /** Whoever leaves is in no room afterwards. */
  lemma LeavingGetsOut(c: Config, e: Env, s: State, p: PeerId)
    requires Ok(c, s) && p in s.connected
    ensures InNoRoom(DoLeave(c, e, s, p), p)
  {
    var d := RemovePeerFromRoom(s.peers, s.house, p, e.now, true);
    RemovalKeepsIdentities(s.peers, s.house, p, e.now, true);
    SendingKeepsOutside(c, e, s.(peers := d.peers, house := d.house), d.pending, p);
  }

  // ----- hands and timers -----

  /** While p is connected its room exists, with p as a member and with this hand. */
  ghost predicate HandIs(s: State, p: PeerId, room: RoomId, raised: bool) {
    p in s.connected ==>
      && room in s.house.rooms && p in s.house.rooms[room]
      && room in s.house.hands && (p in s.house.hands[room].queue <==> raised)
  }

  lemma RemovalKeepsHand(e: Env, s: State, p: PeerId, room: RoomId, raised: bool, q: PeerId)
    requires HandIs(s, p, room, raised) && q in s.connected && s.connected <= s.peers.Keys
    ensures HandIs(DisconnectAndClose(e, s, q, false).state, p, room, raised)
  {
    RemovalKeepsOthers(s.peers, s.house, q, e.now, false);
    if p in s.connected && p != q && s.peers[q].room == Some(room) && q in s.house.rooms[room] {
      assert p in Without(s.house.rooms[room], q);
    }
  }

  lemma SendingKeepsHand(c: Config, e: Env, s: State, pending: seq<Pending>, p: PeerId, room: RoomId, raised: bool)
    requires s.connected <= s.peers.Keys && HandIs(s, p, room, raised)
    ensures HandIs(EnqueueAll(c, e, s, pending), p, room, raised)
  {
    var Q := (x: State) => HandIs(x, p, room, raised);
    forall x: State, q: PeerId | Q(x) && q in x.connected && x.connected <= x.peers.Keys
      ensures Q(DisconnectAndClose(e, x, q, false).state)
    {
      RemovalKeepsHand(e, x, p, room, raised, q);
    }
    EnqueueAllKeepsBoth(c, e, Q, s, pending);
  }

  /** Raising or lowering a hand puts it in or out of the queue, as long as its owner stays. */
  lemma HandIsTaken(c: Config, e: Env, s: State, p: PeerId, room: RoomId, raised: bool)
    requires Ok(c, s) && p in s.connected && s.peers[p].room == Some(room)
    ensures HandIs(DoHand(c, e, s, p, room, Some(raised)), p, room, raised)
  {
    var queue := if room in s.house.hands then s.house.hands[room] else Hand.EMPTY_QUEUE;
    var changed := Hand.Changes(queue, p, raised);
    var queue' := if changed then Hand.Update(queue, p, raised) else queue;
    var s' := s.(house := s.house.(hands := s.house.hands[room := queue']));
    var pending := if changed then Broadcast(MembersOf(s.house, room), HandState(room, queue'), None) else [Pending(p, HandState(room, queue'))];
    assert Member(s.house.rooms, room, p);
    HandIsSet(s.house.hands, room, p, raised, queue, queue');
    SendingKeepsHand(c, e, s', pending, p, room, raised);
    HandInParts(c, e, s, p, room, raised, queue, queue', s', pending);
  }

  lemma HandIsSet(hands: map<RoomId, Hand.HandQueue>, room: RoomId, p: PeerId, raised: bool, queue: Hand.HandQueue, queue': Hand.HandQueue)
    requires queue == if room in hands then hands[room] else Hand.EMPTY_QUEUE
    requires room in hands ==> NoDup(hands[room].queue)
    requires queue' == if Hand.Changes(queue, p, raised) then Hand.Update(queue, p, raised) else queue
    ensures p in queue'.queue <==> raised
  {
    Hand.UpdateKeepsOrder(queue, p, raised);
  }

  lemma HandInParts(
    c: Config, e: Env, s: State, p: PeerId, room: RoomId, raised: bool, queue: Hand.HandQueue, queue': Hand.HandQueue,
    s': State, pending: seq<Pending>)
    requires queue == if room in s.house.hands then s.house.hands[room] else Hand.EMPTY_QUEUE
    requires queue' == if Hand.Changes(queue, p, raised) then Hand.Update(queue, p, raised) else queue
    requires s' == s.(house := s.house.(hands := s.house.hands[room := queue']))
    requires pending == if Hand.Changes(queue, p, raised) then Broadcast(MembersOf(s.house, room), HandState(room, queue'), None)
                        else [Pending(p, HandState(room, queue'))]
    ensures DoHand(c, e, s, p, room, Some(raised)) == EnqueueAll(c, e, s', pending)
  {
  }

  ghost function TimerOf(h: House, room: RoomId): Study.Timer {
    if room in h.studies then h.studies[room] else Study.NEW_TIMER
  }

  /** A host's command is applied to the timer of the room, which stays if the room does; nobody else's is. */
  lemma CommandIsTaken(c: Config, e: Env, s: State, p: PeerId, room: RoomId, command: Study.Command)
    requires Ok(c, s) && p in s.connected && s.peers[p].room == Some(room)
    ensures s.peers[p].host
            ==> TimerIs(DoStudy(c, e, s, p, room, Some(command)).house, room, Study.Apply(TimerOf(s.house, room), command, e.now))
    ensures !s.peers[p].host && room in s.house.studies
            ==> TimerIs(DoStudy(c, e, s, p, room, Some(command)).house, room, s.house.studies[room])
  {
    var timer := TimerOf(s.house, room);
    if s.peers[p].host {
      var timer' := Study.Apply(timer, command, e.now);
      var s' := s.(house := s.house.(studies := s.house.studies[room := timer']));
      var frame := StudyState(room, InfoOf(timer'));
      SendingKeepsTimer(c, e, s',
                        if Study.Accepts(timer, command) then Broadcast(MembersOf(s.house, room), frame, None) else [Pending(p, frame)],
                        room, timer');
    } else if room in s.house.studies {
      SendingKeepsTimer(c, e, s, [Pending(p, Neutral("error", None, "FORBIDDEN"))], room, timer);
    }
  }

  // ----- connecting, sweeping and limiting -----

  /** A handshake becomes a connection, the next one, exactly if its lease has not expired and the server runs. */
  lemma HandshakeConnects(c: Config, e: Env, s: State, id: Admission.ReservationId, subject: Option<Subject>, expired: bool)
    requires ValidConfig(c) && Ok(c, s) && id in s.handshaking
    ensures var r := DoConnect(c, e, s, id, subject, expired);
            && (s.nextSequence in r.connected <==> !expired && s.running)
            && (s.nextSequence in r.connected ==>
                  && r.connected == s.connected + {s.nextSequence} && id !in r.handshaking
                  && r.peers[s.nextSequence].reservation == id && r.peers[s.nextSequence].subject == subject
                  && r.peers[s.nextSequence].room == None)
            && (s.nextSequence !in r.connected ==> r.connected == s.connected && id in r.handshaking)
  {
    assert id in s.policy.live && id in s.policy.issued;
    SignalingRuns.AssertionHolds(c, s, e.now, id, s.policy.issued[id].client);
    assert s.nextSequence !in s.connected;
  }

  lemma {:induction false} SweepShrinks(c: Config, e: Env, s: State, timedOut: seq<(PeerId, bool)>)
    ensures SweepAll(c, e, s, timedOut).connected <= s.connected
    decreases |timedOut|
  {
    if timedOut != [] {
      SweepShrinks(c, e, SweepOne(c, e, s, timedOut[0].0, timedOut[0].1), timedOut[1..]);
    }
  }

  /** A sweep leaves no connection that it found to have waited too long. */
  lemma {:induction false} SweepCloses(c: Config, e: Env, s: State, timedOut: seq<(PeerId, bool)>, p: PeerId)
    requires Ok(c, s) && (p, true) in timedOut
    ensures p !in SweepAll(c, e, s, timedOut).connected
    decreases |timedOut|
  {
    var (q, late) := timedOut[0];
    var one := SweepOne(c, e, s, q, late);
    SignalingRuns.SweepOneOk(c, e, s, q, late, one);
    if (q, late) == (p, true) {
      SweptOneGone(c, e, s, p);
      SweepShrinks(c, e, one, timedOut[1..]);
    } else {
      SweepCloses(c, e, one, timedOut[1..], p);
    }
  }

  lemma SweptOneGone(c: Config, e: Env, s: State, p: PeerId)
    requires Ok(c, s)
    ensures p !in SweepOne(c, e, s, p, true).connected
  {
    if p in s.connected {
      var looked := CheckLease(c, e, s, p);
      CheckLeaseOk(c, e, s, p, looked);
      if !e.expired(p, s.checks) {
        CloseNowOk(c, e, looked, p, false, CloseNow(c, e, looked, p, false));
      }
    }
  }

  lemma {:induction false} HeartbeatShrinks(c: Config, e: Env, s: State, beats: seq<(PeerId, Beat)>)
    ensures DoHeartbeat(c, e, s, beats).connected <= s.connected
    decreases |beats|
  {
    if beats != [] {
      HeartbeatShrinks(c, e, BeatOne(c, e, s, beats[0].0, beats[0].1), beats[1..]);
    }
  }

  /** A heartbeat leaves no connection whose answer is overdue. */
  lemma {:induction false} HeartbeatCloses(c: Config, e: Env, s: State, beats: seq<(PeerId, Beat)>, p: PeerId)
    requires Ok(c, s) && (p, Overdue) in beats
    ensures p !in DoHeartbeat(c, e, s, beats).connected
    decreases |beats|
  {
    var (q, beat) := beats[0];
    var one := BeatOne(c, e, s, q, beat);
    SignalingRuns.BeatOk(c, e, s, q, beat, one);
    if (q, beat) == (p, Overdue) {
      OverdueIsLate(c, e, s, p);
      SweptOneGone(c, e, s, p);
      HeartbeatShrinks(c, e, one, beats[1..]);
    } else {
      HeartbeatCloses(c, e, one, beats[1..], p);
    }
  }

  /** An overdue answer and an overdue join are treated alike. */
  lemma OverdueIsLate(c: Config, e: Env, s: State, p: PeerId)
    ensures BeatOne(c, e, s, p, Overdue) == SweepOne(c, e, s, p, true)
  {
  }

  /** The client of a connection is in the table. */
  lemma ConnectedIsTracked(peers: map<PeerId, Peer>, connected: set<PeerId>, l: Inbound.Limiter, p: PeerId)
    requires InboundOk(peers, connected, l) && p in connected && p in peers
    ensures peers[p].client in l.clients
  {
    assert p in OfClient(peers, connected, peers[p].client);
  }

  /** A session that exceeds its own limit is closed; one that is only refused by another limit is not. */
  lemma ExcessCloses(c: Config, e: Env, s: State, p: PeerId, bytes: nat)
    requires Ok(c, s) && p in s.connected
    ensures s.peers[p].client in s.inbound.clients
    ensures var a := Inbound.TryAcquire(c.inbound, s.inbound, s.peers[p].client, s.peers[p].session, e.now, bytes);
            p in DoReceive(c, e, s, p, bytes).connected
            <==> !e.expired(p, s.checks) && a.decision != Inbound.SESSION_FRAME_LIMITED && a.decision != Inbound.SESSION_BYTE_LIMITED
  {
    ConnectedIsTracked(s.peers, s.connected, s.inbound, p);
    var looked := CheckLease(c, e, s, p);
    CheckLeaseOk(c, e, s, p, looked);
    var a := Inbound.TryAcquire(c.inbound, s.inbound, s.peers[p].client, s.peers[p].session, e.now, bytes);
    var counted := looked.(inbound := a.limiter, peers := s.peers[p := s.peers[p].(session := a.session)]);
    if !e.expired(p, s.checks) && (a.decision == Inbound.SESSION_FRAME_LIMITED || a.decision == Inbound.SESSION_BYTE_LIMITED) {
      ClosingCloses(c, e, counted, p, false);
    }
  }
}
