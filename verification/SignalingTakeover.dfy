/** One person, one place in a room: which session gives way, and what the room keeps. */
module SignalingTakeover {
  import opened Common
  import opened Frames
  import opened SignalingState
  import opened SignalingRooms
  import opened SignalingCascade
  import opened SignalingDelivery
  import opened SignalingMessages
  import opened SignalingJoin
  import Out = OutboundDispatcher
  import Study = RoomStudyState

  /** A property of single states that closing one connection keeps. */
  ghost predicate Stable(e: Env, Q: State -> bool) {
    && (forall s: State, p: PeerId :: Q(s) && p in s.connected && s.connected <= s.peers.Keys
                                      ==> Q(DisconnectAndClose(e, s, p, false).state))
    && (forall s: State, w: Wire :: Q(s) ==> Q(s.(wire := w)))
    && (forall s: State, k: nat :: Q(s) ==> Q(s.(checks := k)))
  }

  ghost predicate Both(Q: State -> bool, s: State) {
    Q(s) && s.connected <= s.peers.Keys
  }

  lemma CloseKeepsBoth(e: Env, Q: State -> bool, s: State, p: PeerId)
    requires Stable(e, Q) && Both(Q, s) && p in s.connected
    ensures Both(Q, DisconnectAndClose(e, s, p, false).state)
  {
    OneCleared(e, s, p, DisconnectAndClose(e, s, p, false).state);
  }

  lemma RelieveKeepsBoth(c: Config, e: Env, Q: State -> bool, s: State, p: PeerId, bytes: int)
    requires Stable(e, Q) && Both(Q, s) && p in s.connected
    ensures Both(Q, Relieved(c, e, s, p, bytes).state)
  {
    if Out.GlobalLimitExceeded(s.wire.queues, c.maxGlobalBytes, bytes) {
      var victims := Out.Victims(s.wire.queues, s.connected, c.maxGlobalBytes, bytes);
      VictimsConnected(s.wire.queues, s.connected, c.maxGlobalBytes, bytes, victims);
      var P := (x: State, y: seq<Pending>) => Both(Q, x);
      forall x: State, y: seq<Pending>, q: PeerId | P(x, y) && q in x.connected
        ensures KeptByClosing(e, x, y, q, P)
      {
        CloseKeepsBoth(e, Q, x, q);
      }
      CloseVictimsInduction(e, s, [], victims, p, P);
    }
  }

  lemma EnqueueOneKeepsBoth(c: Config, e: Env, Q: State -> bool, s: State, p: PeerId, f: Frame)
    requires Stable(e, Q) && Both(Q, s)
    ensures Both(Q, EnqueueOne(c, e, s, p, f).state)
  {
    if p in s.connected {
      var looked := s.(checks := s.checks + 1);
      EnqueueOneInParts(c, e, s, p, f);
      if ClosedAtOnce(c, e, s, p, f) {
        CloseKeepsBoth(e, Q, looked, p);
      } else {
        var r := Relieved(c, e, looked, p, Length(e, f));
        RelieveAndPutInParts(c, e, looked, p, f);
        RelieveKeepsBoth(c, e, Q, looked, p, Length(e, f));
        if p in r.state.connected && Out.GlobalLimitExceeded(r.state.wire.queues, c.maxGlobalBytes, Length(e, f)) {
          CloseKeepsBoth(e, Q, r.state, p);
        }
      }
    }
  }

  /** What closing keeps and queueing does not touch holds after any number of frames. */
  lemma EnqueueAllKeepsBoth(c: Config, e: Env, Q: State -> bool, s: State, pending: seq<Pending>)
    requires Stable(e, Q) && Both(Q, s)
    ensures Both(Q, EnqueueAll(c, e, s, pending))
  {
    var P := (x: State, y: seq<Pending>) => Both(Q, x);
    forall x: State, y: seq<Pending> | P(x, y) && y != []
      ensures KeptByOne(c, e, x, y, P)
    {
      EnqueueOneKeepsBoth(c, e, Q, x, y[0].to, y[0].frame);
    }
    EnqueueAllInduction(c, e, s, pending, P);
  }

  // ----- who is superseded -----

  lemma CleanupIsStable(e: Env, cleanup: set<PeerId>)
    ensures Stable(e, (x: State) => x.closing.cleanup == cleanup)
  {
  }

  lemma SendingKeepsCleanup(c: Config, e: Env, s: State, pending: seq<Pending>)
    requires s.connected <= s.peers.Keys
    ensures var r := EnqueueAll(c, e, s, pending);
            r.closing.cleanup == s.closing.cleanup && r.connected <= r.peers.Keys
  {
    var cleanup := s.closing.cleanup;
    CleanupIsStable(e, cleanup);
    EnqueueAllKeepsBoth(c, e, (x: State) => x.closing.cleanup == cleanup, s, pending);
  }

  lemma EnterKeepsCleanup(c: Config, e: Env, s: State, p: PeerId, room: RoomId, host: bool)
    requires s.connected <= s.peers.Keys && p in s.peers
    ensures Enter(c, e, s, p, room, host).closing.cleanup == s.closing.cleanup
  {
    if |MembersOf(s.house, room)| >= c.maxRoomSize {
      SendingKeepsCleanup(c, e, s.(house := RestoreParked(s.house, room, e.now)), [Pending(p, Neutral("error", None, "ROOM_FULL"))]);
    } else {
      var inside := Entered(s, p, room, host, e.now);
      var told := Send(c, e, inside, p, RoomJoined(room, MembersOf(s.house, room)));
      EnterInParts(c, e, s, p, room, host, told);
      SendingKeepsCleanup(c, e, inside, [Pending(p, RoomJoined(room, MembersOf(s.house, room)))]);
      if p in told.connected {
        SendingKeepsCleanup(c, e, told.(peers := told.peers[p := told.peers[p].(announced := true)]),
                            Broadcast(MembersOf(told.house, room), PeerJoined(room, p), Some(p)));
      }
    }
  }

  lemma SupersedingAddsOne(c: Config, e: Env, s: State, p: PeerId)
    requires s.connected <= s.peers.Keys && p in s.connected
    ensures var r := CloseNow(c, e, s, p, true);
            r.closing.cleanup == s.closing.cleanup + {p} && p !in r.connected && r.connected <= r.peers.Keys
  {
    var d := DisconnectAndClose(e, s, p, true);
    RemovalKeepsOthers(s.peers, s.house, p, e.now, false);
    SendingKeepsCleanup(c, e, d.state, d.more);
  }

  /**
   When somebody joins who is already in the room with another session, exactly the session with the
   lower connection sequence is superseded, whichever of the two is joining; otherwise nobody is.
   */
  lemma OlderGivesWay(c: Config, e: Env, s: State, p: PeerId, m: Message)
    requires Ok(c, s) && m.Join? && p in s.connected && p in s.peers
    requires s.peers[p].room == None && m.allowed && m.role.Some?
    ensures var r := DoJoin(c, e, s, p, m);
            match SameSubject(s.peers, MembersOf(s.house, m.room), s.peers[p].subject)
            case None => r.closing.cleanup == s.closing.cleanup
            case Some(existing) =>
              var older := if p < existing then p else existing;
              r.closing.cleanup == s.closing.cleanup + {older} && older !in r.connected
  {
    var found := SameSubject(s.peers, MembersOf(s.house, m.room), s.peers[p].subject);
    SameSubjectFinds(s.peers, MembersOf(s.house, m.room), s.peers[p].subject);
    JoinInParts(c, e, s, p, m, found);
    match found {
      case None =>
        EnterKeepsCleanup(c, e, s, p, m.room, m.role.value);
      case Some(existing) =>
        assert Member(s.house.rooms, m.room, existing);
        SupersedingAddsOne(c, e, s, p);
        SupersedingAddsOne(c, e, s, existing);
        var replaced := CloseNow(c, e, s, existing, true);
        if p >= existing && p in replaced.connected {
          EnterKeepsCleanup(c, e, PuttingBack(s, replaced, m.room), p, m.room, m.role.value);
        }
    }
  }

  // ----- the timer of the room -----

  /** If the room exists, its timer is t. */
  ghost predicate TimerIs(h: House, room: RoomId, t: Study.Timer) {
    room in h.rooms ==> room in h.studies && h.studies[room] == t
  }

  lemma RemovalKeepsTimer(peers: map<PeerId, Peer>, h: House, p: PeerId, now: int, leftByRequest: bool, room: RoomId, t: Study.Timer)
    requires p in peers && TimerIs(h, room, t)
    ensures TimerIs(RemovePeerFromRoom(peers, h, p, now, leftByRequest).house, room, t)
  {
  }

  lemma TimerIsStable(e: Env, room: RoomId, t: Study.Timer)
    ensures Stable(e, (x: State) => TimerIs(x.house, room, t))
  {
    forall s: State, p: PeerId | TimerIs(s.house, room, t) && p in s.connected && s.connected <= s.peers.Keys
      ensures TimerIs(DisconnectAndClose(e, s, p, false).state.house, room, t)
    {
      RemovalKeepsTimer(s.peers, s.house, p, e.now, false, room, t);
    }
  }

  lemma SendingKeepsTimer(c: Config, e: Env, s: State, pending: seq<Pending>, room: RoomId, t: Study.Timer)
    requires s.connected <= s.peers.Keys && TimerIs(s.house, room, t)
    ensures var r := EnqueueAll(c, e, s, pending);
            TimerIs(r.house, room, t) && r.connected <= r.peers.Keys
  {
    TimerIsStable(e, room, t);
    EnqueueAllKeepsBoth(c, e, (x: State) => TimerIs(x.house, room, t), s, pending);
  }

  lemma EnterKeepsTimer(c: Config, e: Env, s: State, p: PeerId, room: RoomId, host: bool, t: Study.Timer)
    requires ValidConfig(c) && s.connected <= s.peers.Keys && p in s.peers
    requires var h := RestoreParked(s.house, room, e.now); room in h.studies && h.studies[room] == t
    ensures TimerIs(Enter(c, e, s, p, room, host).house, room, t)
  {
    if |MembersOf(s.house, room)| >= c.maxRoomSize {
      SendingKeepsTimer(c, e, s.(house := RestoreParked(s.house, room, e.now)), [Pending(p, Neutral("error", None, "ROOM_FULL"))], room, t);
    } else {
      var inside := Entered(s, p, room, host, e.now);
      var told := Send(c, e, inside, p, RoomJoined(room, MembersOf(s.house, room)));
      EnterInParts(c, e, s, p, room, host, told);
      SendingKeepsTimer(c, e, inside, [Pending(p, RoomJoined(room, MembersOf(s.house, room)))], room, t);
      if p in told.connected {
        SendingKeepsTimer(c, e, told.(peers := told.peers[p := told.peers[p].(announced := true)]),
                          Broadcast(MembersOf(told.house, room), PeerJoined(room, p), Some(p)), room, t);
      }
    }
  }

  lemma SupersedingKeepsTimer(c: Config, e: Env, s: State, p: PeerId, room: RoomId, t: Study.Timer)
    requires s.connected <= s.peers.Keys && p in s.connected && TimerIs(s.house, room, t)
    ensures TimerIs(CloseNow(c, e, s, p, true).house, room, t)
    ensures CloseNow(c, e, s, p, true).connected <= CloseNow(c, e, s, p, true).peers.Keys
  {
    var d := DisconnectAndClose(e, s, p, true);
    RemovalKeepsOthers(s.peers, s.house, p, e.now, false);
    RemovalKeepsTimer(s.peers, s.house, p, e.now, false, room, t);
    SendingKeepsTimer(c, e, d.state, d.more, room, t);
  }

  lemma RestoringKeepsTimer(h: House, room: RoomId, now: int, t: Study.Timer)
    requires room in h.studies && h.studies[room] == t
    ensures var h' := RestoreParked(h, room, now); room in h'.studies && h'.studies[room] == t
  {
  }

  /** Joining a room never changes its timer, not even by taking over from the only member. */
  lemma TimerSurvivesTakeover(c: Config, e: Env, s: State, p: PeerId, m: Message, t: Study.Timer)
    requires ValidConfig(c) && Ok(c, s) && m.Join? && p in s.connected && p in s.peers
    requires s.peers[p].room == None && m.allowed && m.role.Some?
    requires m.room in s.house.studies && s.house.studies[m.room] == t
    ensures TimerIs(DoJoin(c, e, s, p, m).house, m.room, t)
  {
    var found := SameSubject(s.peers, MembersOf(s.house, m.room), s.peers[p].subject);
    SameSubjectFinds(s.peers, MembersOf(s.house, m.room), s.peers[p].subject);
    JoinInParts(c, e, s, p, m, found);
    match found {
      case None =>
        RestoringKeepsTimer(s.house, m.room, e.now, t);
        EnterKeepsTimer(c, e, s, p, m.room, m.role.value, t);
      case Some(existing) =>
        assert Member(s.house.rooms, m.room, existing);
        SupersedingKeepsTimer(c, e, s, p, m.room, t);
        SupersedingKeepsTimer(c, e, s, existing, m.room, t);
        var replaced := CloseNow(c, e, s, existing, true);
        CloseNowOk(c, e, s, existing, true, replaced);
        if p >= existing && p in replaced.connected {
          TakeoverKeepsTimer(c, e, s, replaced, p, m.room, m.role.value, t);
        }
    }
  }

  lemma TakeoverKeepsTimer(c: Config, e: Env, s: State, replaced: State, p: PeerId, room: RoomId, host: bool, t: Study.Timer)
    requires ValidConfig(c) && replaced.connected <= replaced.peers.Keys && p in replaced.peers
    requires room in s.house.studies && s.house.studies[room] == t
    requires StudiesOk(replaced.house) && TimerIs(replaced.house, room, t)
    ensures TimerIs(Enter(c, e, PuttingBack(s, replaced, room), p, room, host).house, room, t)
  {
    var kept := PuttingBack(s, replaced, room);
    assert room in kept.house.studies && kept.house.studies[room] == t;
    RestoringKeepsTimer(kept.house, room, e.now, t);
    EnterKeepsTimer(c, e, kept, p, room, host, t);
  }
}
