/** What each message of a client, each close and each lease check keeps. */
module SignalingMessages {
  import opened Common
  import opened Frames
  import opened SignalingState
  import opened SignalingRooms
  import opened SignalingHolds
  import opened SignalingCascade
  import opened SignalingDelivery
  import Study = RoomStudyState
  import Hand = RoomHandQueue

  /** While the monitor is free, a connection is announced exactly when it is in a room. */
  ghost predicate Settled(connected: set<PeerId>, peers: map<PeerId, Peer>) {
    forall p: PeerId :: p in connected && p in peers ==> (peers[p].announced <==> peers[p].room.Some?)
  }

  /** What holds whenever the monitor is free. */
  ghost predicate Ok(c: Config, s: State) {
    Inv(c, s, []) && Settled(s.connected, s.peers)
  }

  lemma EnqueueAllOk(c: Config, e: Env, s: State, pending: seq<Pending>)
    requires Inv(c, s, pending) && Settled(s.connected, s.peers)
    ensures Ok(c, EnqueueAll(c, e, s, pending))
    ensures Keeps(s, EnqueueAll(c, e, s, pending))
  {
    EnqueueAllKeeps(c, e, s, pending);
  }

  /** Frames that say nothing about the room may be sent at any time. */
  lemma NeutralKeepsViews(
    connected: set<PeerId>, peers: map<PeerId, Peer>, h: House, queued: map<PeerId, seq<Frame>>, p: PeerId, f: Frame)
    requires ViewsOk(connected, peers, h, queued, []) && f.Neutral?
    ensures ViewsOk(connected, peers, h, queued, [Pending(p, f)])
  {
    forall q: PeerId | q in connected
      ensures Foreseen(queued, [Pending(p, f)], q) == Foreseen(queued, [], q)
    {
      ForeseenMore(queued, [], [Pending(p, f)], q);
      assert [] + [Pending(p, f)] == [Pending(p, f)];
      ForOne(p, f, q);
    }
  }

  lemma ForOne(p: PeerId, f: Frame, q: PeerId)
    ensures For([Pending(p, f)], q) == if p == q then [f] else []
    ensures forall v :: ReadAll(v, [f]) == Read(v, f)
  {
  }

  lemma SendNeutralOk(c: Config, e: Env, s: State, p: PeerId, f: Frame, r: State)
    requires Ok(c, s) && f.Neutral? && r == Send(c, e, s, p, f)
    ensures Ok(c, r) && Keeps(s, r)
  {
    NeutralKeepsViews(s.connected, s.peers, s.house, s.wire.queued, p, f);
    EnqueueAllOk(c, e, s, [Pending(p, f)]);
  }

  lemma SendErrorOk(c: Config, e: Env, s: State, p: PeerId, code: string, r: State)
    requires Ok(c, s) && r == SendError(c, e, s, p, code)
    ensures Ok(c, r) && Keeps(s, r)
  {
    SendNeutralOk(c, e, s, p, Neutral("error", None, code), r);
  }

  // ----- closing -----

  lemma SettledKept(s: State, s': State)
    requires Settled(s.connected, s.peers) && Keeps(s, s')
    ensures Settled(s'.connected, s'.peers)
  {
  }

  /** A section that has closed somebody and then tells the others. */
  lemma AfterClosing(c: Config, e: Env, s: State, d: Step, r: State)
    requires Settled(s.connected, s.peers) && Keeps(s, d.state)
    requires Inv(c, d.state, [] + d.more) && r == EnqueueAll(c, e, d.state, d.more)
    ensures Ok(c, r) && Keeps(s, r)
  {
    assert [] + d.more == d.more;
    SettledKept(s, d.state);
    EnqueueAllOk(c, e, d.state, d.more);
    KeepsTransitive(s, d.state, r);
  }

  lemma CloseNowOk(c: Config, e: Env, s: State, p: PeerId, superseded: bool, r: State)
    requires Ok(c, s) && p in s.connected && r == CloseNow(c, e, s, p, superseded)
    ensures Ok(c, r) && Keeps(s, r)
    ensures p !in r.connected
  {
    CloseKeepsInv(c, e, s, [], p, superseded);
    AfterClosing(c, e, s, DisconnectAndClose(e, s, p, superseded), r);
  }

  lemma DisconnectOk(c: Config, e: Env, s: State, p: PeerId, r: State)
    requires Ok(c, s) && p in s.connected
    requires r == EnqueueAll(c, e, Disconnect(e, s, p, true).state, Disconnect(e, s, p, true).more)
    ensures Ok(c, r) && Keeps(s, r)
  {
    DisconnectKeepsInv(c, e, s, [], p);
    AfterClosing(c, e, s, Disconnect(e, s, p, true), r);
  }

  lemma LookOk(c: Config, s: State, looked: State)
    requires Ok(c, s) && looked == s.(checks := looked.checks)
    ensures Ok(c, looked) && Keeps(s, looked)
  {
  }

  lemma CheckLeaseInParts(c: Config, e: Env, s: State, p: PeerId)
    ensures CheckLease(c, e, s, p) == var looked := s.(checks := s.checks + 1);
            if e.expired(p, s.checks) then CloseNow(c, e, looked, p, false) else looked
  {
  }

  lemma CheckLeaseOk(c: Config, e: Env, s: State, p: PeerId, r: State)
    requires Ok(c, s) && p in s.connected && r == CheckLease(c, e, s, p)
    ensures Ok(c, r) && Keeps(s, r)
    ensures e.expired(p, s.checks) ==> p !in r.connected
  {
    var looked := s.(checks := s.checks + 1);
    LookOk(c, s, looked);
    CheckLeaseInParts(c, e, s, p);
    if e.expired(p, s.checks) {
      CloseNowOk(c, e, looked, p, false, r);
      KeepsTransitive(s, looked, r);
    }
  }

  // ----- leaving -----

  lemma MovingKeepsHolds(c: Config, s: State, peers: map<PeerId, Peer>)
    requires Inv(c, s, []) && SameIdentities(s.peers, peers)
    ensures ReservationsOk(c, peers, s.connected, s.closing.cleanup, s.policy, s.handshaking)
    ensures InboundOk(peers, s.connected, s.inbound)
  {
    IdentitiesKeepReservations(c, s.peers, peers, s.connected, s.closing.cleanup, s.policy, s.handshaking);
    IdentitiesKeepInbound(s.peers, peers, s.connected, s.inbound);
  }

  lemma LeaveKeepsInv(c: Config, e: Env, s: State, p: PeerId, d: Departure)
    requires Ok(c, s) && p in s.connected && p in s.peers
    requires d == RemovePeerFromRoom(s.peers, s.house, p, e.now, true)
    ensures Inv(c, s.(peers := d.peers, house := d.house), d.pending)
    ensures Settled(s.connected, d.peers)
  {
    RemoveKeepsHouse(c, s.connected, s.connected, s.peers, s.house, p, e.now, true);
    RemoveKeepsViews(c, s.connected, s.connected, s.peers, s.house, s.wire.queued, [], p, e.now, true);
    assert [] + d.pending == d.pending;
    RemovalKeepsIdentities(s.peers, s.house, p, e.now, true);
    MovingKeepsHolds(c, s, d.peers);
    LeaveSettles(s.connected, s.peers, s.house, p, e.now, d.peers);
  }

  lemma LeaveSettles(
    connected: set<PeerId>, peers: map<PeerId, Peer>, h: House, p: PeerId, now: int, peers': map<PeerId, Peer>)
    requires Settled(connected, peers) && p in peers && peers' == RemovePeerFromRoom(peers, h, p, now, true).peers
    ensures Settled(connected, peers')
  {
  }

  lemma LeaveOk(c: Config, e: Env, s: State, p: PeerId, r: State)
    requires Ok(c, s) && p in s.connected && p in s.peers && r == DoLeave(c, e, s, p)
    ensures Ok(c, r)
  {
    var d := RemovePeerFromRoom(s.peers, s.house, p, e.now, true);
    LeaveKeepsInv(c, e, s, p, d);
    EnqueueAllOk(c, e, s.(peers := d.peers, house := d.house), d.pending);
  }

  // ----- hands and timers -----

  lemma BroadcastToAll(members: seq<PeerId>, f: Frame, q: PeerId)
    requires NoDup(members)
    ensures For(Broadcast(members, f, None), q) == if q in members then [f] else []
  {
    BroadcastFor(members, f, None, q);
  }

  /** What a list of frames that concerns one room does to the view of q. */
  lemma ViewAfter(queued: map<PeerId, seq<Frame>>, pending: seq<Pending>, q: PeerId, f: Frame)
    ensures For(pending, q) == [f] ==> Foreseen(queued, pending, q) == Read(Foreseen(queued, [], q), f)
    ensures For(pending, q) == [] ==> Foreseen(queued, pending, q) == Foreseen(queued, [], q)
  {
    ForeseenMore(queued, [], pending, q);
    assert [] + pending == pending;
    ForOne(q, f, q);
  }

  /** Everybody in the room is told of its new hand queue, or it has not changed for the others. */
  lemma HandIsTold(
    c: Config, connected: set<PeerId>, peers: map<PeerId, Peer>, h: House, queued: map<PeerId, seq<Frame>>,
    p: PeerId, room: RoomId, queue: Hand.HandQueue, pending: seq<Pending>, q: PeerId)
    requires RoomsOk(c, connected, peers, h.rooms) && p in connected && peers[p].room == Some(room)
    requires q in connected && q in peers && Agrees(Foreseen(queued, [], q), peers, h, q)
    requires (pending == Broadcast(MembersOf(h, room), HandState(room, queue), None))
             || (pending == [Pending(p, HandState(room, queue))] && (room in h.hands ==> h.hands[room] == queue))
    ensures Agrees(Foreseen(queued, pending, q), peers, h.(hands := h.hands[room := queue]), q)
  {
    var f := HandState(room, queue);
    ViewAfter(queued, pending, q, f);
    ForOne(p, f, q);
    assert Member(h.rooms, room, p);
    BroadcastToAll(MembersOf(h, room), f, q);
    assert q in h.rooms[room] <==> Member(h.rooms, room, q);
  }

  lemma HandKeepsViews(
    c: Config, connected: set<PeerId>, peers: map<PeerId, Peer>, h: House, queued: map<PeerId, seq<Frame>>,
    p: PeerId, room: RoomId, queue: Hand.HandQueue, pending: seq<Pending>)
    requires ViewsOk(connected, peers, h, queued, []) && RoomsOk(c, connected, peers, h.rooms)
    requires p in connected && peers[p].room == Some(room)
    requires (pending == Broadcast(MembersOf(h, room), HandState(room, queue), None))
             || (pending == [Pending(p, HandState(room, queue))] && (room in h.hands ==> h.hands[room] == queue))
    ensures ViewsOk(connected, peers, h.(hands := h.hands[room := queue]), queued, pending)
  {
    forall q: PeerId | q in connected
      ensures Agrees(Foreseen(queued, pending, q), peers, h.(hands := h.hands[room := queue]), q)
    {
      HandIsTold(c, connected, peers, h, queued, p, room, queue, pending, q);
    }
  }

  lemma HandKeepsHouse(c: Config, connected: set<PeerId>, peers: map<PeerId, Peer>, h: House, p: PeerId, room: RoomId, raised: bool)
    requires HouseOk(c, connected, peers, h) && Settled(connected, peers) && p in connected && peers[p].room == Some(room)
    ensures var queue := if room in h.hands then h.hands[room] else Hand.EMPTY_QUEUE;
            && HouseOk(c, connected, peers, h.(hands := h.hands[room := queue]))
            && HouseOk(c, connected, peers, h.(hands := h.hands[room := Hand.Update(queue, p, raised)]))
  {
    var queue := if room in h.hands then h.hands[room] else Hand.EMPTY_QUEUE;
    Hand.UpdateKeepsOrder(queue, p, raised);
    assert Member(h.rooms, room, p);
    NewQueueKeepsHands(peers, h, p, room, queue);
    NewQueueKeepsHands(peers, h, p, room, Hand.Update(queue, p, raised));
  }

  lemma NewQueueKeepsHands(peers: map<PeerId, Peer>, h: House, p: PeerId, room: RoomId, queue: Hand.HandQueue)
    requires HandsOk(peers, h) && Member(h.rooms, room, p) && p in peers && peers[p].announced && NoDup(queue.queue)
    requires forall q: PeerId :: q in queue.queue ==> q == p || HandUp(h.hands, room, q)
    ensures HandsOk(peers, h.(hands := h.hands[room := queue]))
  {
    var hands' := h.hands[room := queue];
    forall r: RoomId, q: PeerId | HandUp(hands', r, q)
      ensures Member(h.rooms, r, q) && q in peers && peers[q].announced
    {
      assert HandUp(h.hands, r, q) || (r == room && q == p);
    }
  }

  lemma HandKeepsInv(c: Config, s: State, p: PeerId, room: RoomId, queue: Hand.HandQueue, pending: seq<Pending>, s': State)
    requires Ok(c, s) && p in s.connected && p in s.peers && s.peers[p].room == Some(room)
    requires s' == s.(house := s.house.(hands := s.house.hands[room := queue]))
    requires HouseOk(c, s.connected, s.peers, s'.house)
    requires (pending == Broadcast(MembersOf(s.house, room), HandState(room, queue), None))
             || (pending == [Pending(p, HandState(room, queue))] && (room in s.house.hands ==> s.house.hands[room] == queue))
    ensures Inv(c, s', pending) && Settled(s'.connected, s'.peers)
  {
    HandKeepsViews(c, s.connected, s.peers, s.house, s.wire.queued, p, room, queue, pending);
  }

  lemma HandOk(c: Config, e: Env, s: State, p: PeerId, room: RoomId, raised: Option<bool>, r: State)
    requires Ok(c, s) && p in s.connected && p in s.peers && s.peers[p].room == Some(room)
    requires r == DoHand(c, e, s, p, room, raised)
    ensures Ok(c, r)
  {
    var queue := if room in s.house.hands then s.house.hands[room] else Hand.EMPTY_QUEUE;
    var changed := raised.Some? && Hand.Changes(queue, p, raised.value);
    var queue' := if changed then Hand.Update(queue, p, raised.value) else queue;
    var pending := if changed then Broadcast(MembersOf(s.house, room), HandState(room, queue'), None)
                   else [Pending(p, HandState(room, queue'))];
    var s' := s.(house := s.house.(hands := s.house.hands[room := queue']));
    HandKeepsHouse(c, s.connected, s.peers, s.house, p, room, raised.Some? && raised.value);
    HandKeepsInv(c, s, p, room, queue', pending, s');
    EnqueueAllOk(c, e, s', pending);
  }

  lemma StudyIsTold(
    c: Config, connected: set<PeerId>, peers: map<PeerId, Peer>, h: House, queued: map<PeerId, seq<Frame>>,
    p: PeerId, room: RoomId, timer: Study.Timer, pending: seq<Pending>, q: PeerId)
    requires RoomsOk(c, connected, peers, h.rooms) && p in connected && peers[p].room == Some(room)
    requires q in connected && q in peers && Agrees(Foreseen(queued, [], q), peers, h, q)
    requires (pending == Broadcast(MembersOf(h, room), StudyState(room, InfoOf(timer)), None))
             || (pending == [Pending(p, StudyState(room, InfoOf(timer)))] && (room in h.studies ==> h.studies[room] == timer))
    ensures Agrees(Foreseen(queued, pending, q), peers, h.(studies := h.studies[room := timer]), q)
  {
    var f := StudyState(room, InfoOf(timer));
    ViewAfter(queued, pending, q, f);
    ForOne(p, f, q);
    assert Member(h.rooms, room, p);
    BroadcastToAll(MembersOf(h, room), f, q);
    assert q in h.rooms[room] <==> Member(h.rooms, room, q);
  }

  lemma StudyKeepsViews(
    c: Config, connected: set<PeerId>, peers: map<PeerId, Peer>, h: House, queued: map<PeerId, seq<Frame>>,
    p: PeerId, room: RoomId, timer: Study.Timer, pending: seq<Pending>)
    requires ViewsOk(connected, peers, h, queued, []) && RoomsOk(c, connected, peers, h.rooms)
    requires p in connected && peers[p].room == Some(room)
    requires (pending == Broadcast(MembersOf(h, room), StudyState(room, InfoOf(timer)), None))
             || (pending == [Pending(p, StudyState(room, InfoOf(timer)))] && (room in h.studies ==> h.studies[room] == timer))
    ensures ViewsOk(connected, peers, h.(studies := h.studies[room := timer]), queued, pending)
  {
    forall q: PeerId | q in connected
      ensures Agrees(Foreseen(queued, pending, q), peers, h.(studies := h.studies[room := timer]), q)
    {
      StudyIsTold(c, connected, peers, h, queued, p, room, timer, pending, q);
    }
  }

  lemma StudyKeepsHouse(
    c: Config, connected: set<PeerId>, peers: map<PeerId, Peer>, h: House, p: PeerId, room: RoomId, timer: Study.Timer)
    requires HouseOk(c, connected, peers, h) && p in connected && peers[p].room == Some(room)
    ensures HouseOk(c, connected, peers, h.(studies := h.studies[room := timer]))
  {
  }

  lemma StudyKeepsInv(c: Config, s: State, p: PeerId, room: RoomId, timer: Study.Timer, pending: seq<Pending>, s': State)
    requires Ok(c, s) && p in s.connected && p in s.peers && s.peers[p].room == Some(room)
    requires s' == s.(house := s.house.(studies := s.house.studies[room := timer]))
    requires (pending == Broadcast(MembersOf(s.house, room), StudyState(room, InfoOf(timer)), None))
             || (pending == [Pending(p, StudyState(room, InfoOf(timer)))]
                 && (room in s.house.studies ==> s.house.studies[room] == timer))
    ensures Inv(c, s', pending) && Settled(s'.connected, s'.peers)
  {
    StudyKeepsHouse(c, s.connected, s.peers, s.house, p, room, timer);
    StudyKeepsViews(c, s.connected, s.peers, s.house, s.wire.queued, p, room, timer, pending);
  }

  lemma StudyOk(c: Config, e: Env, s: State, p: PeerId, room: RoomId, command: Option<Study.Command>, r: State)
    requires Ok(c, s) && p in s.connected && p in s.peers && s.peers[p].room == Some(room)
    requires r == DoStudy(c, e, s, p, room, command)
    ensures Ok(c, r)
  {
    if command.Some? && !s.peers[p].host {
      SendErrorOk(c, e, s, p, "FORBIDDEN", r);
    } else {
      var timer := if room in s.house.studies then s.house.studies[room] else Study.NEW_TIMER;
      var applied := command.Some? && Study.Accepts(timer, command.value);
      var timer' := if applied then Study.Apply(timer, command.value, e.now) else timer;
      var frame := StudyState(room, InfoOf(timer'));
      var pending := if applied then Broadcast(MembersOf(s.house, room), frame, None) else [Pending(p, frame)];
      var s' := s.(house := s.house.(studies := s.house.studies[room := timer']));
      StudyKeepsInv(c, s, p, room, timer', pending, s');
      EnqueueAllOk(c, e, s', pending);
    }
  }

  // ----- passing messages on -----

  lemma ReconnectOk(c: Config, e: Env, s: State, p: PeerId, m: Message, r: State)
    requires Ok(c, s) && m.Reconnect? && m.to in s.connected
    requires r == (var looked := CheckLease(c, e, s, m.to);
                   if e.expired(m.to, s.checks) then SendError(c, e, looked, p, "TARGET_NOT_FOUND")
                   else
                     var told := Send(c, e, looked, m.to, Neutral("peer.reconnect", Some(p), m.connectionId));
                     if m.to in told.connected then Send(c, e, told, p, Neutral("peer.reconnect", Some(m.to), m.connectionId))
                     else told)
    ensures Ok(c, r)
  {
    var looked := CheckLease(c, e, s, m.to);
    CheckLeaseOk(c, e, s, m.to, looked);
    if e.expired(m.to, s.checks) {
      SendErrorOk(c, e, looked, p, "TARGET_NOT_FOUND", r);
    } else {
      var told := Send(c, e, looked, m.to, Neutral("peer.reconnect", Some(p), m.connectionId));
      SendNeutralOk(c, e, looked, m.to, Neutral("peer.reconnect", Some(p), m.connectionId), told);
      if m.to in told.connected {
        SendNeutralOk(c, e, told, p, Neutral("peer.reconnect", Some(m.to), m.connectionId), r);
      }
    }
  }

  lemma ForwardOk(c: Config, e: Env, s: State, p: PeerId, m: Message, r: State)
    requires Ok(c, s) && (m.Relay? || m.Reconnect? || m.Moderate?) && p in s.peers
    requires r == DoForward(c, e, s, p, m)
    ensures Ok(c, r)
  {
    if m.Moderate? && !s.peers[p].host {
      SendErrorOk(c, e, s, p, "FORBIDDEN", r);
    } else if p == m.to {
      SendErrorOk(c, e, s, p, "TARGET_SELF", r);
    } else if m.to !in MembersOf(s.house, m.room) || m.to !in s.peers {
      SendErrorOk(c, e, s, p, "TARGET_NOT_FOUND", r);
    } else if m.Relay? {
      SendNeutralOk(c, e, s, m.to, Neutral(m.kind, Some(p), m.payload), r);
    } else if m.Moderate? {
      if s.peers[m.to].host {
        SendErrorOk(c, e, s, p, "FORBIDDEN", r);
      } else {
        SendNeutralOk(c, e, s, m.to, Neutral("moderation.media.disabled", Some(p), m.kind), r);
      }
    } else {
      assert Member(s.house.rooms, m.room, m.to);
      ReconnectOk(c, e, s, p, m, r);
    }
  }
}
