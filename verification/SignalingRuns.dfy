/** Safety of the signaling server: what holds after every run, whatever the interleaving. */
module SignalingRuns {
  import opened Common
  import opened Frames
  import opened SignalingState
  import opened SignalingRooms
  import opened SignalingWire
  import opened SignalingHolds
  import opened SignalingCascade
  import opened SignalingMessages
  import opened SignalingJoin
  import opened SignalingEvents
  import Out = OutboundDispatcher
  import Inbound = InboundLimiter
  import Admission = ConnectionAdmission

  // ----- reservations -----

  lemma ReserveKeepsNames(s: State, r: Admission.Reservation, s': State)
    requires NamesOk(s) && s'.policy.issued == s.policy.issued[s.nextReservation := r] && s'.nextReservation == s.nextReservation + 1
    requires s'.peers == s.peers && s'.closing == s.closing && s'.wire == s.wire && s'.nextSequence == s.nextSequence
    ensures NamesOk(s')
  {
  }

  lemma ReserveOk(c: Config, s: State, r: Admission.Reservation, s': State)
    requires Ok(c, s) && s' == DoReserve(c, s, r)
    ensures Ok(c, s')
  {
    if Admission.Refusal(s.policy, c.maxConnections, c.maxConnectionsPerClient, r) == None {
      ReserveHolds(c, s.peers, s.connected, s.closing.cleanup, s.policy, s.handshaking, s.nextReservation, r);
      ReserveKeepsNames(s, r, s');
    }
  }

  lemma AbandonOk(c: Config, s: State, id: Admission.ReservationId, s': State)
    requires Ok(c, s) && s' == DoAbandon(s, id)
    ensures Ok(c, s')
  {
    if id in s.handshaking {
      AbandonReleases(c, s.peers, s.connected, s.closing.cleanup, s.policy, s.handshaking, id);
      Admission.ReleaseConserves(s.policy, c.maxConnections, c.maxConnectionsPerClient, id);
    }
  }

  // ----- connecting -----

  lemma SweptInbound(peers: map<PeerId, Peer>, connected: set<PeerId>, l: Inbound.Limiter, now: int, windowNanos: int)
    requires InboundOk(peers, connected, l)
    ensures InboundOk(peers, connected, Inbound.RemoveExpiredInactive(l, now, windowNanos))
  {
    var clients := map key | key in l.clients
                             && (Inbound.Active(l.clients, key) || !Inbound.IsExpired(l.clients[key].window, now, windowNanos))
                             :: l.clients[key];
    ForgetKeepsInbound(peers, connected, l, clients);
  }

  lemma SweptOk(c: Config, s: State, now: int, swept: State)
    requires Ok(c, s) && swept == s.(inbound := Inbound.RemoveExpiredInactive(s.inbound, now, c.inbound.windowNanos))
    ensures Ok(c, swept)
  {
    SweptInbound(s.peers, s.connected, s.inbound, now, c.inbound.windowNanos);
  }

  lemma NewcomerKeepsHouse(c: Config, connected: set<PeerId>, peers: map<PeerId, Peer>, h: House, p: PeerId, peer: Peer)
    requires HouseOk(c, connected, peers, h) && p !in peers && peer.room == None
    ensures HouseOk(c, connected + {p}, peers[p := peer], h)
  {
  }

  lemma NewcomerKeepsViews(
    connected: set<PeerId>, peers: map<PeerId, Peer>, h: House, queued: map<PeerId, seq<Frame>>, p: PeerId, peer: Peer)
    requires ViewsOk(connected, peers, h, queued, []) && p !in peers && p !in queued && peer.room == None && !peer.announced
    requires forall room: RoomId, q: PeerId :: Member(h.rooms, room, q) ==> q in peers
    ensures ViewsOk(connected + {p}, peers[p := peer], h, queued, [])
  {
  }

  lemma NewcomerKeepsWire(c: Config, connected: set<PeerId>, w: Wire, p: PeerId)
    requires WireOk(c, connected, w) && p !in connected
    requires p !in w.queued && p !in w.handed && p !in w.queues.queues
    requires forall t: nat :: t in w.drains ==> w.drains[t].peer != p
    ensures WireOk(c, connected + {p}, w)
  {
    forall t: nat | t in w.drains
      ensures InStep(w, connected + {p}, w.drains[t])
    {
      assert InStep(w, connected, w.drains[t]);
    }
    forall q: PeerId
      ensures InOrder(w, connected + {p}, q)
    {
      assert InOrder(w, connected, q);
    }
    forall q: PeerId | q in w.queues.queues
      ensures QueueServed(w, connected + {p}, q)
    {
      assert QueueServed(w, connected, q);
    }
  }

  lemma NewcomerKeepsNames(s: State, peer: Peer, s': State)
    requires NamesOk(s) && Settled(s.connected, s.peers) && peer.room == None && !peer.announced
    requires s'.peers == s.peers[s.nextSequence := peer] && s'.connected == s.connected + {s.nextSequence}
    requires s'.nextSequence == s.nextSequence + 1 && s'.nextReservation == s.nextReservation
    requires s'.wire == s.wire && s'.closing == s.closing && s'.policy.issued == s.policy.issued
    ensures NamesOk(s') && Settled(s'.connected, s'.peers)
  {
  }

  lemma ConnectedOk(c: Config, s: State, id: Admission.ReservationId, peer: Peer, s': State)
    requires Ok(c, s) && id in s.handshaking && peer.reservation == id && peer.room == None && !peer.announced
    requires s' == s.(peers := s.peers[s.nextSequence := peer],
                      connected := s.connected + {s.nextSequence},
                      nextSequence := s.nextSequence + 1,
                      handshaking := s.handshaking - {id},
                      inbound := Inbound.Retain(s.inbound, peer.client, c.inbound.maximumTrackedClients))
    ensures Ok(c, s')
  {
    var p := s.nextSequence;
    assert p !in s.peers && p !in s.connected;
    NewcomerKeepsHouse(c, s.connected, s.peers, s.house, p, peer);
    NewcomerKeepsViews(s.connected, s.peers, s.house, s.wire.queued, p, peer);
    NewcomerKeepsWire(c, s.connected, s.wire, p);
    ConnectTransfers(c, s.peers, s.connected, s.closing.cleanup, s.policy, s.handshaking, p, peer);
    RetainKeepsInbound(s.peers, s.connected, s.inbound, p, peer, c.inbound.maximumTrackedClients);
    NewcomerKeepsNames(s, peer, s');
  }

  /** The assertion in `retain` never fires: when a handshake becomes a connection there is room. */
  lemma AssertionHolds(c: Config, s: State, now: int, id: Admission.ReservationId, client: Inbound.ClientKey)
    requires ValidConfig(c) && Ok(c, s) && id in s.handshaking
    ensures Inbound.HasRoom(Inbound.RemoveExpiredInactive(s.inbound, now, c.inbound.windowNanos), client,
                            c.inbound.maximumTrackedClients)
  {
    var swept := Inbound.RemoveExpiredInactive(s.inbound, now, c.inbound.windowNanos);
    SweptInbound(s.peers, s.connected, s.inbound, now, c.inbound.windowNanos);
    CapacityFollowsAdmission(c, s.peers, s.connected, s.closing.cleanup, s.policy, s.handshaking, swept, client);
  }

  lemma ConnectOk(
    c: Config, e: Env, s: State, id: Admission.ReservationId, subject: Option<Subject>, expired: bool, s': State)
    requires ValidConfig(c) && Ok(c, s) && s' == DoConnect(c, e, s, id, subject, expired)
    ensures Ok(c, s')
  {
    if id in s.handshaking && id in s.policy.issued {
      var swept := s.(inbound := Inbound.RemoveExpiredInactive(s.inbound, e.now, c.inbound.windowNanos));
      SweptOk(c, s, e.now, swept);
      if !expired && s.running {
        var client := s.policy.issued[id].client;
        AssertionHolds(c, s, e.now, id, client);
        ConnectedOk(c, swept, id, NewPeer(id, client, subject), s');
      }
    }
  }

  // ----- receiving -----

  lemma AcquireKeepsInbound(
    c: Config, peers: map<PeerId, Peer>, connected: set<PeerId>, l: Inbound.Limiter,
    key: Inbound.ClientKey, session: Inbound.UsageWindow, now: int, bytes: int)
    requires InboundOk(peers, connected, l) && key in l.clients
    ensures InboundOk(peers, connected, Inbound.TryAcquire(c.inbound, l, key, session, now, bytes).limiter)
  {
    Inbound.TouchKeepsConsistent(l, key);
    var l' := Inbound.TryAcquire(c.inbound, l, key, session, now, bytes).limiter;
    forall k: Inbound.ClientKey
      ensures ActiveCount(l', k) == ActiveCount(l, k)
    {
    }
  }

  /** How much a session has sent does not matter to its room. */
  lemma SessionKeepsHouse(c: Config, connected: set<PeerId>, peers: map<PeerId, Peer>, h: House, p: PeerId, session: Inbound.UsageWindow)
    requires HouseOk(c, connected, peers, h) && p in peers
    ensures HouseOk(c, connected, peers[p := peers[p].(session := session)], h)
  {
  }

  lemma SessionKeepsViews(
    connected: set<PeerId>, peers: map<PeerId, Peer>, h: House, queued: map<PeerId, seq<Frame>>,
    p: PeerId, session: Inbound.UsageWindow)
    requires ViewsOk(connected, peers, h, queued, []) && p in peers
    ensures ViewsOk(connected, peers[p := peers[p].(session := session)], h, queued, [])
  {
  }

  lemma SessionKeepsNames(s: State, p: PeerId, session: Inbound.UsageWindow, counted: State)
    requires NamesOk(s) && Settled(s.connected, s.peers) && p in s.peers
    requires counted.peers == s.peers[p := s.peers[p].(session := session)] && counted.connected == s.connected
    requires counted.nextSequence == s.nextSequence && counted.nextReservation == s.nextReservation
    requires counted.wire == s.wire && counted.closing == s.closing && counted.policy.issued == s.policy.issued
    ensures NamesOk(counted) && Settled(counted.connected, counted.peers)
  {
  }

  lemma CountedOk(c: Config, s: State, p: PeerId, l: Inbound.Limiter, session: Inbound.UsageWindow, counted: State)
    requires Ok(c, s) && p in s.peers && InboundOk(s.peers, s.connected, l)
    requires counted == s.(inbound := l, peers := s.peers[p := s.peers[p].(session := session)])
    ensures Ok(c, counted)
  {
    SessionKeepsHouse(c, s.connected, s.peers, s.house, p, session);
    SessionKeepsViews(s.connected, s.peers, s.house, s.wire.queued, p, session);
    IdentitiesKeepReservations(c, s.peers, counted.peers, s.connected, s.closing.cleanup, s.policy, s.handshaking);
    IdentitiesKeepInbound(s.peers, counted.peers, s.connected, l);
    SessionKeepsNames(s, p, session, counted);
  }

  lemma ReceiveOk(c: Config, e: Env, s: State, p: PeerId, bytes: nat, s': State)
    requires Ok(c, s) && s' == DoReceive(c, e, s, p, bytes)
    ensures Ok(c, s')
  {
    if p in s.connected && p in s.peers {
      var looked := CheckLease(c, e, s, p);
      CheckLeaseOk(c, e, s, p, looked);
      if !e.expired(p, s.checks) && s.peers[p].client in s.inbound.clients {
        AcceptOk(c, e, s, looked, p, bytes, s');
      }
    }
  }

  lemma AcceptOk(c: Config, e: Env, s: State, looked: State, p: PeerId, bytes: nat, r: State)
    requires Ok(c, looked) && looked == s.(checks := looked.checks)
    requires p in s.connected && p in s.peers && s.peers[p].client in s.inbound.clients
    requires r == (var a := Inbound.TryAcquire(c.inbound, s.inbound, s.peers[p].client, s.peers[p].session, e.now, bytes);
                   var counted := looked.(inbound := a.limiter, peers := s.peers[p := s.peers[p].(session := a.session)]);
                   if a.decision == Inbound.SESSION_FRAME_LIMITED || a.decision == Inbound.SESSION_BYTE_LIMITED
                   then CloseNow(c, e, counted, p, false) else counted)
    ensures Ok(c, r)
  {
    var a := Inbound.TryAcquire(c.inbound, s.inbound, s.peers[p].client, s.peers[p].session, e.now, bytes);
    var counted := looked.(inbound := a.limiter, peers := s.peers[p := s.peers[p].(session := a.session)]);
    AcquireKeepsInbound(c, s.peers, s.connected, s.inbound, s.peers[p].client, s.peers[p].session, e.now, bytes);
    CountedOk(c, looked, p, a.limiter, a.session, counted);
    if a.decision == Inbound.SESSION_FRAME_LIMITED || a.decision == Inbound.SESSION_BYTE_LIMITED {
      CloseNowOk(c, e, counted, p, false, r);
    }
  }

  // ----- messages and sweeps -----

  lemma DispatchOk(c: Config, e: Env, s: State, p: PeerId, m: Message, r: State)
    requires ValidConfig(c) && Ok(c, s) && p in s.connected && p in s.peers && r == Dispatch(c, e, s, p, m)
    ensures Ok(c, r)
  {
    if m.Join? {
      JoinOk(c, e, s, p, m, r);
    } else if s.peers[p].room == None {
      SendErrorOk(c, e, s, p, "NOT_IN_ROOM", r);
    } else if s.peers[p].room != Some(m.room) {
      SendErrorOk(c, e, s, p, "ROOM_MISMATCH", r);
    } else {
      match m
      case Leave(_) => LeaveOk(c, e, s, p, r);
      case HandRequest(room, raised) => HandOk(c, e, s, p, room, raised, r);
      case StudyRequest(room, command) => StudyOk(c, e, s, p, room, command, r);
      case Relay(_, _, _, _) => ForwardOk(c, e, s, p, m, r);
      case Reconnect(_, _, _) => ForwardOk(c, e, s, p, m, r);
      case Moderate(_, _, _) => ForwardOk(c, e, s, p, m, r);
    }
  }

  lemma CloseAgainOk(c: Config, s: State, p: PeerId)
    requires Ok(c, s) && p !in s.connected
    ensures Ok(c, CloseAgain(s, p)) && Keeps(s, CloseAgain(s, p))
  {
    ScheduleKeeps(s.connected, s.closing, p);
  }

  lemma HandleOk(c: Config, e: Env, s: State, p: PeerId, m: Message, r: State)
    requires ValidConfig(c) && Ok(c, s) && r == DoHandle(c, e, s, p, m)
    ensures Ok(c, r)
  {
    if p !in s.connected || p !in s.peers {
      CloseAgainOk(c, s, p);
    } else {
      var looked := CheckLease(c, e, s, p);
      CheckLeaseOk(c, e, s, p, looked);
      if !e.expired(p, s.checks) && p in looked.peers {
        DispatchOk(c, e, looked, p, m, r);
      }
    }
  }

  lemma BeatOk(c: Config, e: Env, s: State, p: PeerId, b: Beat, r: State)
    requires Ok(c, s) && r == BeatOne(c, e, s, p, b)
    ensures Ok(c, r)
  {
    if p in s.connected {
      var looked := CheckLease(c, e, s, p);
      CheckLeaseOk(c, e, s, p, looked);
      if !e.expired(p, s.checks) {
        match b
        case Ready(challenge) => SendNeutralOk(c, e, looked, p, Neutral("ping", None, challenge), r);
        case Waiting =>
        case Overdue => CloseNowOk(c, e, looked, p, false, r);
      }
    }
  }

  lemma {:induction false} HeartbeatOk(c: Config, e: Env, s: State, beats: seq<(PeerId, Beat)>)
    requires Ok(c, s)
    ensures Ok(c, DoHeartbeat(c, e, s, beats))
    decreases |beats|
  {
    if beats != [] {
      var one := BeatOne(c, e, s, beats[0].0, beats[0].1);
      BeatOk(c, e, s, beats[0].0, beats[0].1, one);
      HeartbeatOk(c, e, one, beats[1..]);
    }
  }

  lemma SweepOneOk(c: Config, e: Env, s: State, p: PeerId, timedOut: bool, r: State)
    requires Ok(c, s) && r == SweepOne(c, e, s, p, timedOut)
    ensures Ok(c, r)
  {
    if p in s.connected {
      var looked := CheckLease(c, e, s, p);
      CheckLeaseOk(c, e, s, p, looked);
      if !e.expired(p, s.checks) && timedOut {
        CloseNowOk(c, e, looked, p, false, r);
      }
    }
  }

  lemma {:induction false} SweepAllOk(c: Config, e: Env, s: State, timedOut: seq<(PeerId, bool)>)
    requires Ok(c, s)
    ensures Ok(c, SweepAll(c, e, s, timedOut))
    decreases |timedOut|
  {
    if timedOut != [] {
      var one := SweepOne(c, e, s, timedOut[0].0, timedOut[0].1);
      SweepOneOk(c, e, s, timedOut[0].0, timedOut[0].1, one);
      SweepAllOk(c, e, one, timedOut[1..]);
    }
  }

  lemma SweepOk(c: Config, e: Env, s: State, timedOut: seq<(PeerId, bool)>, r: State)
    requires Ok(c, s) && r == DoSweep(c, e, s, timedOut)
    ensures Ok(c, r)
  {
    var swept := SweepAll(c, e, s, timedOut);
    SweepAllOk(c, e, s, timedOut);
    SweptOk(c, swept, e.now, r);
  }

  lemma LookAtOk(c: Config, e: Env, s: State, p: PeerId, r: State)
    requires Ok(c, s) && r == DoLook(c, e, s, p)
    ensures Ok(c, r)
  {
    if p in s.connected {
      CheckLeaseOk(c, e, s, p, r);
    }
  }

  // ----- closes -----

  lemma TransportClosedOk(c: Config, e: Env, s: State, p: PeerId, r: State)
    requires Ok(c, s) && r == DoTransportClosed(c, e, s, p)
    ensures Ok(c, r)
  {
    if p in s.connected {
      DisconnectOk(c, e, s, p, r);
    } else {
      assert Disconnect(e, s, p, true).more == [] && Disconnect(e, s, p, true).state == s;
    }
  }

  lemma CloseRequestedOk(c: Config, e: Env, s: State, p: PeerId, r: State)
    requires Ok(c, s) && r == DoCloseRequested(c, e, s, p)
    ensures Ok(c, r) && Keeps(s, r) && p !in r.connected
  {
    if p in s.connected {
      CloseNowOk(c, e, s, p, false, r);
    } else {
      CloseAgainOk(c, s, p);
    }
  }

  lemma ReturnedKeepsClosing(connected: set<PeerId>, k: Closing, p: PeerId)
    requires ClosingOk(connected, k) && k.actions[p] > 0
    ensures ClosingOk(connected, Closing(k.cleanup - {p}, k.inProgress - {p}, k.actions - multiset{p}))
  {
  }

  /** What has changed when a close has returned. */
  lemma ReturnedOk(c: Config, s: State, k: Closing, policy: Admission.Policy)
    requires Ok(c, s) && ClosingOk(s.connected, k) && k.inProgress <= s.closing.inProgress
    requires ReservationsOk(c, s.peers, s.connected, k.cleanup, policy, s.handshaking) && policy.issued == s.policy.issued
    ensures Ok(c, s.(closing := k, policy := policy))
  {
  }

  lemma CloseReturnedOk(c: Config, s: State, p: PeerId, r: State)
    requires Ok(c, s) && r == DoCloseReturned(s, p)
    ensures Ok(c, r)
  {
    if s.closing.actions[p] > 0 && p in s.peers {
      ReturnedKeepsClosing(s.connected, s.closing, p);
      ReturnedKeepsReservations(c, s, p, r.policy);
      ReturnedOk(c, s, r.closing, r.policy);
    }
  }

  lemma ReturnedKeepsReservations(c: Config, s: State, p: PeerId, policy: Admission.Policy)
    requires ReservationsOk(c, s.peers, s.connected, s.closing.cleanup, s.policy, s.handshaking) && p in s.peers
    requires policy == (if p in s.closing.cleanup then Admission.Release(s.policy, s.peers[p].reservation) else s.policy)
    ensures ReservationsOk(c, s.peers, s.connected, s.closing.cleanup - {p}, policy, s.handshaking)
    ensures policy.issued == s.policy.issued
  {
    if p in s.closing.cleanup {
      CleanupReleases(c, s.peers, s.connected, s.closing.cleanup, s.policy, s.handshaking, p);
      Admission.ReleaseConserves(s.policy, c.maxConnections, c.maxConnectionsPerClient, s.peers[p].reservation);
    } else {
      assert s.closing.cleanup - {p} == s.closing.cleanup;
    }
  }

  // ----- drains -----

  /** A section of a drain changes nothing but the queues. */
  lemma DrainedOk(c: Config, s: State, w: Wire)
    requires Ok(c, s) && WireOk(c, s.connected, w) && w.queued == s.wire.queued
    requires forall p: PeerId :: p in w.handed || p in w.queues.queues ==> p < s.nextSequence
    requires forall t: nat :: t in w.drains ==> w.drains[t].peer < s.nextSequence
    ensures Ok(c, s.(wire := w))
  {
  }

  lemma TakenOk(c: Config, s: State, t: nat)
    requires Ok(c, s) && t in s.wire.drains && s.wire.drains[t].Ready?
    ensures Ok(c, s.(wire := TakeFrame(s.wire, t, s.connected)))
  {
    TakeKeepsWire(c, s.connected, s.wire, t);
    DrainedOk(c, s, TakeFrame(s.wire, t, s.connected));
  }

  lemma SentOk(c: Config, s: State, t: nat)
    requires Ok(c, s) && t in s.wire.drains && s.wire.drains[t].Sending?
    ensures Ok(c, s.(wire := SendReturned(s.wire, t, s.connected)))
  {
    SentKeepsWire(c, s.connected, s.wire, t);
    DrainedOk(c, s, SendReturned(s.wire, t, s.connected));
  }

  lemma EndedOk(c: Config, s: State, t: nat)
    requires Ok(c, s) && t in s.wire.drains && s.wire.drains[t].Failed?
    ensures Ok(c, s.(wire := EndFailed(s.wire, t, s.connected)))
  {
    FailedKeepsWire(c, s.connected, s.wire, t);
    DrainedOk(c, s, EndFailed(s.wire, t, s.connected));
  }

  lemma DrainOk(c: Config, s: State, ev: Event, r: State)
    requires Ok(c, s) && (ev.DrainTakes? || ev.DrainSent? || ev.DrainEnds?) && r == DoDrain(s, ev)
    ensures Ok(c, r)
  {
    var t := ev.drain;
    if t in s.wire.drains {
      if ev.DrainTakes? && s.wire.drains[t].Ready? {
        TakenOk(c, s, t);
      } else if ev.DrainSent? && s.wire.drains[t].Sending? {
        SentOk(c, s, t);
      } else if ev.DrainEnds? && s.wire.drains[t].Failed? {
        EndedOk(c, s, t);
      }
    }
  }

  lemma DrainFailsOk(c: Config, e: Env, s: State, t: nat, r: State)
    requires Ok(c, s) && r == DoDrainFails(c, e, s, t)
    ensures Ok(c, r)
  {
    if t in s.wire.drains && s.wire.drains[t].Sending? {
      var p := s.wire.drains[t].peer;
      var closed := DoCloseRequested(c, e, s, p);
      CloseRequestedOk(c, e, s, p, closed);
      MarkedOk(c, closed, t);
    }
  }

  lemma MarkedOk(c: Config, s: State, t: nat)
    requires Ok(c, s) && t in s.wire.drains && s.wire.drains[t].Sending? && s.wire.drains[t].peer !in s.connected
    ensures Ok(c, s.(wire := s.wire.(drains := s.wire.drains[t := Failed(s.wire.drains[t].peer, s.wire.drains[t].frame)])))
  {
    MarkFailedKeepsWire(c, s.connected, s.wire, t);
    DrainedOk(c, s, s.wire.(drains := s.wire.drains[t := Failed(s.wire.drains[t].peer, s.wire.drains[t].frame)]));
  }

  // ----- stopping -----

  lemma FirstGone(connected: set<PeerId>, order: seq<PeerId>)
    requires order != []
    ensures order[0] in Elems(order) && connected - {order[0]} - Elems(order[1..]) == connected - Elems(order)
    ensures Elems(order[1..]) <= Elems(order)
    ensures NoDup(order) ==> NoDup(order[1..]) && order[0] !in Elems(order[1..])
  {
  }

  lemma {:induction false} ReleaseAllKeeps(
    c: Config, peers: map<PeerId, Peer>, connected: set<PeerId>, cleanup: set<PeerId>,
    policy: Admission.Policy, handshaking: set<Admission.ReservationId>, order: seq<PeerId>)
    requires ReservationsOk(c, peers, connected, cleanup, policy, handshaking)
    requires NoDup(order) && Elems(order) <= connected
    ensures ReservationsOk(c, peers, connected - Elems(order), cleanup, ReleaseAll(policy, peers, order), handshaking)
    ensures ReleaseAll(policy, peers, order).issued == policy.issued
    decreases |order|
  {
    if order == [] {
      assert connected - Elems(order) == connected;
    } else {
      var p := order[0];
      FirstGone(connected, order);
      DisconnectReleases(c, peers, connected, cleanup, policy, handshaking, p);
      ReleaseAllKeeps(c, peers, connected - {p}, cleanup, Admission.Release(policy, peers[p].reservation), handshaking, order[1..]);
    }
  }

  lemma {:induction false} ClearAllKeepsWire(c: Config, connected: set<PeerId>, w: Wire, order: seq<PeerId>)
    requires WireOk(c, connected, w)
    ensures WireOk(c, connected - Elems(order), w.(queues := Out.ClearAll(w.queues, order)))
    ensures Out.ClearAll(w.queues, order).queues.Keys <= w.queues.queues.Keys
    decreases |order|
  {
    if order == [] {
      assert connected - Elems(order) == connected;
    } else {
      var p := order[0];
      ClearKeepsWire(c, connected, w, p);
      assert Elems(order) == {p} + Elems(order[1..]);
      assert connected - {p} - Elems(order[1..]) == connected - Elems(order);
      ClearAllKeepsWire(c, connected - {p}, w.(queues := Out.Clear(w.queues, p)), order[1..]);
    }
  }

  lemma NobodyOk(c: Config, s: State, s': State)
    requires Ok(c, s) && WireOk(c, {}, s'.wire) && s'.wire.queued == s.wire.queued && s'.wire.handed == s.wire.handed
    requires s'.wire.drains == s.wire.drains && s'.wire.queues.queues.Keys <= s.wire.queues.queues.Keys
    requires ReservationsOk(c, s.peers, {}, s.closing.cleanup, s'.policy, s.handshaking) && s'.policy.issued == s.policy.issued
    requires s' == s.(running := false, connected := {}, policy := s'.policy, wire := s'.wire,
                      house := House(map[], map[], map[], [], s.house.parkings + [Clears]), inbound := Inbound.NEW_LIMITER)
    ensures Ok(c, s')
  {
    NobodyInside(c, s.peers, s.wire.queued, s.house.parkings);
    NobodyNamed(s, s');
  }

  lemma NobodyInside(c: Config, peers: map<PeerId, Peer>, queued: map<PeerId, seq<Frame>>, parkings: seq<Parking>)
    ensures HouseOk(c, {}, peers, House(map[], map[], map[], [], parkings + [Clears]))
    ensures NeverConfused(queued) ==> ViewsOk({}, peers, House(map[], map[], map[], [], parkings + [Clears]), queued, [])
    ensures InboundOk(peers, {}, Inbound.NEW_LIMITER)
    ensures Settled({}, peers)
  {
    assert forall key: Inbound.ClientKey :: OfClient(peers, {}, key) == {};
  }

  lemma NobodyNamed(s: State, s': State)
    requires NamesOk(s) && s'.peers == s.peers && s'.closing == s.closing && s'.nextSequence == s.nextSequence
    requires s'.wire.queued == s.wire.queued && s'.wire.handed == s.wire.handed && s'.wire.drains == s.wire.drains
    requires s'.wire.queues.queues.Keys <= s.wire.queues.queues.Keys
    requires s'.policy.issued == s.policy.issued && s'.nextReservation == s.nextReservation
    ensures NamesOk(s')
  {
  }

  lemma StopOk(c: Config, s: State, order: seq<PeerId>, r: State)
    requires Ok(c, s) && r == DoStop(s, order)
    ensures Ok(c, r)
  {
    if s.running && Elems(order) == s.connected && |order| == |s.connected| {
      SizeNoDup(order);
      ReleaseAllKeeps(c, s.peers, s.connected, s.closing.cleanup, s.policy, s.handshaking, order);
      ClearAllKeepsWire(c, s.connected, s.wire, order);
      assert s.connected - Elems(order) == {};
      NobodyOk(c, s, r);
    }
  }

  // ----- every run -----

  lemma InitialOk(c: Config)
    requires ValidConfig(c)
    ensures Ok(c, INITIAL)
  {
    assert Out.Total(Out.Outbound, map[]) == 0;
    assert HeldBy(map[], {}) == {};
    assert forall key: Inbound.ClientKey :: OfClient(map[], {}, key) == {};
    assert forall key: nat :: Admission.OfClient(Admission.NO_RESERVATIONS, key) == {};
    assert forall key: nat :: Admission.OfParticipantRoom(Admission.NO_RESERVATIONS, key) == {};
  }

  lemma StartOk(c: Config, s: State)
    requires Ok(c, s)
    ensures Ok(c, s.(running := true))
  {
  }

  lemma SessionErrorOk(c: Config, e: Env, s: State, p: PeerId, code: string, r: State)
    requires Ok(c, s) && r == if p in s.connected then SendError(c, e, s, p, code) else s
    ensures Ok(c, r)
  {
    if p in s.connected {
      SendErrorOk(c, e, s, p, code, r);
    }
  }

  /** Every section, run at any time, keeps everything the server relies on. */
  lemma NextOk(c: Config, e: Env, s: State, ev: Event, r: State)
    requires ValidConfig(c) && Ok(c, s) && r == Next(c, e, s, ev)
    ensures Ok(c, r)
  {
    match ev
    case Start => StartOk(c, s);
    case Stop(order) => StopOk(c, s, order, r);
    case Reserve(reservation) => ReserveOk(c, s, reservation, r);
    case Abandon(id) => AbandonOk(c, s, id, r);
    case Connect(id, subject, expired) => ConnectOk(c, e, s, id, subject, expired, r);
    case Receive(p, bytes) => ReceiveOk(c, e, s, p, bytes, r);
    case Handle(p, m) => HandleOk(c, e, s, p, m, r);
    case SessionError(p, code) => SessionErrorOk(c, e, s, p, code, r);
    case LookAt(p) => LookAtOk(c, e, s, p, r);
    case Heartbeat(beats) => HeartbeatOk(c, e, s, beats);
    case Sweep(timedOut) => SweepOk(c, e, s, timedOut, r);
    case TransportClosed(p) => TransportClosedOk(c, e, s, p, r);
    case CloseRequested(p) => CloseRequestedOk(c, e, s, p, r);
    case CloseReturned(p) => CloseReturnedOk(c, s, p, r);
    case DrainTakes(_) => DrainOk(c, s, ev, r);
    case DrainSent(_) => DrainOk(c, s, ev, r);
    case DrainFails(t) => DrainFailsOk(c, e, s, t, r);
    case DrainEnds(_) => DrainOk(c, s, ev, r);
  }

  lemma {:induction false} RunOk(c: Config, s: State, turns: seq<Turn>)
    requires ValidConfig(c) && Ok(c, s)
    ensures Ok(c, Run(c, s, turns))
    decreases |turns|
  {
    if turns != [] {
      var next := Next(c, turns[0].env, s, turns[0].event);
      NextOk(c, turns[0].env, s, turns[0].event, next);
      RunOk(c, next, turns[1..]);
    }
  }

  // ----- what that means -----

  ghost function Reached(c: Config, turns: seq<Turn>): State {
    Run(c, INITIAL, turns)
  }

  lemma ReachedOk(c: Config, turns: seq<Turn>)
    requires ValidConfig(c)
    ensures Ok(c, Reached(c, turns))
  {
    InitialOk(c);
    RunOk(c, INITIAL, turns);
  }

  /**
   After every run, each member that reads what was queued for it knows exactly the other members of
   its room, and if it was told of the hand queue or the timer, the current one. No session, whether
   it is still connected or not, was ever told that somebody left who was not announced before, that
   somebody joined twice, or anything of a room it is not in.
   */
  lemma ViewsAreExact(c: Config, turns: seq<Turn>, p: PeerId)
    requires ValidConfig(c)
    ensures var s := Reached(c, turns);
            var v := ReadAll(Outside, Logged(s.wire.queued, p));
            && v != Confused
            && (p in s.connected ==> p in s.peers)
            && (p in s.connected && s.peers[p].room.Some? ==>
                  var room := s.peers[p].room.value;
                  && v.Inside? && v.room == room && p in MembersOf(s.house, room)
                  && v.others == Elems(MembersOf(s.house, room)) - {p}
                  && (v.hand.Some? ==> room in s.house.hands && v.hand.value == s.house.hands[room])
                  && (v.study.Some? ==> room in s.house.studies && v.study.value == InfoOf(s.house.studies[room])))
  {
    ReachedOk(c, turns);
    var s := Reached(c, turns);
    if p in s.connected {
      ViewExact(c, s, p);
    }
  }

  lemma ViewExact(c: Config, s: State, p: PeerId)
    requires RoomsOk(c, s.connected, s.peers, s.house.rooms) && Settled(s.connected, s.peers)
    requires ViewsOk(s.connected, s.peers, s.house, s.wire.queued, []) && p in s.connected
    ensures Agrees(ReadAll(Outside, Logged(s.wire.queued, p)), s.peers, s.house, p)
    ensures s.peers[p].room.Some?
            ==> var members := MembersOf(s.house, s.peers[p].room.value);
                p in members && Others(s.peers, members, p) == Elems(members) - {p}
  {
    assert Logged(s.wire.queued, p) + [] == Logged(s.wire.queued, p);
    if s.peers[p].room.Some? {
      var room := s.peers[p].room.value;
      assert Member(s.house.rooms, room, p);
      forall q | q in MembersOf(s.house, room)
        ensures q in s.connected && q in s.peers && s.peers[q].announced
      {
        assert Member(s.house.rooms, room, q);
      }
    }
  }

  /**
   After every run each session is drained by one thread at most, has been handed a prefix of what
   was queued for it, and while it is connected the rest waits on its queue with a drain to serve it.
   */
  lemma FramesInOrder(c: Config, turns: seq<Turn>, p: PeerId)
    requires ValidConfig(c)
    ensures var s := Reached(c, turns);
            && (forall t: nat, u: nat :: DrainedBy(s.wire, t, p) && DrainedBy(s.wire, u, p) ==> t == u)
            && Logged(s.wire.handed, p) <= Logged(s.wire.queued, p)
            && (p in s.connected ==>
                  Logged(s.wire.queued, p) == Logged(s.wire.handed, p) + Messages(Out.QueueOf(s.wire.queues, p).frames))
            && (p in s.connected && Logged(s.wire.handed, p) != Logged(s.wire.queued, p)
                ==> exists t: nat :: DrainedBy(s.wire, t, p))
            && (p !in s.connected ==> Out.QueueOf(s.wire.queues, p).frames == [])
  {
    ReachedOk(c, turns);
    InOrderAndServed(c, Reached(c, turns).connected, Reached(c, turns).wire, p);
  }

  lemma InOrderAndServed(c: Config, connected: set<PeerId>, w: Wire, p: PeerId)
    requires DrainsOk(w, connected) && OrderOk(w, connected)
    ensures InOrder(w, connected, p)
    ensures p in w.queues.queues ==> exists t: nat :: DrainedBy(w, t, p)
    ensures p !in connected ==> Out.QueueOf(w.queues, p).frames == []
    ensures p in connected && p !in w.queues.queues ==> Logged(w.handed, p) == Logged(w.queued, p)
  {
  }

  /**
   After every run the byte counters are exact and within their limits, even while frames are being
   sent, and nothing but a frame that is being sent is counted for a closed session.
   */
  lemma BytesAreAccounted(c: Config, turns: seq<Turn>)
    requires ValidConfig(c)
    ensures var d := Reached(c, turns).wire.queues;
            && Out.Accounted(d) && Out.WithinLimits(d, c.maxPeerBytes, c.maxGlobalBytes)
            && (forall p: PeerId :: p in d.queues && p !in Reached(c, turns).connected
                                    ==> d.queues[p].outboundBytes == d.queues[p].inFlightBytes)
  {
    ReachedOk(c, turns);
    var s := Reached(c, turns);
    forall p: PeerId | p in s.wire.queues.queues && p !in s.connected
      ensures s.wire.queues.queues[p].outboundBytes == s.wire.queues.queues[p].inFlightBytes
    {
      assert QueueServed(s.wire, s.connected, p) && Out.QueueOk(s.wire.queues.queues[p]);
    }
  }

  /**
   After every run the admission counters count exactly the handshakes under way, the connections
   and the superseded sessions whose close has not returned, and each of the latter has exactly one
   close outstanding.
   */
  lemma ReservationsAreConserved(c: Config, turns: seq<Turn>)
    requires ValidConfig(c)
    ensures var s := Reached(c, turns);
            && Admission.Conserved(s.policy, c.maxConnections, c.maxConnectionsPerClient)
            && s.policy.live == s.handshaking + HeldBy(s.peers, s.connected + s.closing.cleanup)
            && s.policy.activeReservations == |s.handshaking| + |s.connected| + |s.closing.cleanup|
            && (forall p: PeerId :: p in s.closing.cleanup ==> s.closing.actions[p] == 1)
  {
    ReachedOk(c, turns);
    HoldersCounted(c, Reached(c, turns));
  }

  lemma HoldersCounted(c: Config, s: State)
    requires ReservationsOk(c, s.peers, s.connected, s.closing.cleanup, s.policy, s.handshaking)
    ensures s.policy.activeReservations == |s.handshaking| + |s.connected| + |s.closing.cleanup|
  {
    var held := HeldBy(s.peers, s.connected + s.closing.cleanup);
    OneReservationEach(s.peers, s.connected + s.closing.cleanup);
    assert s.handshaking !! held;
    assert |s.handshaking + held| == |s.handshaking| + |held|;
  }

  /** After every run the rooms are well formed (see HouseOk) and everybody in one is announced. */
  lemma RoomsAreWellFormed(c: Config, turns: seq<Turn>)
    requires ValidConfig(c)
    ensures var s := Reached(c, turns);
            && HouseOk(c, s.connected, s.peers, s.house)
            && (forall p: PeerId :: p in s.connected && p in s.peers ==> (s.peers[p].announced <==> s.peers[p].room.Some?))
  {
    ReachedOk(c, turns);
  }

  /** After every run, whichever handshake connects next, the assertion of the inbound limiter holds. */
  lemma CapacityAlwaysFollows(c: Config, turns: seq<Turn>, now: int, id: Admission.ReservationId, client: Inbound.ClientKey)
    requires ValidConfig(c) && id in Reached(c, turns).handshaking
    ensures Inbound.HasRoom(Inbound.RemoveExpiredInactive(Reached(c, turns).inbound, now, c.inbound.windowNanos), client,
                            c.inbound.maximumTrackedClients)
  {
    ReachedOk(c, turns);
    AssertionHolds(c, Reached(c, turns), now, id, client);
  }
}
