/**
 The server object (SignalingService.java). Its methods change its fields step by step, as the
 source does under its monitor; each is proved to do what the section of the same name in modules
 SignalingState and SignalingEvents says, so that what is proved of those holds for the object.
 */
module SignalingService {
  import opened Common
  import opened Frames
  import opened SignalingState
  import S = SignalingState
  import Delivery = SignalingDelivery
  import Messages = SignalingMessages
  import Join = SignalingJoin
  import Events = SignalingEvents
  import Runs = SignalingRuns
  import Drains = SignalingWire
  import Study = RoomStudyState
  import Hand = RoomHandQueue
  import Out = OutboundDispatcher
  import Inbound = InboundLimiter
  import Admission = ConnectionAdmission

  lemma BroadcastStep(members: seq<PeerId>, f: Frame, excluded: Option<PeerId>, i: nat, done: seq<Pending>, all: seq<Pending>)
    requires i < |members| && done + Broadcast(members[i..], f, excluded) == all
    ensures (if Some(members[i]) == excluded then done else done + [Pending(members[i], f)])
            + Broadcast(members[i + 1..], f, excluded) == all
  {
    assert members[i..][1..] == members[i + 1..];
  }

  lemma Associate(a: seq<Pending>, b: seq<Pending>, c: seq<Pending>)
    ensures a + (b + c) == a + b + c
  {
  }

  /** What an announced member that is not the last one leaves behind. */
  lemma DepartureTold(peers: map<PeerId, Peer>, h: House, p: PeerId, now: int, leftByRequest: bool)
    requires p in peers && peers[p].room.Some? && peers[p].room.value in h.rooms && p in h.rooms[peers[p].room.value]
    requires peers[p].announced && Without(h.rooms[peers[p].room.value], p) != []
    ensures var d := S.RemovePeerFromRoom(peers, h, p, now, leftByRequest);
            var room := peers[p].room.value;
            var members := Without(h.rooms[room], p);
            var left := Broadcast(members, PeerLeft(room, p), None);
            && d.peers == peers[p := peers[p].(room := None, announced := false, host := false)]
            && (if room in h.hands && Hand.Changes(h.hands[room], p, false) then
                  var queue := Hand.Update(h.hands[room], p, false);
                  && d.house == h.(rooms := h.rooms[room := members], hands := h.hands[room := queue])
                  && d.pending == left + Broadcast(members, HandState(room, queue), None)
                else d.house == h.(rooms := h.rooms[room := members]) && d.pending == left)
  {
  }

  /** What a state is after a disconnection, field by field. */
  lemma DisconnectedIs(e: Env, s: State, p: PeerId, releaseReservation: bool, d: Departure, t: State)
    requires p in s.connected && p in s.peers
    requires d == S.RemovePeerFromRoom(s.peers, s.house, p, e.now, false)
    requires t.running == s.running && t.nextSequence == s.nextSequence && t.checks == s.checks
    requires t.peers == d.peers && t.connected == s.connected - {p} && t.house == d.house
    requires t.wire == s.wire.(queues := Out.Clear(s.wire.queues, p))
    requires t.inbound == Inbound.Release(s.inbound, s.peers[p].client)
    requires t.closing == if releaseReservation then s.closing else s.closing.(cleanup := s.closing.cleanup + {p})
    requires t.policy == if releaseReservation then Admission.Release(s.policy, s.peers[p].reservation) else s.policy
    requires t.handshaking == s.handshaking && t.nextReservation == s.nextReservation
    ensures S.Disconnect(e, s, p, releaseReservation) == Step(t, d.pending)
  {
  }

  function Then(more: seq<Pending>, rest: Step): Step {
    Step(rest.state, more + rest.more)
  }

  lemma CloseVictimsStep(e: Env, s: State, victims: seq<PeerId>, i: nat, target: PeerId, more: seq<Pending>, all: Step)
    requires i < |victims| && all == Then(more, S.CloseVictims(e, s, victims[i..], target))
    ensures var one := S.DisconnectAndClose(e, s, victims[i], false);
            if target !in one.state.connected then all == Then(more, one)
            else all == Then(more + one.more, S.CloseVictims(e, one.state, victims[i + 1..], target))
  {
    assert victims[i..][1..] == victims[i + 1..];
    var one := S.DisconnectAndClose(e, s, victims[i], false);
    if target in one.state.connected {
      var rest := S.CloseVictims(e, one.state, victims[i + 1..], target);
      Associate(more, one.more, rest.more);
    }
  }

  lemma LookedIs(s: State, t: State)
    requires t == s.(checks := t.checks)
    requires t.checks == s.checks + 1
    ensures t == s.(checks := s.checks + 1)
  {
  }

  lemma MovedIs(s: State, peers: map<PeerId, Peer>, h: House, t: State)
    requires t.peers == peers && t.house == h
    requires t.running == s.running && t.nextSequence == s.nextSequence && t.checks == s.checks
    requires t.connected == s.connected && t.wire == s.wire
    requires t.inbound == s.inbound && t.closing == s.closing && t.policy == s.policy
    requires t.handshaking == s.handshaking && t.nextReservation == s.nextReservation
    ensures t == s.(peers := peers, house := h)
  {
  }

  lemma ClosingIs(s: State, k: Closing, t: State)
    requires t == s.(closing := t.closing) && t.closing == k
    ensures t == s.(closing := k)
  {
  }

  lemma ReceivedIs(s: State, peers: map<PeerId, Peer>, l: Inbound.Limiter, t: State)
    requires t.peers == peers && t.inbound == l
    requires t.running == s.running && t.nextSequence == s.nextSequence && t.checks == s.checks
    requires t.connected == s.connected && t.wire == s.wire && t.house == s.house
    requires t.closing == s.closing && t.policy == s.policy
    requires t.handshaking == s.handshaking && t.nextReservation == s.nextReservation
    ensures t == s.(peers := peers, inbound := l)
  {
  }

  lemma SweptConsistent(l: Inbound.Limiter, was: Inbound.Limiter, now: int, windowNanos: int)
    requires Inbound.Consistent(was) && l == Inbound.RemoveExpiredInactive(was, now, windowNanos)
    ensures Inbound.Consistent(l)
  {
  }

  /** The new connection. */
  function Added(s: State, id: Admission.ReservationId, client: Inbound.ClientKey, subject: Option<Subject>): State {
    s.(nextSequence := s.nextSequence + 1,
       peers := s.peers[s.nextSequence := Events.NewPeer(id, client, subject)],
       connected := s.connected + {s.nextSequence},
       handshaking := s.handshaking - {id})
  }

  lemma ConnectedIs(
    c: Config, e: Env, s: State, id: Admission.ReservationId, subject: Option<Subject>, swept: Inbound.Limiter, l: Inbound.Limiter)
    requires id in s.handshaking && id in s.policy.issued && s.running
    requires swept == Inbound.RemoveExpiredInactive(s.inbound, e.now, c.inbound.windowNanos)
    requires Inbound.HasRoom(swept, s.policy.issued[id].client, c.inbound.maximumTrackedClients)
    requires l == Inbound.AfterRetain(swept, s.policy.issued[id].client, c.inbound.maximumTrackedClients)
    ensures Added(s.(peers := s.peers, inbound := l), id, s.policy.issued[id].client, subject)
            == Events.DoConnect(c, e, s, id, subject, false)
  {
  }

  lemma AddedIs(s: State, id: Admission.ReservationId, client: Inbound.ClientKey, subject: Option<Subject>, t: State)
    requires t.nextSequence == s.nextSequence + 1
    requires t.peers == s.peers[s.nextSequence := Events.NewPeer(id, client, subject)]
    requires t.connected == s.connected + {s.nextSequence} && t.handshaking == s.handshaking - {id}
    requires t.running == s.running && t.checks == s.checks && t.wire == s.wire && t.house == s.house
    requires t.closing == s.closing && t.policy == s.policy && t.nextReservation == s.nextReservation && t.inbound == s.inbound
    ensures t == Added(s, id, client, subject)
  {
  }

  lemma WireIs(s: State, w: Wire, t: State)
    requires t.wire == w
    requires t.running == s.running && t.nextSequence == s.nextSequence && t.checks == s.checks
    requires t.peers == s.peers && t.connected == s.connected && t.house == s.house
    requires t.inbound == s.inbound && t.closing == s.closing && t.policy == s.policy
    requires t.handshaking == s.handshaking && t.nextReservation == s.nextReservation
    ensures t == s.(wire := w)
  {
  }

  lemma PutIs(s: State, p: PeerId, f: Frame, bytes: int, t: State)
    requires t.wire == PutOnQueue(s.wire, p, f, bytes)
    requires t.running == s.running && t.nextSequence == s.nextSequence && t.checks == s.checks
    requires t.peers == s.peers && t.connected == s.connected && t.house == s.house
    requires t.inbound == s.inbound && t.closing == s.closing && t.policy == s.policy
    requires t.handshaking == s.handshaking && t.nextReservation == s.nextReservation
    ensures t == s.(wire := PutOnQueue(s.wire, p, f, bytes))
  {
  }

  lemma StoppedIs(s: State, order: seq<PeerId>, t: State)
    requires s.running && Elems(order) == s.connected && |order| == |s.connected|
    requires !t.running && t.nextSequence == s.nextSequence && t.checks == s.checks && t.peers == s.peers && t.connected == {}
    requires t.house == House(map[], map[], map[], [], s.house.parkings + [Clears]) && t.closing == s.closing && t.inbound == Inbound.NEW_LIMITER
    requires t.policy == Events.ReleaseAll(s.policy, s.peers, order)
    requires t.handshaking == s.handshaking && t.nextReservation == s.nextReservation
    requires t.wire.queues == Out.ClearAll(s.wire.queues, order)
    requires t.wire.drains == s.wire.drains && t.wire.nextDrain == s.wire.nextDrain
    requires t.wire.queued == s.wire.queued && t.wire.handed == s.wire.handed
    ensures t == Events.DoStop(s, order)
  {
  }

  /** What sections rely on follows from what holds between them. */
  lemma SectionsMayRun(c: Config, e: Env, s: State, ev: Events.Event)
    requires ValidConfig(c) && Messages.Ok(c, s)
    ensures s.nextReservation !in s.policy.issued && Inbound.Consistent(s.inbound)
    ensures ev.Connect? && ev.id in s.handshaking ==>
              && ev.id in s.policy.issued
              && Inbound.HasRoom(Inbound.RemoveExpiredInactive(s.inbound, e.now, c.inbound.windowNanos),
                                 s.policy.issued[ev.id].client, c.inbound.maximumTrackedClients)
  {
    if ev.Connect? && ev.id in s.handshaking {
      HandshakeIsIssued(c, s, ev.id);
      Runs.AssertionHolds(c, s, e.now, ev.id, s.policy.issued[ev.id].client);
    }
  }

  lemma HandshakeIsIssued(c: Config, s: State, id: Admission.ReservationId)
    requires Messages.Ok(c, s) && id in s.handshaking
    ensures id in s.policy.issued
  {
    assert id in s.policy.live;
  }

  class SignalingService {
    const config: Config
    const outboundDispatcher: Out.SignalingOutboundDispatcher
    const inboundLimiter: Inbound.SignalingInboundLimiter
    const admissionPolicy: Admission.ConnectionAdmissionPolicy

    var running: bool
    var nextConnectionSequence: PeerId
    // How often the lease of a connection has been looked at.
    var checks: nat
    var peers: map<PeerId, Peer>
    var connectedPeers: set<PeerId>
    var rooms: map<RoomId, seq<PeerId>>
    var handQueues: map<RoomId, Hand.HandQueue>
    var studyStates: map<RoomId, Study.Timer>
    var parkedStudyStates: seq<Parked>
    var drains: map<nat, Drain>
    var nextDrain: nat
    var closing: Closing
    var handshaking: set<Admission.ReservationId>
    var nextReservation: Admission.ReservationId
    // The frames ever queued for, and handed to, each session.
    ghost var queued: map<PeerId, seq<Frame>>
    ghost var handed: map<PeerId, seq<Frame>>
    // What became of the timers of rooms.
    ghost var parkings: seq<Parking>

    /** The objects fit together, also in the middle of a section. */
    ghost predicate Wired()
      reads this, outboundDispatcher, inboundLimiter, admissionPolicy
    {
      && connectedPeers <= peers.Keys
      && outboundDispatcher.maxPeerBytes == config.maxPeerBytes
      && outboundDispatcher.maxGlobalBytes == config.maxGlobalBytes
      && inboundLimiter.config == config.inbound
      && admissionPolicy.maxConnections == config.maxConnections
      && admissionPolicy.maxConnectionsPerClient == config.maxConnectionsPerClient
    }

    /** Everything that holds between two sections. */
    ghost predicate Valid()
      reads this, outboundDispatcher, inboundLimiter, admissionPolicy
    {
      Wired() && ValidConfig(config) && Messages.Ok(config, Model())
    }

    ghost function HouseModel(): House
      reads this
    {
      House(rooms, handQueues, studyStates, parkedStudyStates, parkings)
    }

    ghost function Model(): State
      reads this, outboundDispatcher, inboundLimiter, admissionPolicy
    {
      State(running, nextConnectionSequence, checks, peers, connectedPeers, HouseModel(),
            Wire(outboundDispatcher.Model(), drains, nextDrain, queued, handed),
            closing, inboundLimiter.Model(), admissionPolicy.Model(), handshaking, nextReservation)
    }

    constructor (config: Config)
      requires ValidConfig(config)
      ensures Valid() && this.config == config
      ensures Model() == INITIAL
    {
      this.config := config;
      outboundDispatcher := new Out.SignalingOutboundDispatcher(config.maxPeerBytes, config.maxGlobalBytes);
      inboundLimiter := new Inbound.SignalingInboundLimiter(config.inbound);
      admissionPolicy := new Admission.ConnectionAdmissionPolicy(config.maxConnections, config.maxConnectionsPerClient);
      running, nextConnectionSequence, checks := false, 0, 0;
      peers, connectedPeers := map[], {};
      rooms, handQueues, studyStates, parkedStudyStates := map[], map[], map[], [];
      drains, nextDrain, closing := map[], 0, Closing({}, {}, multiset{});
      handshaking, nextReservation := {}, 0;
      queued, handed, parkings := map[], map[], [];
      new;
      Runs.InitialOk(config);
    }

    // ----- leaving a room -----

    /** appendBroadcast; the result is what it appends. */
    static method AppendBroadcast(members: seq<PeerId>, frame: Frame, excluded: Option<PeerId>) returns (more: seq<Pending>)
      ensures more == Broadcast(members, frame, excluded)
    {
      more := [];
      ghost var all := Broadcast(members, frame, excluded);
      assert members[0..] == members;
      for i := 0 to |members|
        invariant more + Broadcast(members[i..], frame, excluded) == all
      {
        BroadcastStep(members, frame, excluded, i, more, all);
        if Some(members[i]) != excluded {
          more := more + [Pending(members[i], frame)];
        }
      }
    }

    /** The result is what the source appends to the work list; d is the specified outcome. */
    method RemovePeerFromRoom(e: Env, p: PeerId, leftByRequest: bool, ghost d: Departure) returns (more: seq<Pending>)
      requires p in peers && d == S.RemovePeerFromRoom(peers, HouseModel(), p, e.now, leftByRequest)
      modifies `peers, `rooms, `handQueues, `studyStates, `parkedStudyStates, `parkings
      ensures peers == d.peers && HouseModel() == d.house && more == d.pending
    {
      more := [];
      var peer := peers[p];
      if peer.room == None {
        return;
      }
      var room := peer.room.value;
      peers := peers[p := peer.(room := None, announced := false, host := false)];
      if room !in rooms || p !in rooms[room] {
        return;
      }
      var members := Without(rooms[room], p);
      if members == [] {
        rooms := rooms - {room};
        if !leftByRequest && room in studyStates {
          parkedStudyStates := Park(parkedStudyStates, room, studyStates[room], e.now);
        }
        parkings := parkings + [if !leftByRequest && room in studyStates then Parks(room, studyStates[room], e.now) else Drops(room)];
        studyStates := studyStates - {room};
        handQueues := handQueues - {room};
        return;
      }
      rooms := rooms[room := members];
      if !peer.announced {
        return;
      }
      DepartureTold(old(peers), old(HouseModel()), p, e.now, leftByRequest);
      more := AppendBroadcast(members, PeerLeft(room, p), None);
      if room in handQueues && Hand.Changes(handQueues[room], p, false) {
        var queue := Hand.Update(handQueues[room], p, false);
        handQueues := handQueues[room := queue];
        var raised := AppendBroadcast(members, HandState(room, queue), None);
        more := more + raised;
      }
    }

    // ----- disconnecting -----

    /** Of a connected peer; d is what becomes of its room. */
    method DisconnectLocked(e: Env, p: PeerId, releaseReservation: bool)
      returns (more: seq<Pending>, ghost d: Departure)
      requires p in connectedPeers && p in peers
      modifies `connectedPeers, `closing, `peers, `rooms, `handQueues, `studyStates, `parkedStudyStates, `parkings
      modifies admissionPolicy, inboundLimiter, outboundDispatcher
      ensures d == S.RemovePeerFromRoom(old(peers), old(HouseModel()), p, e.now, false)
      ensures connectedPeers == old(connectedPeers) - {p}
      ensures admissionPolicy.Model() == if releaseReservation then Admission.Release(old(admissionPolicy.Model()), old(peers)[p].reservation)
                                         else old(admissionPolicy.Model())
      ensures closing == if releaseReservation then old(closing) else old(closing).(cleanup := old(closing).cleanup + {p})
      ensures inboundLimiter.Model() == Inbound.Release(old(inboundLimiter.Model()), old(peers)[p].client)
      ensures outboundDispatcher.Model() == Out.Clear(old(outboundDispatcher.Model()), p)
      ensures peers == d.peers && HouseModel() == d.house && more == d.pending
      ensures peers.Keys == old(peers.Keys)
    {
      d := S.RemovePeerFromRoom(peers, HouseModel(), p, e.now, false);
      var peer := peers[p];
      connectedPeers := connectedPeers - {p};
      if releaseReservation {
        admissionPolicy.ReleaseReservation(peer.reservation);
      } else {
        closing := closing.(cleanup := closing.cleanup + {p});
      }
      inboundLimiter.ReleaseClient(peer.client);
      outboundDispatcher.ClearLocked(p);
      more := RemovePeerFromRoom(e, p, false, d);
    }

    method DisconnectAndCloseLocked(e: Env, p: PeerId, superseded: bool)
      returns (disconnected: bool, more: seq<Pending>)
      requires Wired()
      modifies this, outboundDispatcher, inboundLimiter, admissionPolicy
      ensures Wired() && p !in connectedPeers
      ensures Step(Model(), more) == S.DisconnectAndClose(e, old(Model()), p, superseded)
      ensures disconnected == (p in old(connectedPeers) && p in old(peers))
    {
      ghost var s := Model();
      more, disconnected := [], p in connectedPeers && p in peers;
      if disconnected {
        ghost var d;
        more, d := DisconnectLocked(e, p, !superseded);
        DisconnectedIs(e, s, p, !superseded, d, Model());
      }
      ScheduleCloseLocked(p);
    }

    method ScheduleCloseLocked(p: PeerId)
      modifies `closing
      ensures closing == ScheduleClose(old(closing), p)
    {
      if p in closing.inProgress {
        return;
      }
      closing := closing.(inProgress := closing.inProgress + {p}, actions := closing.actions + multiset{p});
    }

    // ----- sending -----

    /** Closes the victims of global pressure until the target itself is closed. */
    method CloseVictimsLocked(e: Env, victims: seq<PeerId>, target: PeerId) returns (more: seq<Pending>)
      requires Wired() && target in connectedPeers
      modifies this, outboundDispatcher, inboundLimiter, admissionPolicy
      ensures Wired()
      ensures Step(Model(), more) == S.CloseVictims(e, old(Model()), victims, target)
    {
      more := [];
      ghost var all := S.CloseVictims(e, Model(), victims, target);
      assert victims[0..] == victims;
      var i := 0;
      while i < |victims|
        invariant 0 <= i <= |victims| && target in connectedPeers && Wired()
        invariant all == Then(more, S.CloseVictims(e, Model(), victims[i..], target))
      {
        CloseVictimsStep(e, Model(), victims, i, target, more, all);
        var _, one := DisconnectAndCloseLocked(e, victims[i], false);
        more := more + one;
        if target !in connectedPeers {
          return;
        }
        i := i + 1;
      }
    }

    method PutOnQueueLocked(p: PeerId, f: Frame, bytes: int)
      modifies `drains, `nextDrain, `queued, outboundDispatcher
      ensures Model() == old(Model()).(wire := PutOnQueue(old(Model()).wire, p, f, bytes))
    {
      ghost var s := Model();
      var startDrain := outboundDispatcher.EnqueueLocked(p, f, bytes);
      if startDrain {
        drains, nextDrain := drains[nextDrain := Ready(p)], nextDrain + 1;
      }
      queued := queued[p := Logged(queued, p) + [f]];
      PutIs(s, p, f, bytes, Model());
    }

    method EnqueueOneLocked(e: Env, p: PeerId, f: Frame) returns (accepted: bool, more: seq<Pending>)
      requires Wired()
      modifies this, outboundDispatcher, inboundLimiter, admissionPolicy
      ensures Wired()
      ensures Step(Model(), more) == S.EnqueueOne(config, e, old(Model()), p, f)
      ensures accepted == (p in connectedPeers)
    {
      if p !in connectedPeers {
        return false, [];
      }
      ghost var s := Model();
      Delivery.EnqueueOneInParts(config, e, s, p, f);
      var expired := e.expired(p, checks);
      var bytes := Length(e, f);
      var overflow := outboundDispatcher.PeerLimitExceededLocked(p, bytes);
      checks := checks + 1;
      LookedIs(s, Model());
      if expired || overflow {
        var _, closed := DisconnectAndCloseLocked(e, p, false);
        return false, closed;
      }
      accepted, more := RelieveAndPutLocked(e, p, f, bytes);
    }

    /** The rest of enqueueOneLocked, once the frame is known to fit its own queue. */
    method RelieveAndPutLocked(e: Env, p: PeerId, f: Frame, bytes: int) returns (accepted: bool, more: seq<Pending>)
      requires Wired() && p in connectedPeers && bytes == Length(e, f)
      modifies this, outboundDispatcher, inboundLimiter, admissionPolicy
      ensures Wired()
      ensures Step(Model(), more) == S.RelieveAndPut(config, e, old(Model()), p, f)
      ensures accepted == (p in connectedPeers)
    {
      more := [];
      ghost var r := Delivery.Relieved(config, e, Model(), p, bytes);
      Delivery.RelieveAndPutInParts(config, e, Model(), p, f);
      var pressure := outboundDispatcher.GlobalLimitExceededLocked(bytes);
      if pressure {
        var victims := outboundDispatcher.GlobalPressureVictimsLocked(connectedPeers, bytes);
        more := CloseVictimsLocked(e, victims, p);
      }
      if p !in connectedPeers {
        return false, more;
      }
      var overflow := outboundDispatcher.GlobalLimitExceededLocked(bytes);
      if overflow {
        var _, closed := DisconnectAndCloseLocked(e, p, false);
        return false, more + closed;
      }
      PutOnQueueLocked(p, f, bytes);
      return true, more;
    }

    /** The work list: it may grow while it is worked off, but only by closing connections. */
    method EnqueueAllLocked(e: Env, frames: seq<Pending>)
      requires Wired()
      modifies this, outboundDispatcher, inboundLimiter, admissionPolicy
      ensures Wired()
      ensures Model() == S.EnqueueAll(config, e, old(Model()), frames)
    {
      var pending := frames;
      while pending != []
        invariant Wired()
        invariant S.EnqueueAll(config, e, Model(), pending) == S.EnqueueAll(config, e, old(Model()), frames)
        decreases connectedPeers, |pending|
      {
        var _, more := EnqueueOneLocked(e, pending[0].to, pending[0].frame);
        pending := pending[1..] + more;
      }
    }

    /** `enqueue`: whether the frame was accepted and its target is still connected. */
    method Enqueue(e: Env, p: PeerId, f: Frame) returns (accepted: bool)
      requires Wired()
      modifies this, outboundDispatcher, inboundLimiter, admissionPolicy
      ensures Wired() && accepted == (p in connectedPeers)
      ensures Model() == S.Send(config, e, old(Model()), p, f)
    {
      EnqueueAllLocked(e, [Pending(p, f)]);
      return p in connectedPeers;
    }

    method SendError(e: Env, p: PeerId, code: string)
      requires Wired()
      modifies this, outboundDispatcher, inboundLimiter, admissionPolicy
      ensures Wired()
      ensures Model() == S.SendError(config, e, old(Model()), p, code)
    {
      var _ := Enqueue(e, p, Neutral("error", None, code));
    }

    /** disconnectAndCloseLocked where no work list is being worked off. */
    method CloseNowLocked(e: Env, p: PeerId, superseded: bool)
      requires Wired()
      modifies this, outboundDispatcher, inboundLimiter, admissionPolicy
      ensures Wired()
      ensures Model() == S.CloseNow(config, e, old(Model()), p, superseded)
    {
      var _, more := DisconnectAndCloseLocked(e, p, superseded);
      EnqueueAllLocked(e, more);
    }

    method CloseForExpiredAuthorizationLocked(e: Env, p: PeerId) returns (expired: bool)
      requires Wired()
      modifies this, outboundDispatcher, inboundLimiter, admissionPolicy
      ensures Wired() && expired == e.expired(p, old(checks))
      ensures Model() == S.CheckLease(config, e, old(Model()), p)
    {
      ghost var s := Model();
      Messages.CheckLeaseInParts(config, e, s, p);
      expired := e.expired(p, checks);
      checks := checks + 1;
      LookedIs(s, Model());
      if expired {
        CloseNowLocked(e, p, false);
      }
    }

    // ----- messages -----

    method Leave(e: Env, p: PeerId)
      requires Wired() && p in peers
      modifies this, outboundDispatcher, inboundLimiter, admissionPolicy
      ensures Wired()
      ensures Model() == S.DoLeave(config, e, old(Model()), p)
    {
      ghost var s := Model();
      ghost var d := S.RemovePeerFromRoom(peers, HouseModel(), p, e.now, true);
      var more := RemovePeerFromRoom(e, p, true, d);
      MovedIs(s, d.peers, d.house, Model());
      EnqueueAllLocked(e, more);
    }

    method HandLocked(e: Env, p: PeerId, room: RoomId, raised: Option<bool>)
      requires Wired()
      modifies this, outboundDispatcher, inboundLimiter, admissionPolicy
      ensures Wired()
      ensures Model() == S.DoHand(config, e, old(Model()), p, room, raised)
    {
      ghost var s := Model();
      var queue := if room in handQueues then handQueues[room] else Hand.EMPTY_QUEUE;
      var changed := raised.Some? && Hand.Changes(queue, p, raised.value);
      if changed {
        queue := Hand.Update(queue, p, raised.value);
      }
      handQueues := handQueues[room := queue];
      MovedIs(s, s.peers, s.house.(hands := s.house.hands[room := queue]), Model());
      if changed {
        var members := if room in rooms then rooms[room] else [];
        var frames := AppendBroadcast(members, HandState(room, queue), None);
        EnqueueAllLocked(e, frames);
      } else {
        var _ := Enqueue(e, p, HandState(room, queue));
      }
    }

    method StudyLocked(e: Env, p: PeerId, room: RoomId, command: Option<Study.Command>)
      requires Wired() && p in peers
      modifies this, outboundDispatcher, inboundLimiter, admissionPolicy
      ensures Wired()
      ensures Model() == S.DoStudy(config, e, old(Model()), p, room, command)
    {
      if command.Some? && !peers[p].host {
        SendError(e, p, "FORBIDDEN");
        return;
      }
      ghost var s := Model();
      var timer := if room in studyStates then studyStates[room] else Study.NEW_TIMER;
      var applied := command.Some? && Study.Accepts(timer, command.value);
      if applied {
        timer := Study.Apply(timer, command.value, e.now);
      }
      studyStates := studyStates[room := timer];
      MovedIs(s, s.peers, s.house.(studies := s.house.studies[room := timer]), Model());
      if applied {
        var members := if room in rooms then rooms[room] else [];
        var frames := AppendBroadcast(members, StudyState(room, InfoOf(timer)), None);
        EnqueueAllLocked(e, frames);
      } else {
        var _ := Enqueue(e, p, StudyState(room, InfoOf(timer)));
      }
    }

    /** Messages to one other member, which the server passes on. */
    method Forward(e: Env, p: PeerId, m: Message)
      requires Wired() && p in peers && (m.Relay? || m.Reconnect? || m.Moderate?)
      modifies this, outboundDispatcher, inboundLimiter, admissionPolicy
      ensures Wired()
      ensures Model() == S.DoForward(config, e, old(Model()), p, m)
    {
      var members := if m.room in rooms then rooms[m.room] else [];
      if m.Moderate? && !peers[p].host {
        SendError(e, p, "FORBIDDEN");
      } else if p == m.to {
        SendError(e, p, "TARGET_SELF");
      } else if m.to !in members || m.to !in peers {
        SendError(e, p, "TARGET_NOT_FOUND");
      } else if m.Relay? {
        var _ := Enqueue(e, m.to, Neutral(m.kind, Some(p), m.payload));
      } else if m.Moderate? {
        if peers[m.to].host {
          SendError(e, p, "FORBIDDEN");
        } else {
          var _ := Enqueue(e, m.to, Neutral("moderation.media.disabled", Some(p), m.kind));
        }
      } else {
        var expired := CloseForExpiredAuthorizationLocked(e, m.to);
        if expired {
          SendError(e, p, "TARGET_NOT_FOUND");
        } else {
          var told := Enqueue(e, m.to, Neutral("peer.reconnect", Some(p), m.connectionId));
          if told {
            var _ := Enqueue(e, p, Neutral("peer.reconnect", Some(m.to), m.connectionId));
          }
        }
      }
    }

    /** findSameBatonParticipant: the first member with the given subject. */
    method FindSameBatonParticipant(members: seq<PeerId>, subject: Option<Subject>) returns (found: Option<PeerId>)
      ensures found == SameSubject(peers, members, subject)
    {
      if subject == None {
        return None;
      }
      assert members[0..] == members;
      for i := 0 to |members|
        invariant SameSubject(peers, members, subject) == SameSubject(peers, members[i..], subject)
      {
        assert members[i..][1..] == members[i + 1..];
        if members[i] in peers && peers[members[i]].subject == subject {
          return Some(members[i]);
        }
      }
      return None;
    }

    method RestoreParkedStudyLocked(room: RoomId, now: int)
      modifies `studyStates, `parkedStudyStates, `parkings
      ensures HouseModel() == RestoreParked(old(HouseModel()), room, now)
    {
      var parked := FindParked(parkedStudyStates, room);
      if parked.Some? {
        parkedStudyStates := WithoutParked(parkedStudyStates, room);
        parkings := parkings + [Takes(room)];
        if now - parked.value.parkedAt < PARKED_STUDY_RETENTION_NANOS && room !in studyStates {
          studyStates := studyStates[room := parked.value.timer];
        }
      }
    }

    /** The end of `join`. */
    method EnterLocked(e: Env, p: PeerId, room: RoomId, host: bool)
      requires Wired() && p in peers
      modifies this, outboundDispatcher, inboundLimiter, admissionPolicy
      ensures Wired()
      ensures Model() == S.Enter(config, e, old(Model()), p, room, host)
    {
      ghost var s := Model();
      RestoreParkedStudyLocked(room, e.now);
      MovedIs(s, s.peers, RestoreParked(s.house, room, e.now), Model());
      var members := if room in rooms then rooms[room] else [];
      if |members| >= config.maxRoomSize {
        SendError(e, p, "ROOM_FULL");
        return;
      }
      TakePlaceLocked(p, room, host, members);
      var told := Enqueue(e, p, RoomJoined(room, members));
      Join.EnterInParts(config, e, s, p, room, host, Model());
      if told {
        AnnounceLocked(e, p, room);
      }
    }

    method TakePlaceLocked(p: PeerId, room: RoomId, host: bool, members: seq<PeerId>)
      requires Wired() && p in peers && members == MembersOf(HouseModel(), room)
      modifies `peers, `rooms
      ensures Wired()
      ensures Model() == old(Model()).(peers := Join.Entering(old(peers), p, room, host),
                                       house := Join.WithNewcomer(old(HouseModel()), room, p))
    {
      ghost var s := Model();
      peers := peers[p := peers[p].(room := Some(room), host := host)];
      rooms := rooms[room := members + [p]];
      MovedIs(s, Join.Entering(s.peers, p, room, host), Join.WithNewcomer(s.house, room, p), Model());
    }

    method AnnounceLocked(e: Env, p: PeerId, room: RoomId)
      requires Wired() && p in peers
      modifies this, outboundDispatcher, inboundLimiter, admissionPolicy
      ensures Wired()
      ensures var announced := old(Model()).(peers := old(peers)[p := old(peers)[p].(announced := true)]);
              Model() == S.EnqueueAll(config, e, announced, Broadcast(MembersOf(old(HouseModel()), room), PeerJoined(room, p), Some(p)))
    {
      ghost var s := Model();
      peers := peers[p := peers[p].(announced := true)];
      MovedIs(s, s.peers[p := s.peers[p].(announced := true)], s.house, Model());
      var members := if room in rooms then rooms[room] else [];
      var frames := AppendBroadcast(members, PeerJoined(room, p), Some(p));
      EnqueueAllLocked(e, frames);
    }

    method JoinRoom(e: Env, p: PeerId, m: Message)
      requires Wired() && m.Join? && p in peers
      modifies this, outboundDispatcher, inboundLimiter, admissionPolicy
      ensures Wired()
      ensures Model() == S.DoJoin(config, e, old(Model()), p, m)
    {
      if peers[p].room != None {
        SendError(e, p, "ALREADY_JOINED");
      } else if !m.allowed {
        SendError(e, p, "ROOM_MISMATCH");
      } else if m.role == None {
        SendError(e, p, "FORBIDDEN");
      } else {
        var members := if m.room in rooms then rooms[m.room] else [];
        var existing := FindSameBatonParticipant(members, peers[p].subject);
        Join.JoinInParts(config, e, Model(), p, m, existing);
        if existing == None {
          EnterLocked(e, p, m.room, m.role.value);
        } else if p < existing.value {
          CloseNowLocked(e, p, true);
        } else {
          TakeOver(e, p, m.room, m.role.value, existing.value);
        }
      }
    }

    /** A newer session of the same person replaces the existing one; the timer of the room is kept. */
    method TakeOver(e: Env, p: PeerId, room: RoomId, host: bool, existing: PeerId)
      requires Wired() && p in peers
      modifies this, outboundDispatcher, inboundLimiter, admissionPolicy
      ensures Wired()
      ensures var replaced := S.CloseNow(config, e, old(Model()), existing, true);
              Model() == if p !in replaced.connected || p !in replaced.peers then replaced
                         else S.Enter(config, e, Join.PuttingBack(old(Model()), replaced, room), p, room, host)
    {
      ghost var s := Model();
      var previousStudy := if room in studyStates then Some(studyStates[room]) else None;
      CloseNowLocked(e, existing, true);
      if p !in connectedPeers {
        return;
      }
      ghost var replaced := Model();
      if previousStudy.Some? && room !in studyStates {
        studyStates := studyStates[room := previousStudy.value];
      }
      MovedIs(replaced, replaced.peers, Join.PuttingBack(s, replaced, room).house, Model());
      EnterLocked(e, p, room, host);
    }

    method Dispatch(e: Env, p: PeerId, m: Message)
      requires Wired() && p in peers
      modifies this, outboundDispatcher, inboundLimiter, admissionPolicy
      ensures Wired()
      ensures Model() == S.Dispatch(config, e, old(Model()), p, m)
    {
      if m.Join? {
        JoinRoom(e, p, m);
      } else if peers[p].room == None {
        SendError(e, p, "NOT_IN_ROOM");
      } else if peers[p].room != Some(m.room) {
        SendError(e, p, "ROOM_MISMATCH");
      } else {
        match m
        case Leave(_) => Leave(e, p);
        case HandRequest(room, raised) => HandLocked(e, p, room, raised);
        case StudyRequest(room, command) => StudyLocked(e, p, room, command);
        case Relay(_, _, _, _) => Forward(e, p, m);
        case Reconnect(_, _, _) => Forward(e, p, m);
        case Moderate(_, _, _) => Forward(e, p, m);
      }
    }

    // ----- the sections threads run -----

    method CloseAgainLocked(p: PeerId)
      modifies `closing
      ensures Model() == Events.CloseAgain(old(Model()), p)
    {
      ghost var s := Model();
      if p in peers {
        ScheduleCloseLocked(p);
        ClosingIs(s, ScheduleClose(s.closing, p), Model());
      }
    }

    method Handle(e: Env, p: PeerId, m: Message)
      requires Wired()
      modifies this, outboundDispatcher, inboundLimiter, admissionPolicy
      ensures Wired()
      ensures Model() == Events.DoHandle(config, e, old(Model()), p, m)
    {
      if p !in connectedPeers {
        CloseAgainLocked(p);
        return;
      }
      var expired := CloseForExpiredAuthorizationLocked(e, p);
      if !expired && p in peers {
        Dispatch(e, p, m);
      }
    }

    method AcceptInboundFrame(e: Env, p: PeerId, payloadBytes: nat) returns (accepted: bool)
      requires Wired()
      modifies this, outboundDispatcher, inboundLimiter, admissionPolicy
      ensures Wired()
      ensures Model() == Events.DoReceive(config, e, old(Model()), p, payloadBytes)
      ensures accepted == (&& p in old(connectedPeers) && !e.expired(p, old(checks))
                           && old(peers)[p].client in old(inboundLimiter.clients)
                           && Inbound.TryAcquire(config.inbound, old(inboundLimiter.Model()), old(peers)[p].client,
                                                 old(peers)[p].session, e.now, payloadBytes).decision == Inbound.ACCEPTED)
    {
      if p !in connectedPeers {
        return false;
      }
      ghost var s := Model();
      var expired := CloseForExpiredAuthorizationLocked(e, p);
      if expired || peers[p].client !in inboundLimiter.clients {
        return false;
      }
      var peer := peers[p];
      Messages.CheckLeaseInParts(config, e, s, p);
      ghost var looked := Model();
      var session, decision := inboundLimiter.TryAcquireFrame(peer.client, peer.session, e.now, payloadBytes);
      peers := peers[p := peer.(session := session)];
      ReceivedIs(looked, s.peers[p := s.peers[p].(session := session)], inboundLimiter.Model(), Model());
      if decision == Inbound.SESSION_FRAME_LIMITED || decision == Inbound.SESSION_BYTE_LIMITED {
        CloseNowLocked(e, p, false);
      }
      return decision == Inbound.ACCEPTED;
    }

    /** `order` is the order in which the sweep visits the connections, and what it finds there. */
    method HeartbeatSweep(e: Env, order: seq<(PeerId, Events.Beat)>)
      requires Wired()
      modifies this, outboundDispatcher, inboundLimiter, admissionPolicy
      ensures Wired()
      ensures Model() == Events.DoHeartbeat(config, e, old(Model()), order)
    {
      var rest := order;
      while rest != []
        invariant Wired()
        invariant Events.DoHeartbeat(config, e, Model(), rest) == Events.DoHeartbeat(config, e, old(Model()), order)
        decreases |rest|
      {
        BeatLocked(e, rest[0].0, rest[0].1);
        rest := rest[1..];
      }
    }

    method BeatLocked(e: Env, p: PeerId, beat: Events.Beat)
      requires Wired()
      modifies this, outboundDispatcher, inboundLimiter, admissionPolicy
      ensures Wired()
      ensures Model() == Events.BeatOne(config, e, old(Model()), p, beat)
    {
      if p !in connectedPeers {
        return;
      }
      var expired := CloseForExpiredAuthorizationLocked(e, p);
      if !expired {
        match beat
        case Ready(challenge) => var _ := Enqueue(e, p, Neutral("ping", None, challenge));
        case Waiting =>
        case Overdue => CloseNowLocked(e, p, false);
      }
    }

    method ExpireUnjoinedSessions(e: Env, order: seq<(PeerId, bool)>)
      requires Wired()
      modifies this, outboundDispatcher, inboundLimiter, admissionPolicy
      ensures Wired()
      ensures Model() == Events.DoSweep(config, e, old(Model()), order)
    {
      var rest := order;
      while rest != []
        invariant Wired()
        invariant Events.SweepAll(config, e, Model(), rest) == Events.SweepAll(config, e, old(Model()), order)
        decreases |rest|
      {
        var (p, timedOut) := rest[0];
        if p in connectedPeers {
          var expired := CloseForExpiredAuthorizationLocked(e, p);
          if !expired && timedOut {
            CloseNowLocked(e, p, false);
          }
        }
        rest := rest[1..];
      }
      ghost var s := Model();
      inboundLimiter.ForgetExpiredInactive(e.now);
      ReceivedIs(s, s.peers, inboundLimiter.Model(), Model());
    }

    /** Admission of a handshake; the reservation object gets the next number. */
    method Reserve(request: Admission.Reservation) returns (admission: Admission.Admission)
      requires Wired() && nextReservation !in admissionPolicy.issued
      modifies `handshaking, `nextReservation, admissionPolicy
      ensures Wired()
      ensures Model() == Events.DoReserve(config, old(Model()), request)
    {
      admission := admissionPolicy.Reserve(nextReservation, request);
      if admission.Accepted? {
        handshaking := handshaking + {nextReservation};
        nextReservation := nextReservation + 1;
      }
    }

    /** The inbound limiter has room for the client of a handshake once it is swept: what `retain` asserts. */
    ghost predicate RoomFor(e: Env, id: Admission.ReservationId)
      requires id in admissionPolicy.issued
      reads this, inboundLimiter, admissionPolicy
    {
      Inbound.HasRoom(Inbound.RemoveExpiredInactive(inboundLimiter.Model(), e.now, config.inbound.windowNanos),
                      admissionPolicy.issued[id].client, config.inbound.maximumTrackedClients)
    }

    /** The locked part of `connect`; the result says whether the connection was accepted. */
    method Connect(e: Env, id: Admission.ReservationId, subject: Option<Subject>, expired: bool) returns (accepted: bool)
      requires Wired() && id in handshaking && id in admissionPolicy.issued
      requires Inbound.Consistent(inboundLimiter.Model()) && RoomFor(e, id)
      modifies this, inboundLimiter
      ensures Wired() && accepted == (!expired && running)
      ensures Model() == Events.DoConnect(config, e, old(Model()), id, subject, expired)
    {
      ghost var s := Model();
      inboundLimiter.ForgetExpiredInactive(e.now);
      SweptConsistent(inboundLimiter.Model(), s.inbound, e.now, config.inbound.windowNanos);
      if expired || !running {
        ReceivedIs(s, s.peers, inboundLimiter.Model(), Model());
        return false;
      }
      ghost var swept := inboundLimiter.Model();
      var client := admissionPolicy.issued[id].client;
      inboundLimiter.RetainClient(client);
      ConnectedIs(config, e, s, id, subject, swept, inboundLimiter.Model());
      ReceivedIs(s, s.peers, inboundLimiter.Model(), Model());
      AddConnection(id, client, subject);
      return true;
    }

    /** The connection gets its number and is put in place. */
    method AddConnection(id: Admission.ReservationId, client: Inbound.ClientKey, subject: Option<Subject>)
      requires Wired()
      modifies `nextConnectionSequence, `peers, `connectedPeers, `handshaking
      ensures Wired() && running == old(running)
      ensures Model() == Added(old(Model()), id, client, subject)
    {
      ghost var s := Model();
      var p := nextConnectionSequence;
      nextConnectionSequence := nextConnectionSequence + 1;
      peers := peers[p := Events.NewPeer(id, client, subject)];
      connectedPeers := connectedPeers + {p};
      handshaking := handshaking - {id};
      AddedIs(s, id, client, subject, Model());
    }

    method Disconnect(e: Env, p: PeerId)
      requires Wired()
      modifies this, outboundDispatcher, inboundLimiter, admissionPolicy
      ensures Wired()
      ensures Model() == Events.DoTransportClosed(config, e, old(Model()), p)
    {
      ghost var s := Model();
      if p in connectedPeers {
        var more, d := DisconnectLocked(e, p, true);
        DisconnectedIs(e, s, p, true, d, Model());
        EnqueueAllLocked(e, more);
      } else {
        EnqueueAllLocked(e, []);
      }
    }

    method DisconnectAndClose(e: Env, p: PeerId)
      requires Wired()
      modifies this, outboundDispatcher, inboundLimiter, admissionPolicy
      ensures Wired()
      ensures Model() == Events.DoCloseRequested(config, e, old(Model()), p)
    {
      if p in connectedPeers {
        CloseNowLocked(e, p, false);
      } else {
        CloseAgainLocked(p);
      }
    }

    method CompleteCloseAttempt(p: PeerId)
      requires Wired() && closing.actions[p] > 0 && p in peers
      modifies `closing, admissionPolicy
      ensures Wired()
      ensures Model() == Events.DoCloseReturned(old(Model()), p)
    {
      var pendingPeer := p in closing.cleanup;
      closing := Closing(closing.cleanup - {p}, closing.inProgress - {p}, closing.actions - multiset{p});
      if pendingPeer {
        admissionPolicy.ReleaseReservation(peers[p].reservation);
      }
    }

    // ----- a drain's sections -----

    method TakeNextFrame(t: nat) returns (frame: Option<Out.OutboundFrame>)
      requires t in drains && drains[t].Ready?
      modifies `drains, `handed, outboundDispatcher
      ensures Model() == old(Model()).(wire := Drains.TakeFrame(old(Model()).wire, t, connectedPeers))
    {
      ghost var s := Model();
      var p := drains[t].peer;
      frame := outboundDispatcher.TakeFrameLocked(p, p in connectedPeers);
      if frame == None {
        drains := drains - {t};
      } else {
        drains := drains[t := Sending(p, frame.value)];
        handed := handed[p := Logged(handed, p) + [frame.value.message]];
      }
      WireIs(s, Drains.TakeFrame(s.wire, t, s.connected), Model());
    }

    method SendReturned(t: nat)
      requires t in drains && drains[t].Sending?
      modifies `drains, outboundDispatcher
      ensures Model() == old(Model()).(wire := Drains.SendReturned(old(Model()).wire, t, connectedPeers))
    {
      ghost var s := Model();
      var p := drains[t].peer;
      outboundDispatcher.ReleaseInFlightLocked(p, drains[t].frame, p in connectedPeers);
      drains := drains[t := Ready(p)];
      WireIs(s, Drains.SendReturned(s.wire, t, s.connected), Model());
    }

    method EndFailedDrain(t: nat)
      requires t in drains && drains[t].Failed?
      modifies `drains, outboundDispatcher
      ensures Model() == old(Model()).(wire := Drains.EndFailed(old(Model()).wire, t, connectedPeers))
    {
      ghost var s := Model();
      var p := drains[t].peer;
      outboundDispatcher.ReleaseInFlightLocked(p, drains[t].frame, p in connectedPeers);
      drains := drains - {t};
      WireIs(s, Drains.EndFailed(s.wire, t, s.connected), Model());
    }

    /** handleOutboundSendFailure, and the drain on its way out. */
    method HandleOutboundSendFailure(e: Env, t: nat)
      requires Wired() && t in drains && drains[t].Sending?
      modifies this, outboundDispatcher, inboundLimiter, admissionPolicy
      ensures Wired()
      ensures Model() == Events.DoDrainFails(config, e, old(Model()), t)
    {
      var p := drains[t].peer;
      DisconnectAndClose(e, p);
      ghost var s := Model();
      if t in drains && drains[t].Sending? {
        drains := drains[t := Failed(p, drains[t].frame)];
        WireIs(s, s.wire.(drains := drains), Model());
      }
    }

    method Start()
      modifies `running
      ensures Model() == old(Model()).(running := true)
    {
      running := true;
    }

    /** The locked part of stop; `order` is the order in which it visits the connections. */
    method Stop(order: seq<PeerId>)
      requires Wired() && (running ==> Elems(order) == connectedPeers && |order| == |connectedPeers|)
      modifies this, outboundDispatcher, inboundLimiter, admissionPolicy
      ensures Wired()
      ensures Model() == Events.DoStop(old(Model()), order)
    {
      if running {
        CloseAll(order);
      }
    }

    method CloseAll(order: seq<PeerId>)
      requires Wired() && running && Elems(order) == connectedPeers && |order| == |connectedPeers|
      modifies `running, `connectedPeers, `rooms, `handQueues, `studyStates, `parkedStudyStates, `parkings
      modifies outboundDispatcher, inboundLimiter, admissionPolicy
      ensures Model() == Events.DoStop(old(Model()), order)
    {
      ghost var s := Model();
      ReleaseConnections(order);
      ForgetConnections();
      StoppedIs(s, order, Model());
    }

    method ForgetConnections()
      modifies `running, `connectedPeers, `rooms, `handQueues, `studyStates, `parkedStudyStates, `parkings, inboundLimiter
      ensures !running && connectedPeers == {} && HouseModel() == House(map[], map[], map[], [], old(parkings) + [Clears])
      ensures inboundLimiter.Model() == Inbound.NEW_LIMITER
    {
      running, connectedPeers := false, {};
      rooms, handQueues, studyStates, parkedStudyStates := map[], map[], map[], [];
      parkings := parkings + [Clears];
      inboundLimiter.Reset();
    }

    method ReleaseConnections(order: seq<PeerId>)
      requires order == [] || Elems(order) <= peers.Keys
      modifies outboundDispatcher, admissionPolicy
      ensures outboundDispatcher.Model() == Out.ClearAll(old(outboundDispatcher.Model()), order)
      ensures admissionPolicy.Model() == Events.ReleaseAll(old(admissionPolicy.Model()), peers, order)
    {
      var rest := order;
      while rest != []
        modifies outboundDispatcher, admissionPolicy
        invariant forall p :: p in rest ==> p in peers
        invariant Out.ClearAll(outboundDispatcher.Model(), rest) == Out.ClearAll(old(outboundDispatcher.Model()), order)
        invariant Events.ReleaseAll(admissionPolicy.Model(), peers, rest)
               == Events.ReleaseAll(old(admissionPolicy.Model()), peers, order)
        decreases |rest|
      {
        var p := rest[0];
        admissionPolicy.ReleaseReservation(peers[p].reservation);
        outboundDispatcher.ClearLocked(p);
        rest := rest[1..];
      }
    }

    // ----- between two sections -----

    /** What a section relies on, which every state between two sections provides. */
    ghost predicate MayRun(e: Env, ev: Events.Event)
      reads this, inboundLimiter, admissionPolicy
    {
      && nextReservation !in admissionPolicy.issued && Inbound.Consistent(inboundLimiter.Model())
      && (ev.Connect? && ev.id in handshaking ==> ev.id in admissionPolicy.issued && RoomFor(e, ev.id))
    }

    /** Any section, run on the object. */
    method Perform(e: Env, ev: Events.Event)
      requires Wired() && MayRun(e, ev)
      modifies this, outboundDispatcher, inboundLimiter, admissionPolicy
      ensures Wired() && Model() == Events.Next(config, e, old(Model()), ev)
    {
      if ForPeer(ev) {
        PerformForPeer(e, ev);
        return;
      }
      match ev
      case Start => Start();
      case Stop(order) =>
        if Elems(order) == connectedPeers && |order| == |connectedPeers| {
          Stop(order);
        }
      case Reserve(request) => var _ := Reserve(request);
      case Abandon(id) => Abandon(id);
      case Connect(id, subject, expired) =>
        if id in handshaking {
          var _ := Connect(e, id, subject, expired);
        }
      case Heartbeat(beats) => HeartbeatSweep(e, beats);
      case Sweep(timedOut) => ExpireUnjoinedSessions(e, timedOut);
    }

    predicate ForEnding(ev: Events.Event) {
      ev.TransportClosed? || ev.CloseRequested? || ev.CloseReturned?
    }

    predicate ForDrain(ev: Events.Event) {
      ev.DrainTakes? || ev.DrainSent? || ev.DrainFails? || ev.DrainEnds?
    }

    /** What happens to one connection. */
    predicate ForPeer(ev: Events.Event) {
      ev.Receive? || ev.Handle? || ev.SessionError? || ev.LookAt? || ForEnding(ev) || ForDrain(ev)
    }

    method PerformForPeer(e: Env, ev: Events.Event)
      requires Wired() && ForPeer(ev)
      modifies this, outboundDispatcher, inboundLimiter, admissionPolicy
      ensures Wired() && Model() == Events.Next(config, e, old(Model()), ev)
    {
      if ForEnding(ev) {
        PerformEnding(e, ev);
      } else if ForDrain(ev) {
        PerformDrain(e, ev);
      } else {
        match ev
        case Receive(p, bytes) => var _ := AcceptInboundFrame(e, p, bytes);
        case Handle(p, m) => Handle(e, p, m);
        case SessionError(p, code) =>
          if p in connectedPeers {
            SendError(e, p, code);
          }
        case LookAt(p) =>
          if p in connectedPeers {
            var _ := CloseForExpiredAuthorizationLocked(e, p);
          }
      }
    }

    method PerformEnding(e: Env, ev: Events.Event)
      requires Wired() && ForEnding(ev)
      modifies this, outboundDispatcher, inboundLimiter, admissionPolicy
      ensures Wired() && Model() == Events.Next(config, e, old(Model()), ev)
    {
      match ev
      case TransportClosed(p) => Disconnect(e, p);
      case CloseRequested(p) => DisconnectAndClose(e, p);
      case CloseReturned(p) =>
        if closing.actions[p] > 0 && p in peers {
          CompleteCloseAttempt(p);
        }
    }

    method PerformDrain(e: Env, ev: Events.Event)
      requires Wired() && ForDrain(ev)
      modifies this, outboundDispatcher, inboundLimiter, admissionPolicy
      ensures Wired() && Model() == Events.Next(config, e, old(Model()), ev)
    {
      var t := ev.drain;
      if t !in drains {
        return;
      }
      if ev.DrainTakes? && drains[t].Ready? {
        var _ := TakeNextFrame(t);
      } else if ev.DrainSent? && drains[t].Sending? {
        SendReturned(t);
      } else if ev.DrainFails? && drains[t].Sending? {
        HandleOutboundSendFailure(e, t);
      } else if ev.DrainEnds? && drains[t].Failed? {
        EndFailedDrain(t);
      }
    }

    /** A handshake ends without a connection. */
    method Abandon(id: Admission.ReservationId)
      modifies `handshaking, admissionPolicy
      ensures Model() == Events.DoAbandon(old(Model()), id)
    {
      if id in handshaking {
        admissionPolicy.ReleaseReservation(id);
        handshaking := handshaking - {id};
      }
    }

    /** Whatever section a thread runs on the object, everything that holds between sections holds again. */
    method RunSection(e: Env, ev: Events.Event)
      requires Valid()
      modifies this, outboundDispatcher, inboundLimiter, admissionPolicy
      ensures Valid() && Model() == Events.Next(config, e, old(Model()), ev)
    {
      ghost var s := Model();
      SectionsMayRun(config, e, s, ev);
      Perform(e, ev);
      Runs.NextOk(config, e, s, ev, Model());
    }
  }
}
