/**
 What can happen to the server: every section any thread runs under the monitor, as one step. The
 order of the steps is arbitrary, so a run is any interleaving of clients, timers, drains and closes.
 */
module SignalingEvents {
  import opened Common
  import opened Frames
  import opened SignalingState
  import Drains = SignalingWire
  import Out = OutboundDispatcher
  import Inbound = InboundLimiter
  import Admission = ConnectionAdmission

  /** What the heartbeat finds a connection doing. */
  datatype Beat = Ready(challenge: string) | Waiting | Overdue

  datatype Event =
    | Start
    | Stop(order: seq<PeerId>)
    | Reserve(reservation: Admission.Reservation)
    | Abandon(id: Admission.ReservationId)
    | Connect(id: Admission.ReservationId, subject: Option<Subject>, expired: bool)
    | Receive(peer: PeerId, bytes: nat)
    | Handle(peer: PeerId, message: Message)
    | SessionError(peer: PeerId, code: string)
    | LookAt(peer: PeerId)
    | Heartbeat(beats: seq<(PeerId, Beat)>)
    | Sweep(timedOut: seq<(PeerId, bool)>)
    | TransportClosed(peer: PeerId)
    | CloseRequested(peer: PeerId)
    | CloseReturned(peer: PeerId)
    | DrainTakes(drain: nat)
    | DrainSent(drain: nat)
    | DrainFails(drain: nat)
    | DrainEnds(drain: nat)

  /** `reserve` of the admission policy, at the start of a handshake. */
  function DoReserve(c: Config, s: State, r: Admission.Reservation): State {
    if Admission.Refusal(s.policy, c.maxConnections, c.maxConnectionsPerClient, r).Some? then s
    else
      s.(policy := Admission.Admit(s.policy, s.nextReservation, r),
         handshaking := s.handshaking + {s.nextReservation},
         nextReservation := s.nextReservation + 1)
  }

  /** A handshake ends without a connection, or `connect` refused it. */
  function DoAbandon(s: State, id: Admission.ReservationId): State {
    if id !in s.handshaking then s
    else s.(policy := Admission.Release(s.policy, id), handshaking := s.handshaking - {id})
  }

  function NewPeer(id: Admission.ReservationId, client: Inbound.ClientKey, subject: Option<Subject>): Peer {
    Peer(None, false, false, subject, id, client, Inbound.UNOPENED)
  }

  /** The locked part of `connect`; if the assertion in `retain` failed, only a number would be used up. */
  function DoConnect(c: Config, e: Env, s: State, id: Admission.ReservationId, subject: Option<Subject>, expired: bool): State {
    if id !in s.handshaking || id !in s.policy.issued then s
    else
      var swept := s.(inbound := Inbound.RemoveExpiredInactive(s.inbound, e.now, c.inbound.windowNanos));
      var client := s.policy.issued[id].client;
      if expired || !s.running then swept
      else
        var retained := swept.(
          nextSequence := s.nextSequence + 1,
          inbound := Inbound.AfterRetain(swept.inbound, client, c.inbound.maximumTrackedClients));
        if !Inbound.HasRoom(swept.inbound, client, c.inbound.maximumTrackedClients) then retained
        else
          retained.(
            peers := s.peers[s.nextSequence := NewPeer(id, client, subject)],
            connected := s.connected + {s.nextSequence},
            handshaking := s.handshaking - {id})
  }

  /** acceptInboundFrame. */
  function DoReceive(c: Config, e: Env, s: State, p: PeerId, bytes: nat): State {
    if p !in s.connected || p !in s.peers then s
    else
      var looked := CheckLease(c, e, s, p);
      if e.expired(p, s.checks) || s.peers[p].client !in s.inbound.clients then looked
      else
        var a := Inbound.TryAcquire(c.inbound, s.inbound, s.peers[p].client, s.peers[p].session, e.now, bytes);
        var counted := looked.(inbound := a.limiter, peers := s.peers[p := s.peers[p].(session := a.session)]);
        if a.decision == Inbound.SESSION_FRAME_LIMITED || a.decision == Inbound.SESSION_BYTE_LIMITED
        then CloseNow(c, e, counted, p, false) else counted
  }

  /** A session that is not connected any more is only closed. */
  function CloseAgain(s: State, p: PeerId): State {
    if p in s.peers then s.(closing := ScheduleClose(s.closing, p)) else s
  }

  function DoHandle(c: Config, e: Env, s: State, p: PeerId, m: Message): State {
    if p !in s.connected || p !in s.peers then CloseAgain(s, p)
    else
      var looked := CheckLease(c, e, s, p);
      if e.expired(p, s.checks) || p !in looked.peers then looked else Dispatch(c, e, looked, p, m)
  }

  function DoLook(c: Config, e: Env, s: State, p: PeerId): State {
    if p !in s.connected then s else CheckLease(c, e, s, p)
  }

  /** The body of heartbeatSweep's loop for one connection. */
  function BeatOne(c: Config, e: Env, s: State, p: PeerId, b: Beat): State {
    if p !in s.connected then s
    else
      var looked := CheckLease(c, e, s, p);
      if e.expired(p, s.checks) then looked
      else match b
        case Ready(challenge) => Send(c, e, looked, p, Neutral("ping", None, challenge))
        case Waiting => looked
        case Overdue => CloseNow(c, e, looked, p, false)
  }

  function DoHeartbeat(c: Config, e: Env, s: State, beats: seq<(PeerId, Beat)>): State
    decreases |beats|
  {
    if beats == [] then s else DoHeartbeat(c, e, BeatOne(c, e, s, beats[0].0, beats[0].1), beats[1..])
  }

  /** The body of expireUnjoinedSessions' loop for one connection. */
  function SweepOne(c: Config, e: Env, s: State, p: PeerId, timedOut: bool): State {
    if p !in s.connected then s
    else
      var looked := CheckLease(c, e, s, p);
      if e.expired(p, s.checks) || !timedOut then looked else CloseNow(c, e, looked, p, false)
  }

  function SweepAll(c: Config, e: Env, s: State, timedOut: seq<(PeerId, bool)>): State
    decreases |timedOut|
  {
    if timedOut == [] then s else SweepAll(c, e, SweepOne(c, e, s, timedOut[0].0, timedOut[0].1), timedOut[1..])
  }

  function DoSweep(c: Config, e: Env, s: State, timedOut: seq<(PeerId, bool)>): State {
    var swept := SweepAll(c, e, s, timedOut);
    swept.(inbound := Inbound.RemoveExpiredInactive(swept.inbound, e.now, c.inbound.windowNanos))
  }

  function DoTransportClosed(c: Config, e: Env, s: State, p: PeerId): State {
    var d := Disconnect(e, s, p, true);
    EnqueueAll(c, e, d.state, d.more)
  }

  function DoCloseRequested(c: Config, e: Env, s: State, p: PeerId): State {
    if p in s.connected then CloseNow(c, e, s, p, false) else CloseAgain(s, p)
  }

  /** completeCloseAttempt. */
  function DoCloseReturned(s: State, p: PeerId): State {
    if s.closing.actions[p] == 0 || p !in s.peers then s
    else
      s.(closing := Closing(s.closing.cleanup - {p}, s.closing.inProgress - {p}, s.closing.actions - multiset{p}),
         policy := if p in s.closing.cleanup then Admission.Release(s.policy, s.peers[p].reservation) else s.policy)
  }

  /** The failure handler of a drain: its session is closed, then the drain ends in another section. */
  function DoDrainFails(c: Config, e: Env, s: State, t: nat): State {
    if t !in s.wire.drains || !s.wire.drains[t].Sending? then s
    else
      var p := s.wire.drains[t].peer;
      var closed := DoCloseRequested(c, e, s, p);
      if t !in closed.wire.drains || !closed.wire.drains[t].Sending? then closed
      else closed.(wire := closed.wire.(drains := closed.wire.drains[t := Failed(p, closed.wire.drains[t].frame)]))
  }

  function DoDrain(s: State, ev: Event): State
    requires ev.DrainTakes? || ev.DrainSent? || ev.DrainEnds?
  {
    var t := ev.drain;
    if t !in s.wire.drains then s
    else if ev.DrainTakes? && s.wire.drains[t].Ready? then s.(wire := Drains.TakeFrame(s.wire, t, s.connected))
    else if ev.DrainSent? && s.wire.drains[t].Sending? then s.(wire := Drains.SendReturned(s.wire, t, s.connected))
    else if ev.DrainEnds? && s.wire.drains[t].Failed? then s.(wire := Drains.EndFailed(s.wire, t, s.connected))
    else s
  }

  function ReleaseAll(policy: Admission.Policy, peers: map<PeerId, Peer>, order: seq<PeerId>): Admission.Policy
    decreases |order|
  {
    if order == [] then policy
    else ReleaseAll(if order[0] in peers then Admission.Release(policy, peers[order[0]].reservation) else policy, peers, order[1..])
  }

  /** The locked part of `stop`, whatever the order in which it visits the connections. */
  function DoStop(s: State, order: seq<PeerId>): State {
    if !s.running || Elems(order) != s.connected || |order| != |s.connected| then s
    else
      s.(running := false,
         connected := {},
         policy := ReleaseAll(s.policy, s.peers, order),
         wire := s.wire.(queues := Out.ClearAll(s.wire.queues, order)),
         house := House(map[], map[], map[], [], s.house.parkings + [Clears]),
         inbound := Inbound.NEW_LIMITER)
  }

  function Next(c: Config, e: Env, s: State, ev: Event): State {
    match ev
    case Start => s.(running := true)
    case Stop(order) => DoStop(s, order)
    case Reserve(r) => DoReserve(c, s, r)
    case Abandon(id) => DoAbandon(s, id)
    case Connect(id, subject, expired) => DoConnect(c, e, s, id, subject, expired)
    case Receive(p, bytes) => DoReceive(c, e, s, p, bytes)
    case Handle(p, m) => DoHandle(c, e, s, p, m)
    case SessionError(p, code) => if p in s.connected then SendError(c, e, s, p, code) else s
    case LookAt(p) => DoLook(c, e, s, p)
    case Heartbeat(beats) => DoHeartbeat(c, e, s, beats)
    case Sweep(timedOut) => DoSweep(c, e, s, timedOut)
    case TransportClosed(p) => DoTransportClosed(c, e, s, p)
    case CloseRequested(p) => DoCloseRequested(c, e, s, p)
    case CloseReturned(p) => DoCloseReturned(s, p)
    case DrainTakes(_) => DoDrain(s, ev)
    case DrainSent(_) => DoDrain(s, ev)
    case DrainFails(t) => DoDrainFails(c, e, s, t)
    case DrainEnds(_) => DoDrain(s, ev)
  }

  /** An event and what the section it runs observes. */
  datatype Turn = Turn(env: Env, event: Event)

  function Run(c: Config, s: State, turns: seq<Turn>): State
    decreases |turns|
  {
    if turns == [] then s else Run(c, Next(c, turns[0].env, s, turns[0].event), turns[1..])
  }
}
