/**
 The signaling server (SignalingService.java) as a state and the sections it runs under its
 monitor. Each function below is one method, or the part of one method that holds the lock.

 Two things the server only observes are parameters of a section: how long a frame is, and whether
 the k-th look at a connection's lease finds it expired. Every such outcome is possible.
 */
module SignalingState {
  import opened Common
  import opened Frames
  import Study = RoomStudyState
  import Hand = RoomHandQueue
  import Out = OutboundDispatcher
  import Inbound = InboundLimiter
  import Admission = ConnectionAdmission

  const PARKED_STUDY_RETENTION_NANOS := 600_000_000_000
  const MAX_PARKED_STUDY_STATES := 1_000

  datatype Config = Config(
    maxRoomSize: nat, maxConnections: nat, maxConnectionsPerClient: nat,
    maxPeerBytes: int, maxGlobalBytes: int, inbound: Inbound.Config)

  /** What SignalingProperties validates, and the limiter's capacity taken from the same property. */
  predicate ValidConfig(c: Config) {
    && 1 <= c.maxRoomSize <= c.maxConnections
    && 1 <= c.maxConnectionsPerClient <= c.maxConnections
    && 1 <= c.maxPeerBytes <= c.maxGlobalBytes
    && c.inbound.maximumTrackedClients == c.maxConnections
  }

  /** What one locked section observes. */
  datatype Env = Env(now: int, extraBytes: Frame -> nat, expired: (PeerId, nat) -> bool)

  /** Frames have positive length. */
  function Length(e: Env, f: Frame): int { 1 + e.extraBytes(f) }

  // ----- the state -----

  /** The person behind a BATON participation grant; only compared for equality. */
  type Subject = nat

  datatype Peer = Peer(
    room: Option<RoomId>, announced: bool, host: bool, subject: Option<Subject>,
    reservation: Admission.ReservationId, client: Inbound.ClientKey, session: Inbound.UsageWindow)

  datatype Parked = Parked(room: RoomId, timer: Study.Timer, parkedAt: int)

  /** What became of the timer of a room: parked or dropped with the last member, taken back, or cleared by `stop`. */
  datatype Parking = Parks(room: RoomId, timer: Study.Timer, at: int) | Drops(room: RoomId) | Takes(room: RoomId) | Clears

  /** Rooms with their members in order of joining, what the server keeps per room, and a log of the parkings. */
  datatype House = House(
    rooms: map<RoomId, seq<PeerId>>, hands: map<RoomId, Hand.HandQueue>,
    studies: map<RoomId, Study.Timer>, parked: seq<Parked>, parkings: seq<Parking>)

  /** A thread running `drain` for a connection: about to take a frame, sending it, or failing to. */
  datatype Drain = Ready(peer: PeerId) | Sending(peer: PeerId, frame: Out.OutboundFrame) | Failed(peer: PeerId, frame: Out.OutboundFrame)

  /** The send queues, the running drains, and what was ever queued for and handed to each session. */
  datatype Wire = Wire(
    queues: Out.Dispatcher, drains: map<nat, Drain>, nextDrain: nat,
    queued: map<PeerId, seq<Frame>>, handed: map<PeerId, seq<Frame>>)

  /** Connections waiting for their close to return, closes in progress, and dispatched close actions. */
  datatype Closing = Closing(cleanup: set<PeerId>, inProgress: set<PeerId>, actions: multiset<PeerId>)

  datatype State = State(
    running: bool, nextSequence: PeerId, checks: nat,
    peers: map<PeerId, Peer>, connected: set<PeerId>,
    house: House, wire: Wire, closing: Closing, inbound: Inbound.Limiter,
    policy: Admission.Policy, handshaking: set<Admission.ReservationId>, nextReservation: Admission.ReservationId)

  const INITIAL := State(
    false, 0, 0, map[], {}, House(map[], map[], map[], [], []),
    Wire(Out.Dispatcher(map[], 0), map[], 0, map[], map[]), Closing({}, {}, multiset{}),
    Inbound.NEW_LIMITER, Admission.NO_RESERVATIONS, {}, 0)

  // ----- leaving a room -----

  function Retained(parked: seq<Parked>, now: int, except: RoomId): (r: seq<Parked>)
    ensures |r| <= |parked|
    ensures forall x :: x in r ==> x in parked && x.room != except
  {
    if parked == [] then []
    else (if now - parked[0].parkedAt < PARKED_STUDY_RETENTION_NANOS && parked[0].room != except then [parked[0]] else [])
         + Retained(parked[1..], now, except)
  }

  /** parkStudyLocked: forget what is too old, keep the newest thousand. */
  function Park(parked: seq<Parked>, room: RoomId, timer: Study.Timer, now: int): seq<Parked> {
    var more := Retained(parked, now, room) + [Parked(room, timer, now)];
    if |more| > MAX_PARKED_STUDY_STATES then more[1..] else more
  }

  datatype Departure = Departure(peers: map<PeerId, Peer>, house: House, pending: seq<Pending>)

  function RemovePeerFromRoom(peers: map<PeerId, Peer>, h: House, p: PeerId, now: int, leftByRequest: bool): Departure
    requires p in peers
  {
    match peers[p].room
    case None => Departure(peers, h, [])
    case Some(room) =>
      var peers' := peers[p := peers[p].(room := None, announced := false, host := false)];
      if room !in h.rooms || p !in h.rooms[room] then Departure(peers', h, [])
      else
        var members := Without(h.rooms[room], p);
        if members == [] then
          var parks := !leftByRequest && room in h.studies;
          var parked := if parks then Park(h.parked, room, h.studies[room], now) else h.parked;
          var parking := if parks then Parks(room, h.studies[room], now) else Drops(room);
          Departure(peers', House(h.rooms - {room}, h.hands - {room}, h.studies - {room}, parked, h.parkings + [parking]), [])
        else
          var h' := h.(rooms := h.rooms[room := members]);
          if !peers[p].announced then Departure(peers', h', [])
          else
            var left := Broadcast(members, PeerLeft(room, p), None);
            if room in h.hands && Hand.Changes(h.hands[room], p, false) then
              var queue := Hand.Update(h.hands[room], p, false);
              Departure(peers', h'.(hands := h.hands[room := queue]),
                        left + Broadcast(members, HandState(room, queue), None))
            else Departure(peers', h', left)
  }

  // ----- disconnecting -----

  /** A state together with the frames that closing connections has added to the work list. */
  datatype Step = Step(state: State, more: seq<Pending>)

  /** Frames are added to the work list only by disconnecting somebody. */
  predicate Pays(before: set<PeerId>, r: Step) {
    r.state.connected <= before && (r.more != [] ==> r.state.connected != before)
  }

  /** disconnectLocked. */
  function Disconnect(e: Env, s: State, p: PeerId, releaseReservation: bool): (r: Step)
    ensures Pays(s.connected, r)
    ensures p in s.peers ==> r.state.connected == s.connected - {p}
  {
    if p !in s.connected || p !in s.peers then Step(s, [])
    else
      var d := RemovePeerFromRoom(s.peers, s.house, p, e.now, false);
      Step(
        s.(connected := s.connected - {p},
           policy := if releaseReservation then Admission.Release(s.policy, s.peers[p].reservation) else s.policy,
           closing := if releaseReservation then s.closing else s.closing.(cleanup := s.closing.cleanup + {p}),
           inbound := Inbound.Release(s.inbound, s.peers[p].client),
           wire := s.wire.(queues := Out.Clear(s.wire.queues, p)),
           peers := d.peers,
           house := d.house),
        d.pending)
  }

  /** scheduleCloseLocked: at most one close of a session is in progress. */
  function ScheduleClose(k: Closing, p: PeerId): Closing {
    if p in k.inProgress then k
    else k.(inProgress := k.inProgress + {p}, actions := k.actions + multiset{p})
  }

  /** disconnectAndCloseLocked; a superseded session keeps its reservation until its close returns. */
  function DisconnectAndClose(e: Env, s: State, p: PeerId, superseded: bool): (r: Step)
    ensures Pays(s.connected, r)
    ensures p in s.peers ==> r.state.connected == s.connected - {p}
  {
    var d := Disconnect(e, s, p, !superseded);
    d.(state := d.state.(closing := ScheduleClose(d.state.closing, p)))
  }

  // ----- sending -----

  /** The bookkeeping of enqueueLocked; a drain is dispatched unless one is running. */
  function PutOnQueue(w: Wire, p: PeerId, f: Frame, bytes: int): Wire {
    var startDrain := !Out.QueueOf(w.queues, p).draining;
    Wire(
      Out.Enqueue(w.queues, p, f, bytes),
      if startDrain then w.drains[w.nextDrain := Ready(p)] else w.drains,
      if startDrain then w.nextDrain + 1 else w.nextDrain,
      w.queued[p := Logged(w.queued, p) + [f]],
      w.handed)
  }

  function Logged(log: map<PeerId, seq<Frame>>, p: PeerId): seq<Frame> {
    if p in log then log[p] else []
  }

  /** Closing the victims of global pressure, up to and including the target itself. */
  function CloseVictims(e: Env, s: State, victims: seq<PeerId>, target: PeerId): (r: Step)
    ensures Pays(s.connected, r)
    decreases |victims|
  {
    if victims == [] then Step(s, [])
    else
      var one := DisconnectAndClose(e, s, victims[0], false);
      if target !in one.state.connected then one
      else
        var rest := CloseVictims(e, one.state, victims[1..], target);
        Step(rest.state, one.more + rest.more)
  }

  /** enqueueOneLocked, from the point where the frame is known to fit its own queue. */
  function RelieveAndPut(c: Config, e: Env, s: State, p: PeerId, f: Frame): (r: Step)
    ensures Pays(s.connected, r)
  {
    var bytes := Length(e, f);
    var relieved :=
      if Out.GlobalLimitExceeded(s.wire.queues, c.maxGlobalBytes, bytes)
      then CloseVictims(e, s, Out.Victims(s.wire.queues, s.connected, c.maxGlobalBytes, bytes), p)
      else Step(s, []);
    if p !in relieved.state.connected then relieved
    else if Out.GlobalLimitExceeded(relieved.state.wire.queues, c.maxGlobalBytes, bytes) then
      var closed := DisconnectAndClose(e, relieved.state, p, false);
      Step(closed.state, relieved.more + closed.more)
    else relieved.(state := relieved.state.(wire := PutOnQueue(relieved.state.wire, p, f, bytes)))
  }

  /** enqueueOneLocked. */
  function EnqueueOne(c: Config, e: Env, s: State, p: PeerId, f: Frame): (r: Step)
    ensures Pays(s.connected, r)
  {
    if p !in s.connected then Step(s, [])
    else
      var looked := s.(checks := s.checks + 1);
      if e.expired(p, s.checks) then DisconnectAndClose(e, looked, p, false)
      else if Out.PeerLimitExceeded(s.wire.queues, c.maxPeerBytes, p, Length(e, f)) then
        DisconnectAndClose(e, looked, p, false)
      else RelieveAndPut(c, e, looked, p, f)
  }

  /**
   enqueueAllLocked: the work list. Processing a frame may append frames, but only by disconnecting
   a connection, so the list empties.
   */
  function EnqueueAll(c: Config, e: Env, s: State, pending: seq<Pending>): (r: State)
    ensures r.connected <= s.connected
    decreases s.connected, |pending|
  {
    if pending == [] then s
    else
      var one := EnqueueOne(c, e, s, pending[0].to, pending[0].frame);
      EnqueueAll(c, e, one.state, pending[1..] + one.more)
  }

  function Send(c: Config, e: Env, s: State, p: PeerId, f: Frame): (r: State)
    ensures r.connected <= s.connected
  {
    EnqueueAll(c, e, s, [Pending(p, f)])
  }

  function SendError(c: Config, e: Env, s: State, p: PeerId, code: string): (r: State)
    ensures r.connected <= s.connected
  {
    Send(c, e, s, p, Neutral("error", None, code))
  }

  /** disconnectAndCloseLocked outside of a work list: it runs its own. */
  function CloseNow(c: Config, e: Env, s: State, p: PeerId, superseded: bool): (r: State)
    ensures r.connected <= s.connected
  {
    var d := DisconnectAndClose(e, s, p, superseded);
    EnqueueAll(c, e, d.state, d.more)
  }

  /** closeForExpiredAuthorizationLocked outside of a work list. */
  function CheckLease(c: Config, e: Env, s: State, p: PeerId): (r: State)
    ensures r.connected <= s.connected
  {
    var looked := s.(checks := s.checks + 1);
    if e.expired(p, s.checks) then CloseNow(c, e, looked, p, false) else looked
  }

  // ----- messages -----

  datatype Message =
    | Join(room: RoomId, allowed: bool, role: Option<bool>)
    | Leave(room: RoomId)
    | Relay(room: RoomId, to: PeerId, kind: string, payload: string)
    | Reconnect(room: RoomId, to: PeerId, connectionId: string)
    | StudyRequest(room: RoomId, command: Option<Study.Command>)
    | HandRequest(room: RoomId, raised: Option<bool>)
    | Moderate(room: RoomId, to: PeerId, kind: string)

  /** findSameBatonParticipant: the first member with the subject of the joining connection. */
  function SameSubject(peers: map<PeerId, Peer>, members: seq<PeerId>, subject: Option<Subject>): Option<PeerId> {
    if subject == None || members == [] then None
    else if members[0] in peers && peers[members[0]].subject == subject then Some(members[0])
    else SameSubject(peers, members[1..], subject)
  }

  function MembersOf(h: House, room: RoomId): seq<PeerId> {
    if room in h.rooms then h.rooms[room] else []
  }

  function PutIfAbsent(studies: map<RoomId, Study.Timer>, room: RoomId, timer: Study.Timer): map<RoomId, Study.Timer> {
    if room in studies then studies else studies[room := timer]
  }

  function FindParked(parked: seq<Parked>, room: RoomId): Option<Parked> {
    if parked == [] then None
    else if parked[0].room == room then Some(parked[0])
    else FindParked(parked[1..], room)
  }

  function WithoutParked(parked: seq<Parked>, room: RoomId): (r: seq<Parked>)
    ensures |r| <= |parked|
    ensures forall x :: x in r ==> x in parked && x.room != room
  {
    if parked == [] then []
    else (if parked[0].room == room then [] else [parked[0]]) + WithoutParked(parked[1..], room)
  }

  /** restoreParkedStudyLocked. */
  function RestoreParked(h: House, room: RoomId, now: int): House {
    match FindParked(h.parked, room)
    case None => h
    case Some(parked) =>
      var h' := h.(parked := WithoutParked(h.parked, room), parkings := h.parkings + [Takes(room)]);
      if now - parked.parkedAt < PARKED_STUDY_RETENTION_NANOS
      then h'.(studies := PutIfAbsent(h.studies, room, parked.timer)) else h'
  }

  /** The end of `join`, once an older session of the same person is out of the way. */
  function Enter(c: Config, e: Env, s: State, p: PeerId, room: RoomId, host: bool): (r: State)
    requires p in s.peers
    ensures r.connected <= s.connected
  {
    var restored := s.(house := RestoreParked(s.house, room, e.now));
    var members := MembersOf(restored.house, room);
    if |members| >= c.maxRoomSize then SendError(c, e, restored, p, "ROOM_FULL")
    else
      var inside := restored.(
        peers := s.peers[p := s.peers[p].(room := Some(room), host := host)],
        house := restored.house.(rooms := restored.house.rooms[room := members + [p]]));
      var told := Send(c, e, inside, p, RoomJoined(room, members));
      if p !in told.connected || p !in told.peers then told
      else
        var announced := told.(peers := told.peers[p := told.peers[p].(announced := true)]);
        EnqueueAll(c, e, announced, Broadcast(MembersOf(told.house, room), PeerJoined(room, p), Some(p)))
  }

  function DoJoin(c: Config, e: Env, s: State, p: PeerId, m: Message): (r: State)
    requires m.Join? && p in s.peers
    ensures r.connected <= s.connected
  {
    if s.peers[p].room != None then SendError(c, e, s, p, "ALREADY_JOINED")
    else if !m.allowed then SendError(c, e, s, p, "ROOM_MISMATCH")
    else if m.role == None then SendError(c, e, s, p, "FORBIDDEN")
    else
      match SameSubject(s.peers, MembersOf(s.house, m.room), s.peers[p].subject)
      case None => Enter(c, e, s, p, m.room, m.role.value)
      case Some(existing) =>
        if p < existing then CloseNow(c, e, s, p, true)
        else
          var replaced := CloseNow(c, e, s, existing, true);
          if p !in replaced.connected || p !in replaced.peers then replaced
          else
            var kept := if m.room in s.house.studies
              then replaced.(house := replaced.house.(
                studies := PutIfAbsent(replaced.house.studies, m.room, s.house.studies[m.room])))
              else replaced;
            Enter(c, e, kept, p, m.room, m.role.value)
  }

  function DoLeave(c: Config, e: Env, s: State, p: PeerId): (r: State)
    requires p in s.peers
    ensures r.connected <= s.connected
  {
    var d := RemovePeerFromRoom(s.peers, s.house, p, e.now, true);
    EnqueueAll(c, e, s.(peers := d.peers, house := d.house), d.pending)
  }

  function DoHand(c: Config, e: Env, s: State, p: PeerId, room: RoomId, raised: Option<bool>): (r: State)
    ensures r.connected <= s.connected
  {
    var queue := if room in s.house.hands then s.house.hands[room] else Hand.EMPTY_QUEUE;
    var changed := raised.Some? && Hand.Changes(queue, p, raised.value);
    var queue' := if changed then Hand.Update(queue, p, raised.value) else queue;
    var s' := s.(house := s.house.(hands := s.house.hands[room := queue']));
    if changed then EnqueueAll(c, e, s', Broadcast(MembersOf(s.house, room), HandState(room, queue'), None))
    else Send(c, e, s', p, HandState(room, queue'))
  }

  function DoStudy(c: Config, e: Env, s: State, p: PeerId, room: RoomId, command: Option<Study.Command>): (r: State)
    requires p in s.peers
    ensures r.connected <= s.connected
  {
    if command.Some? && !s.peers[p].host then SendError(c, e, s, p, "FORBIDDEN")
    else
      var timer := if room in s.house.studies then s.house.studies[room] else Study.NEW_TIMER;
      var applied := command.Some? && Study.Accepts(timer, command.value);
      var timer' := if applied then Study.Apply(timer, command.value, e.now) else timer;
      var s' := s.(house := s.house.(studies := s.house.studies[room := timer']));
      var frame := StudyState(room, InfoOf(timer'));
      if applied then EnqueueAll(c, e, s', Broadcast(MembersOf(s.house, room), frame, None))
      else Send(c, e, s', p, frame)
  }

  /** Messages to one other member, which the server passes on. */
  function DoForward(c: Config, e: Env, s: State, p: PeerId, m: Message): (r: State)
    requires (m.Relay? || m.Reconnect? || m.Moderate?) && p in s.peers
    ensures r.connected <= s.connected
  {
    if m.Moderate? && !s.peers[p].host then SendError(c, e, s, p, "FORBIDDEN")
    else if p == m.to then SendError(c, e, s, p, "TARGET_SELF")
    else if m.to !in MembersOf(s.house, m.room) || m.to !in s.peers then SendError(c, e, s, p, "TARGET_NOT_FOUND")
    else if m.Relay? then Send(c, e, s, m.to, Neutral(m.kind, Some(p), m.payload))
    else if m.Moderate? then
      if s.peers[m.to].host then SendError(c, e, s, p, "FORBIDDEN")
      else Send(c, e, s, m.to, Neutral("moderation.media.disabled", Some(p), m.kind))
    else
      var looked := CheckLease(c, e, s, m.to);
      if e.expired(m.to, s.checks) then SendError(c, e, looked, p, "TARGET_NOT_FOUND")
      else
        var told := Send(c, e, looked, m.to, Neutral("peer.reconnect", Some(p), m.connectionId));
        if m.to in told.connected then Send(c, e, told, p, Neutral("peer.reconnect", Some(m.to), m.connectionId)) else told
  }

  function Dispatch(c: Config, e: Env, s: State, p: PeerId, m: Message): (r: State)
    requires p in s.peers
    ensures r.connected <= s.connected
  {
    if m.Join? then DoJoin(c, e, s, p, m)
    else if s.peers[p].room == None then SendError(c, e, s, p, "NOT_IN_ROOM")
    else if s.peers[p].room != Some(m.room) then SendError(c, e, s, p, "ROOM_MISMATCH")
    else if m.Leave? then DoLeave(c, e, s, p)
    else if m.HandRequest? then DoHand(c, e, s, p, m.room, m.raised)
    else if m.StudyRequest? then DoStudy(c, e, s, p, m.room, m.command)
    else DoForward(c, e, s, p, m)
  }
}
