/**
 Connection reservations (ConnectionAdmissionPolicy.java): a connection is counted against the
 server, its client address, its participation token and its place in a room from the handshake
 until the reservation is closed.
 */
module ConnectionAdmission {
  import opened Common

  const MAX_CONNECTIONS_PER_PARTICIPANT_ROOM := 2

  /** A reservation object, named by the order of creation. */
  type ReservationId = nat

  /** Client addresses, tokens and places in a room are keys that are only compared for equality. */
  type ClientKey = nat

  type TokenId = nat

  type ParticipantRoomKey = nat

  datatype Reservation = Reservation(client: ClientKey, token: Option<TokenId>, participantRoom: Option<ParticipantRoomKey>)

  datatype Rejection = ServerCapacity | ClientCapacity | ParticipationTokenCapacity | ParticipantRoomCapacity

  datatype Admission = Accepted(reservation: ReservationId) | Rejected(reason: Rejection)

  /**
   The counters of the policy, and the reservation objects it has handed out: `issued` holds their
   fields and `live` those that are not yet released.
   */
  datatype Policy = Policy(
    activeReservations: int,
    connectionsByClient: map<ClientKey, int>,
    reservedTokens: set<TokenId>,
    connectionsByParticipantRoom: map<ParticipantRoomKey, int>,
    issued: map<ReservationId, Reservation>,
    live: set<ReservationId>)

  const NO_RESERVATIONS := Policy(0, map[], {}, map[], map[], {})

  function CountOf<K>(counts: map<K, int>, key: K): int {
    if key in counts then counts[key] else 0
  }

  function Increment<K>(counts: map<K, int>, key: Option<K>): map<K, int> {
    match key
    case None => counts
    case Some(k) => counts[k := CountOf(counts, k) + 1]
  }

  function Decrement<K>(counts: map<K, int>, key: Option<K>): map<K, int> {
    match key
    case None => counts
    case Some(k) =>
      if k !in counts then counts
      else if counts[k] == 1 then counts - {k}
      else counts[k := counts[k] - 1]
  }

  function Refusal(p: Policy, maxConnections: int, maxPerClient: int, r: Reservation): Option<Rejection> {
    if p.activeReservations >= maxConnections then Some(ServerCapacity)
    else if CountOf(p.connectionsByClient, r.client) >= maxPerClient then Some(ClientCapacity)
    else if r.token.Some? && r.token.value in p.reservedTokens then Some(ParticipationTokenCapacity)
    else if r.participantRoom.Some?
            && CountOf(p.connectionsByParticipantRoom, r.participantRoom.value)
               >= MAX_CONNECTIONS_PER_PARTICIPANT_ROOM then Some(ParticipantRoomCapacity)
    else None
  }

  /** The policy after handing out the reservation `id`. */
  function Admit(p: Policy, id: ReservationId, r: Reservation): Policy {
    Policy(
      p.activeReservations + 1,
      Increment(p.connectionsByClient, Some(r.client)),
      if r.token.Some? then p.reservedTokens + {r.token.value} else p.reservedTokens,
      Increment(p.connectionsByParticipantRoom, r.participantRoom),
      p.issued[id := r],
      p.live + {id})
  }

  /** Closing a reservation a second time changes nothing. */
  function Release(p: Policy, id: ReservationId): Policy {
    if id !in p.live || id !in p.issued then p
    else
      var r := p.issued[id];
      Policy(
        p.activeReservations - 1,
        Decrement(p.connectionsByClient, Some(r.client)),
        if r.token.Some? then p.reservedTokens - {r.token.value} else p.reservedTokens,
        Decrement(p.connectionsByParticipantRoom, r.participantRoom),
        p.issued,
        p.live - {id})
  }

  // ----- the counters are the counts -----

  ghost function OfClient(p: Policy, key: ClientKey): set<ReservationId> {
    set id | id in p.live && id in p.issued && p.issued[id].client == key
  }

  ghost function OfParticipantRoom(p: Policy, key: ParticipantRoomKey): set<ReservationId> {
    set id | id in p.live && id in p.issued && p.issued[id].participantRoom == Some(key)
  }

  ghost predicate ClientsCounted(p: Policy, maxPerClient: int) {
    && (forall key :: CountOf(p.connectionsByClient, key) == |OfClient(p, key)| <= maxPerClient)
    && (forall key :: key in p.connectionsByClient ==> p.connectionsByClient[key] > 0)
  }

  ghost predicate ParticipantRoomsCounted(p: Policy) {
    && (forall key :: CountOf(p.connectionsByParticipantRoom, key) == |OfParticipantRoom(p, key)|
                      <= MAX_CONNECTIONS_PER_PARTICIPANT_ROOM)
    && (forall key :: key in p.connectionsByParticipantRoom ==> p.connectionsByParticipantRoom[key] > 0)
  }

  ghost predicate HoldsToken(p: Policy, id: ReservationId, token: TokenId) {
    id in p.live && id in p.issued && p.issued[id].token == Some(token)
  }

  ghost predicate TokensReserved(p: Policy) {
    && (forall token :: token in p.reservedTokens <==> exists id :: HoldsToken(p, id, token))
    && (forall a, b, token :: HoldsToken(p, a, token) && HoldsToken(p, b, token) ==> a == b)
  }

  /** Every counter is the number of live reservations it stands for, and the limits hold. */
  ghost predicate Conserved(p: Policy, maxConnections: int, maxPerClient: int) {
    && p.live <= p.issued.Keys
    && p.activeReservations == |p.live| <= maxConnections
    && ClientsCounted(p, maxPerClient)
    && ParticipantRoomsCounted(p)
    && TokensReserved(p)
  }

  /** A request is accepted exactly if its token is free and the live reservations leave room on the server, for its client and for its participant. */
  lemma AcceptedExactly(p: Policy, maxConnections: int, maxPerClient: int, r: Reservation)
    requires Conserved(p, maxConnections, maxPerClient)
    ensures Refusal(p, maxConnections, maxPerClient, r) == None
            <==> && |p.live| < maxConnections && |OfClient(p, r.client)| < maxPerClient
                 && (r.token.Some? ==> forall id :: !HoldsToken(p, id, r.token.value))
                 && (r.participantRoom.Some?
                     ==> |OfParticipantRoom(p, r.participantRoom.value)| < MAX_CONNECTIONS_PER_PARTICIPANT_ROOM)
  {
    assert CountOf(p.connectionsByClient, r.client) == |OfClient(p, r.client)|;
    if r.participantRoom.Some? {
      assert CountOf(p.connectionsByParticipantRoom, r.participantRoom.value) == |OfParticipantRoom(p, r.participantRoom.value)|;
    }
  }

  lemma AdmitCountsClients(p: Policy, max: int, id: ReservationId, r: Reservation)
    requires ClientsCounted(p, max) && id !in p.issued && CountOf(p.connectionsByClient, r.client) < max
    ensures ClientsCounted(Admit(p, id, r), max)
  {
    var q := Admit(p, id, r);
    forall key: ClientKey
      ensures CountOf(q.connectionsByClient, key) == |OfClient(q, key)| <= max
    {
      assert CountOf(p.connectionsByClient, key) == |OfClient(p, key)|;
      if key == r.client {
        assert OfClient(q, key) == OfClient(p, key) + {id};
      } else {
        assert OfClient(q, key) == OfClient(p, key);
      }
    }
  }

  lemma AdmitCountsParticipantRooms(p: Policy, id: ReservationId, r: Reservation)
    requires ParticipantRoomsCounted(p) && id !in p.issued
    requires r.participantRoom.Some?
             ==> CountOf(p.connectionsByParticipantRoom, r.participantRoom.value) < MAX_CONNECTIONS_PER_PARTICIPANT_ROOM
    ensures ParticipantRoomsCounted(Admit(p, id, r))
  {
    var q := Admit(p, id, r);
    forall key: ParticipantRoomKey
      ensures CountOf(q.connectionsByParticipantRoom, key) == |OfParticipantRoom(q, key)|
              <= MAX_CONNECTIONS_PER_PARTICIPANT_ROOM
    {
      assert OfParticipantRoom(q, key) == OfParticipantRoom(p, key) + if r.participantRoom == Some(key) then {id} else {};
      assert CountOf(p.connectionsByParticipantRoom, key) == |OfParticipantRoom(p, key)|;
    }
  }

  lemma AdmitReservesToken(p: Policy, id: ReservationId, r: Reservation)
    requires TokensReserved(p) && id !in p.issued
    requires r.token.Some? ==> r.token.value !in p.reservedTokens
    ensures TokensReserved(Admit(p, id, r))
  {
    var q := Admit(p, id, r);
    forall x: ReservationId, token: TokenId
      ensures HoldsToken(q, x, token) <==> HoldsToken(p, x, token) || (x == id && r.token == Some(token))
    {
    }
    forall token: TokenId
      ensures token in q.reservedTokens <==> exists x :: HoldsToken(q, x, token)
    {
      if r.token == Some(token) {
        assert HoldsToken(q, id, token);
      } else if token in p.reservedTokens {
        var x :| HoldsToken(p, x, token);
        assert HoldsToken(q, x, token);
      }
    }
  }

  lemma AdmitConserves(p: Policy, maxConnections: int, maxPerClient: int, id: ReservationId, r: Reservation)
    requires Conserved(p, maxConnections, maxPerClient)
    requires id !in p.issued
    requires Refusal(p, maxConnections, maxPerClient, r) == None
    ensures Conserved(Admit(p, id, r), maxConnections, maxPerClient)
  {
    AdmitCountsClients(p, maxPerClient, id, r);
    AdmitCountsParticipantRooms(p, id, r);
    AdmitReservesToken(p, id, r);
  }

  lemma ReleaseCountsClients(p: Policy, max: int, id: ReservationId)
    requires ClientsCounted(p, max) && id in p.live && id in p.issued
    ensures ClientsCounted(Release(p, id), max)
  {
    var q := Release(p, id);
    assert id in OfClient(p, p.issued[id].client);
    forall key: ClientKey
      ensures CountOf(q.connectionsByClient, key) == |OfClient(q, key)| <= max
    {
      assert OfClient(q, key) == OfClient(p, key) - {id};
      assert CountOf(p.connectionsByClient, key) == |OfClient(p, key)|;
    }
  }

  lemma ReleaseCountsParticipantRooms(p: Policy, id: ReservationId)
    requires ParticipantRoomsCounted(p) && id in p.live && id in p.issued
    ensures ParticipantRoomsCounted(Release(p, id))
  {
    var q := Release(p, id);
    var room := p.issued[id].participantRoom;
    assert room.Some? ==> id in OfParticipantRoom(p, room.value);
    forall key: ParticipantRoomKey
      ensures CountOf(q.connectionsByParticipantRoom, key) == |OfParticipantRoom(q, key)|
              <= MAX_CONNECTIONS_PER_PARTICIPANT_ROOM
    {
      assert OfParticipantRoom(q, key) == OfParticipantRoom(p, key) - {id};
      assert CountOf(p.connectionsByParticipantRoom, key) == |OfParticipantRoom(p, key)|;
    }
  }

  lemma ReleaseFreesToken(p: Policy, id: ReservationId)
    requires TokensReserved(p) && id in p.live && id in p.issued
    ensures TokensReserved(Release(p, id))
  {
    var q := Release(p, id);
    forall x: ReservationId, token: TokenId
      ensures HoldsToken(q, x, token) <==> HoldsToken(p, x, token) && x != id
    {
    }
    forall token: TokenId
      ensures token in q.reservedTokens <==> exists x :: HoldsToken(q, x, token)
    {
      if token in q.reservedTokens {
        var x :| HoldsToken(p, x, token);
        assert HoldsToken(q, x, token);
      }
      if p.issued[id].token == Some(token) {
        assert HoldsToken(p, id, token);
      }
    }
  }

  /** Closing a reservation gives back exactly what it held, and closing it again gives back nothing. */
  lemma ReleaseConserves(p: Policy, maxConnections: int, maxPerClient: int, id: ReservationId)
    requires Conserved(p, maxConnections, maxPerClient)
    ensures Conserved(Release(p, id), maxConnections, maxPerClient)
    ensures Release(p, id).live == p.live - {id} && Release(p, id).issued == p.issued
    ensures Release(Release(p, id), id) == Release(p, id)
  {
    if id in p.live {
      ReleaseCountsClients(p, maxPerClient, id);
      ReleaseCountsParticipantRooms(p, id);
      ReleaseFreesToken(p, id);
    } else {
      assert p.live - {id} == p.live;
    }
  }

  // ----- the policy object -----

  class ConnectionAdmissionPolicy {
    const maxConnections: int
    const maxConnectionsPerClient: int
    var activeReservations: int
    var connectionsByClient: map<ClientKey, int>
    var reservedParticipationTokens: set<TokenId>
    var connectionsByParticipantRoom: map<ParticipantRoomKey, int>
    // The reservation objects: their fields, and which of them are not released.
    var issued: map<ReservationId, Reservation>
    var live: set<ReservationId>

    ghost function Model(): Policy
      reads this
    {
      Policy(activeReservations, connectionsByClient, reservedParticipationTokens, connectionsByParticipantRoom, issued, live)
    }

    constructor (maxConnections: int, maxConnectionsPerClient: int)
      ensures Model() == NO_RESERVATIONS
      ensures this.maxConnections == maxConnections && this.maxConnectionsPerClient == maxConnectionsPerClient
    {
      this.maxConnections, this.maxConnectionsPerClient := maxConnections, maxConnectionsPerClient;
      activeReservations, connectionsByClient, reservedParticipationTokens := 0, map[], {};
      connectionsByParticipantRoom, issued, live := map[], map[], {};
    }

    /** `id` names the reservation object that is created if the request is accepted. */
    method Reserve(id: ReservationId, request: Reservation) returns (admission: Admission)
      requires id !in issued
      modifies this
      ensures var refusal := Refusal(old(Model()), maxConnections, maxConnectionsPerClient, request);
              if refusal.Some? then admission == Rejected(refusal.value) && Model() == old(Model())
              else admission == Accepted(id) && Model() == Admit(old(Model()), id, request)
    {
      if activeReservations >= maxConnections {
        return Rejected(ServerCapacity);
      }
      if CountOf(connectionsByClient, request.client) >= maxConnectionsPerClient {
        return Rejected(ClientCapacity);
      }
      if request.token.Some? && request.token.value in reservedParticipationTokens {
        return Rejected(ParticipationTokenCapacity);
      }
      if request.participantRoom.Some?
         && CountOf(connectionsByParticipantRoom, request.participantRoom.value) >= MAX_CONNECTIONS_PER_PARTICIPANT_ROOM {
        return Rejected(ParticipantRoomCapacity);
      }
      activeReservations := activeReservations + 1;
      connectionsByClient := Increment(connectionsByClient, Some(request.client));
      if request.token.Some? {
        reservedParticipationTokens := reservedParticipationTokens + {request.token.value};
      }
      connectionsByParticipantRoom := Increment(connectionsByParticipantRoom, request.participantRoom);
      issued, live := issued[id := request], live + {id};
      admission := Accepted(id);
    }

    /** Closing the reservation `id`. */
    method ReleaseReservation(id: ReservationId)
      modifies this
      ensures Model() == Release(old(Model()), id)
    {
      if id !in live || id !in issued {
        return;
      }
      var reservation := issued[id];
      live := live - {id};
      activeReservations := activeReservations - 1;
      connectionsByClient := Decrement(connectionsByClient, Some(reservation.client));
      if reservation.token.Some? {
        reservedParticipationTokens := reservedParticipationTokens - {reservation.token.value};
      }
      connectionsByParticipantRoom := Decrement(connectionsByParticipantRoom, reservation.participantRoom);
    }
  }
}
