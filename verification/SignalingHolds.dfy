/**
 Reservations, closes in progress and the client table of the inbound limiter: three counts kept in
 different objects that must agree with the set of connections.
 */
module SignalingHolds {
  import opened Common
  import opened Frames
  import opened SignalingState
  import Inbound = InboundLimiter
  import Admission = ConnectionAdmission

  // ----- reservations -----

  /** The reservations of some connections. */
  ghost function HeldBy(peers: map<PeerId, Peer>, holders: set<PeerId>): set<Admission.ReservationId> {
    set p: PeerId | p in holders && p in peers :: peers[p].reservation
  }

  /**
   The unreleased reservations are exactly those of handshakes under way, of connections, and of
   superseded sessions whose close has not returned; nobody shares one.
   */
  ghost predicate HoldersOk(
    peers: map<PeerId, Peer>, connected: set<PeerId>, cleanup: set<PeerId>,
    live: set<Admission.ReservationId>, handshaking: set<Admission.ReservationId>)
  {
    && connected + cleanup <= peers.Keys
    && connected !! cleanup
    && live == handshaking + HeldBy(peers, connected + cleanup)
    && (forall p: PeerId :: p in peers ==> peers[p].reservation !in handshaking)
    && (forall p: PeerId, q: PeerId :: p in peers && q in peers && peers[p].reservation == peers[q].reservation ==> p == q)
  }

  ghost predicate ReservationsOk(
    c: Config, peers: map<PeerId, Peer>, connected: set<PeerId>, cleanup: set<PeerId>,
    policy: Admission.Policy, handshaking: set<Admission.ReservationId>)
  {
    && Admission.Conserved(policy, c.maxConnections, c.maxConnectionsPerClient)
    && HoldersOk(peers, connected, cleanup, policy.live, handshaking)
    && (forall p: PeerId :: p in peers ==> peers[p].reservation in policy.issued)
  }

  /** Only where a peer is has changed, not who it is. */
  ghost predicate SameIdentities(peers: map<PeerId, Peer>, peers': map<PeerId, Peer>) {
    && peers.Keys == peers'.Keys
    && forall p: PeerId :: p in peers ==>
         && peers'[p].reservation == peers[p].reservation
         && peers'[p].client == peers[p].client
         && peers'[p].subject == peers[p].subject
  }

  lemma RemovalKeepsIdentities(peers: map<PeerId, Peer>, h: House, p: PeerId, now: int, leftByRequest: bool)
    requires p in peers
    ensures SameIdentities(peers, RemovePeerFromRoom(peers, h, p, now, leftByRequest).peers)
  {
  }

  lemma IdentitiesKeepReservations(
    c: Config, peers: map<PeerId, Peer>, peers': map<PeerId, Peer>, connected: set<PeerId>, cleanup: set<PeerId>,
    policy: Admission.Policy, handshaking: set<Admission.ReservationId>)
    requires ReservationsOk(c, peers, connected, cleanup, policy, handshaking) && SameIdentities(peers, peers')
    ensures ReservationsOk(c, peers', connected, cleanup, policy, handshaking)
  {
    assert HeldBy(peers', connected + cleanup) == HeldBy(peers, connected + cleanup);
  }

  lemma HeldWithout(peers: map<PeerId, Peer>, holders: set<PeerId>, p: PeerId)
    requires p in holders && holders <= peers.Keys
    requires forall q: PeerId, r: PeerId :: q in peers && r in peers && peers[q].reservation == peers[r].reservation ==> q == r
    ensures HeldBy(peers, holders - {p}) == HeldBy(peers, holders) - {peers[p].reservation}
  {
  }

  /** A disconnect gives the reservation back at once. */
  lemma DisconnectReleases(
    c: Config, peers: map<PeerId, Peer>, connected: set<PeerId>, cleanup: set<PeerId>,
    policy: Admission.Policy, handshaking: set<Admission.ReservationId>, p: PeerId)
    requires ReservationsOk(c, peers, connected, cleanup, policy, handshaking) && p in connected
    ensures ReservationsOk(c, peers, connected - {p}, cleanup, Admission.Release(policy, peers[p].reservation), handshaking)
  {
    Admission.ReleaseConserves(policy, c.maxConnections, c.maxConnectionsPerClient, peers[p].reservation);
    HeldWithout(peers, connected + cleanup, p);
    assert connected + cleanup - {p} == (connected - {p}) + cleanup;
  }

  /** A superseded session keeps its reservation, now as one that waits for its close. */
  lemma SupersedeKeeps(
    c: Config, peers: map<PeerId, Peer>, connected: set<PeerId>, cleanup: set<PeerId>,
    policy: Admission.Policy, handshaking: set<Admission.ReservationId>, p: PeerId)
    requires ReservationsOk(c, peers, connected, cleanup, policy, handshaking) && p in connected
    ensures ReservationsOk(c, peers, connected - {p}, cleanup + {p}, policy, handshaking)
  {
    assert (connected - {p}) + (cleanup + {p}) == connected + cleanup;
  }

  /** When the close of a superseded session returns, the reservation is given back. */
  lemma CleanupReleases(
    c: Config, peers: map<PeerId, Peer>, connected: set<PeerId>, cleanup: set<PeerId>,
    policy: Admission.Policy, handshaking: set<Admission.ReservationId>, p: PeerId)
    requires ReservationsOk(c, peers, connected, cleanup, policy, handshaking) && p in cleanup
    ensures ReservationsOk(c, peers, connected, cleanup - {p}, Admission.Release(policy, peers[p].reservation), handshaking)
  {
    Admission.ReleaseConserves(policy, c.maxConnections, c.maxConnectionsPerClient, peers[p].reservation);
    HeldWithout(peers, connected + cleanup, p);
    assert connected + cleanup - {p} == connected + (cleanup - {p});
  }

  /** A handshake that ends without a connection gives its reservation back. */
  lemma AbandonReleases(
    c: Config, peers: map<PeerId, Peer>, connected: set<PeerId>, cleanup: set<PeerId>,
    policy: Admission.Policy, handshaking: set<Admission.ReservationId>, id: Admission.ReservationId)
    requires ReservationsOk(c, peers, connected, cleanup, policy, handshaking) && id in handshaking
    ensures ReservationsOk(c, peers, connected, cleanup, Admission.Release(policy, id), handshaking - {id})
  {
    Admission.ReleaseConserves(policy, c.maxConnections, c.maxConnectionsPerClient, id);
    assert id !in HeldBy(peers, connected + cleanup);
  }

  /** A new reservation belongs to a handshake. */
  lemma ReserveHolds(
    c: Config, peers: map<PeerId, Peer>, connected: set<PeerId>, cleanup: set<PeerId>,
    policy: Admission.Policy, handshaking: set<Admission.ReservationId>,
    id: Admission.ReservationId, r: Admission.Reservation)
    requires ReservationsOk(c, peers, connected, cleanup, policy, handshaking)
    requires id !in policy.issued
    requires Admission.Refusal(policy, c.maxConnections, c.maxConnectionsPerClient, r) == None
    ensures ReservationsOk(c, peers, connected, cleanup, Admission.Admit(policy, id, r), handshaking + {id})
  {
    Admission.AdmitConserves(policy, c.maxConnections, c.maxConnectionsPerClient, id, r);
    HandshakeJoins(peers, connected, cleanup, policy.live, handshaking, id);
  }

  lemma HandshakeJoins(
    peers: map<PeerId, Peer>, connected: set<PeerId>, cleanup: set<PeerId>,
    live: set<Admission.ReservationId>, handshaking: set<Admission.ReservationId>, id: Admission.ReservationId)
    requires HoldersOk(peers, connected, cleanup, live, handshaking)
    requires forall p: PeerId :: p in peers ==> peers[p].reservation != id
    ensures HoldersOk(peers, connected, cleanup, live + {id}, handshaking + {id})
  {
  }

  /** The reservation moves from the handshake to the connection. */
  lemma ConnectTransfers(
    c: Config, peers: map<PeerId, Peer>, connected: set<PeerId>, cleanup: set<PeerId>,
    policy: Admission.Policy, handshaking: set<Admission.ReservationId>, p: PeerId, peer: Peer)
    requires ReservationsOk(c, peers, connected, cleanup, policy, handshaking)
    requires p !in peers && peer.reservation in handshaking
    ensures ReservationsOk(c, peers[p := peer], connected + {p}, cleanup, policy, handshaking - {peer.reservation})
  {
    HolderJoins(peers, connected, cleanup, policy.live, handshaking, p, peer);
  }

  lemma HolderJoins(
    peers: map<PeerId, Peer>, connected: set<PeerId>, cleanup: set<PeerId>,
    live: set<Admission.ReservationId>, handshaking: set<Admission.ReservationId>, p: PeerId, peer: Peer)
    requires HoldersOk(peers, connected, cleanup, live, handshaking)
    requires p !in peers && peer.reservation in handshaking
    ensures HoldersOk(peers[p := peer], connected + {p}, cleanup, live, handshaking - {peer.reservation})
  {
    HeldWith(peers, connected + cleanup, p, peer);
    assert connected + {p} + cleanup == connected + cleanup + {p};
    var held := HeldBy(peers, connected + cleanup);
    assert (handshaking - {peer.reservation}) + (held + {peer.reservation}) == handshaking + held;
    var peers' := peers[p := peer];
    forall q: PeerId | q in peers'
      ensures peers'[q].reservation !in handshaking - {peer.reservation}
      ensures q != p ==> peers'[q].reservation != peer.reservation
    {
    }
  }

  lemma HeldWith(peers: map<PeerId, Peer>, holders: set<PeerId>, p: PeerId, peer: Peer)
    requires p !in peers
    ensures HeldBy(peers[p := peer], holders + {p}) == HeldBy(peers, holders) + {peer.reservation}
  {
  }

  // ----- closes -----

  /**
   A session whose close is in progress has exactly one close action outstanding, the others none;
   connected sessions are not being closed, and superseded ones that still hold a reservation are.
   */
  ghost predicate ClosingOk(connected: set<PeerId>, k: Closing) {
    && connected !! k.inProgress
    && k.cleanup <= k.inProgress
    && forall p: PeerId :: k.actions[p] == if p in k.inProgress then 1 else 0
  }

  // ----- the inbound limiter -----

  ghost function OfClient(peers: map<PeerId, Peer>, connected: set<PeerId>, key: Inbound.ClientKey): set<PeerId> {
    set p: PeerId | p in connected && p in peers && peers[p].client == key
  }

  ghost function ActiveCount(l: Inbound.Limiter, key: Inbound.ClientKey): int {
    if key in l.clients then l.clients[key].activeConnections else 0
  }

  /** The limiter counts, for every client address, its connections. */
  ghost predicate InboundOk(peers: map<PeerId, Peer>, connected: set<PeerId>, l: Inbound.Limiter) {
    && Inbound.Consistent(l)
    && forall key: Inbound.ClientKey :: ActiveCount(l, key) == |OfClient(peers, connected, key)|
  }

  lemma ReleaseKeepsInbound(peers: map<PeerId, Peer>, connected: set<PeerId>, l: Inbound.Limiter, p: PeerId)
    requires InboundOk(peers, connected, l) && p in connected && p in peers
    ensures InboundOk(peers, connected - {p}, Inbound.Release(l, peers[p].client))
  {
    assert p in OfClient(peers, connected, peers[p].client);
    forall key: Inbound.ClientKey
      ensures ActiveCount(Inbound.Release(l, peers[p].client), key) == |OfClient(peers, connected - {p}, key)|
    {
      assert ActiveCount(l, key) == |OfClient(peers, connected, key)|;
      if key == peers[p].client {
        assert OfClient(peers, connected - {p}, key) == OfClient(peers, connected, key) - {p};
      } else {
        assert OfClient(peers, connected - {p}, key) == OfClient(peers, connected, key);
      }
    }
  }

  lemma IdentitiesKeepInbound(peers: map<PeerId, Peer>, peers': map<PeerId, Peer>, connected: set<PeerId>, l: Inbound.Limiter)
    requires InboundOk(peers, connected, l) && SameIdentities(peers, peers')
    ensures InboundOk(peers', connected, l)
  {
    forall key: Inbound.ClientKey
      ensures OfClient(peers', connected, key) == OfClient(peers, connected, key)
    {
    }
  }

  /** Forgetting inactive entries does not disturb the counts. */
  lemma ForgetKeepsInbound(
    peers: map<PeerId, Peer>, connected: set<PeerId>, l: Inbound.Limiter, clients: map<Inbound.ClientKey, Inbound.ClientState>)
    requires InboundOk(peers, connected, l)
    requires forall key :: key in clients ==> key in l.clients && clients[key] == l.clients[key]
    requires forall key :: Inbound.Active(l.clients, key) ==> key in clients
    ensures InboundOk(peers, connected, Inbound.WithClients(l, clients))
  {
  }

  lemma RetainKeepsInbound(
    peers: map<PeerId, Peer>, connected: set<PeerId>, l: Inbound.Limiter, p: PeerId, peer: Peer, capacity: int)
    requires InboundOk(peers, connected, l) && p !in peers && p !in connected
    ensures InboundOk(peers[p := peer], connected + {p}, Inbound.Retain(l, peer.client, capacity))
  {
    Inbound.RetainKeepsConsistent(l, peer.client, capacity);
    forall key: Inbound.ClientKey
      ensures ActiveCount(Inbound.Retain(l, peer.client, capacity), key)
              == |OfClient(peers[p := peer], connected + {p}, key)|
    {
      assert ActiveCount(l, key) == |OfClient(peers, connected, key)|;
      RetainCounts(l, peer.client, capacity, key);
      OneMoreOfClient(peers, connected, p, peer, key);
    }
  }

  lemma OneMoreOfClient(peers: map<PeerId, Peer>, connected: set<PeerId>, p: PeerId, peer: Peer, key: Inbound.ClientKey)
    requires p !in peers && p !in connected
    ensures |OfClient(peers[p := peer], connected + {p}, key)|
            == |OfClient(peers, connected, key)| + if key == peer.client then 1 else 0
  {
    if key == peer.client {
      assert OfClient(peers[p := peer], connected + {p}, key) == OfClient(peers, connected, key) + {p};
    } else {
      assert OfClient(peers[p := peer], connected + {p}, key) == OfClient(peers, connected, key);
    }
  }

  /** `retain` adds one connection to one client and forgets only clients without connections. */
  lemma RetainCounts(l: Inbound.Limiter, client: Inbound.ClientKey, capacity: int, key: Inbound.ClientKey)
    requires Inbound.Consistent(l)
    ensures ActiveCount(Inbound.Retain(l, client, capacity), key) == ActiveCount(l, key) + if key == client then 1 else 0
  {
    Inbound.EvictKeepsActive(l.order, l.clients, capacity);
  }

  // ----- the assertion in `retain` -----

  /** There are no more active clients than connections. */
  lemma ActiveAtMostConnected(peers: map<PeerId, Peer>, connected: set<PeerId>, l: Inbound.Limiter)
    requires InboundOk(peers, connected, l) && connected <= peers.Keys
    ensures |Inbound.ActiveKeys(l.clients)| <= |connected|
  {
    var clientOf := (p: PeerId) => if p in peers then peers[p].client else 0;
    var image := set p: PeerId | p in connected :: clientOf(p);
    ImageSize(connected, clientOf, image);
    forall key | key in Inbound.ActiveKeys(l.clients)
      ensures key in image
    {
      assert ActiveCount(l, key) == |OfClient(peers, connected, key)| > 0;
      var p: PeerId :| p in OfClient(peers, connected, key);
      assert clientOf(p) == key;
    }
    SubsetSize(Inbound.ActiveKeys(l.clients), image);
  }

  /** There are fewer connections than the server allows as long as one handshake is under way. */
  lemma RoomForHandshake(
    c: Config, peers: map<PeerId, Peer>, connected: set<PeerId>, cleanup: set<PeerId>,
    policy: Admission.Policy, handshaking: set<Admission.ReservationId>)
    requires ReservationsOk(c, peers, connected, cleanup, policy, handshaking) && handshaking != {}
    ensures |connected| < c.maxConnections
  {
    OneReservationEach(peers, connected);
    var id :| id in handshaking;
    SubsetSize(HeldBy(peers, connected), policy.live - {id});
  }

  lemma {:induction false} OneReservationEach(peers: map<PeerId, Peer>, holders: set<PeerId>)
    requires holders <= peers.Keys
    requires forall q: PeerId, r: PeerId :: q in peers && r in peers && peers[q].reservation == peers[r].reservation ==> q == r
    ensures |HeldBy(peers, holders)| == |holders|
  {
    if holders == {} {
      assert HeldBy(peers, holders) == {};
    } else {
      var p :| p in holders;
      OneReservationEach(peers, holders - {p});
      HeldWithout(peers, holders, p);
      assert peers[p].reservation in HeldBy(peers, holders);
    }
  }

  /** Whenever a handshake becomes a connection, the limiter has room for its client. */
  lemma CapacityFollowsAdmission(
    c: Config, peers: map<PeerId, Peer>, connected: set<PeerId>, cleanup: set<PeerId>,
    policy: Admission.Policy, handshaking: set<Admission.ReservationId>, l: Inbound.Limiter, key: Inbound.ClientKey)
    requires ReservationsOk(c, peers, connected, cleanup, policy, handshaking) && handshaking != {}
    requires InboundOk(peers, connected, l)
    ensures Inbound.HasRoom(l, key, c.maxConnections)
  {
    ActiveAtMostConnected(peers, connected, l);
    RoomForHandshake(c, peers, connected, cleanup, policy, handshaking);
    Inbound.RoomForActive(l, key, c.maxConnections);
  }
}
