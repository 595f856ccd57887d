/**
 The work list of the server: queueing one frame can close connections, whose rooms must be told,
 which queues more frames. Whatever it closes, everything the server keeps stays consistent.
 */
module SignalingCascade {
  import opened Common
  import opened Frames
  import opened SignalingState
  import opened SignalingRooms
  import opened SignalingWire
  import opened SignalingHolds
  import Out = OutboundDispatcher
  import Inbound = InboundLimiter
  import Admission = ConnectionAdmission

  /** Connections and reservations are numbered in order, so the next number has never been used. */
  ghost predicate NamesOk(s: State) {
    && (forall p: PeerId :: p in s.peers || p in s.closing.inProgress ==> p < s.nextSequence)
    && (forall p: PeerId :: p in s.wire.queued || p in s.wire.handed || p in s.wire.queues.queues ==> p < s.nextSequence)
    && (forall t: nat :: t in s.wire.drains ==> s.wire.drains[t].peer < s.nextSequence)
    && (forall id: nat :: id in s.policy.issued ==> id < s.nextReservation)
  }

  /** Everything that holds between two frames of the work list. */
  ghost predicate Inv(c: Config, s: State, pending: seq<Pending>) {
    && HouseOk(c, s.connected, s.peers, s.house)
    && ViewsOk(s.connected, s.peers, s.house, s.wire.queued, pending)
    && WireOk(c, s.connected, s.wire)
    && ReservationsOk(c, s.peers, s.connected, s.closing.cleanup, s.policy, s.handshaking)
    && ClosingOk(s.connected, s.closing)
    && InboundOk(s.peers, s.connected, s.inbound)
    && NamesOk(s)
  }

  /** What the work list never touches: who is connected only shrinks, and who stays is not changed. */
  ghost predicate Keeps(s: State, s': State) {
    && s'.connected <= s.connected
    && s'.peers.Keys == s.peers.Keys
    && (forall p: PeerId :: p in s'.connected && p in s.peers ==> s'.peers[p] == s.peers[p])
    && (forall p: PeerId :: p in s.peers ==>
          && s'.peers[p].reservation == s.peers[p].reservation
          && s'.peers[p].client == s.peers[p].client
          && s'.peers[p].subject == s.peers[p].subject)
    && s'.running == s.running && s'.nextSequence == s.nextSequence
    && s'.handshaking == s.handshaking && s'.nextReservation == s.nextReservation
    && (forall t: nat :: t in s.wire.drains ==> t in s'.wire.drains && s'.wire.drains[t] == s.wire.drains[t])
  }

  lemma KeepsTransitive(a: State, b: State, c: State)
    requires Keeps(a, b) && Keeps(b, c)
    ensures Keeps(a, c)
  {
  }

  // ----- closing one connection -----

  lemma DisconnectKeeps(e: Env, s: State, p: PeerId, releaseReservation: bool)
    requires p in s.connected && p in s.peers
    ensures Keeps(s, Disconnect(e, s, p, releaseReservation).state)
    ensures Keeps(s, DisconnectAndClose(e, s, p, !releaseReservation).state)
  {
    RemovalKeepsOthers(s.peers, s.house, p, e.now, false);
  }

  lemma RemovalKeepsOthers(peers: map<PeerId, Peer>, h: House, p: PeerId, now: int, leftByRequest: bool)
    requires p in peers
    ensures var d := RemovePeerFromRoom(peers, h, p, now, leftByRequest);
            && SameIdentities(peers, d.peers)
            && forall q: PeerId :: q in peers && q != p ==> d.peers[q] == peers[q]
  {
  }

  lemma DisconnectKeepsRooms(c: Config, e: Env, s: State, pending: seq<Pending>, p: PeerId, releaseReservation: bool)
    requires HouseOk(c, s.connected, s.peers, s.house) && p in s.connected
    requires ViewsOk(s.connected, s.peers, s.house, s.wire.queued, pending)
    ensures var d := Disconnect(e, s, p, releaseReservation);
            && HouseOk(c, d.state.connected, d.state.peers, d.state.house)
            && ViewsOk(d.state.connected, d.state.peers, d.state.house, d.state.wire.queued, pending + d.more)
  {
    RemoveKeepsHouse(c, s.connected, s.connected - {p}, s.peers, s.house, p, e.now, false);
    RemoveKeepsViews(c, s.connected, s.connected - {p}, s.peers, s.house, s.wire.queued, pending, p, e.now, false);
  }

  lemma DisconnectKeepsHolds(c: Config, e: Env, s: State, p: PeerId, releaseReservation: bool)
    requires ReservationsOk(c, s.peers, s.connected, s.closing.cleanup, s.policy, s.handshaking)
    requires InboundOk(s.peers, s.connected, s.inbound)
    requires p in s.connected && p in s.peers
    ensures var d := Disconnect(e, s, p, releaseReservation).state;
            && ReservationsOk(c, d.peers, d.connected, d.closing.cleanup, d.policy, d.handshaking)
            && InboundOk(d.peers, d.connected, d.inbound)
  {
    var peers' := RemovePeerFromRoom(s.peers, s.house, p, e.now, false).peers;
    RemovalKeepsIdentities(s.peers, s.house, p, e.now, false);
    ReleaseKeepsInbound(s.peers, s.connected, s.inbound, p);
    IdentitiesKeepInbound(s.peers, peers', s.connected - {p}, Inbound.Release(s.inbound, s.peers[p].client));
    if releaseReservation {
      var released := Admission.Release(s.policy, s.peers[p].reservation);
      DisconnectReleases(c, s.peers, s.connected, s.closing.cleanup, s.policy, s.handshaking, p);
      IdentitiesKeepReservations(c, s.peers, peers', s.connected - {p}, s.closing.cleanup, released, s.handshaking);
    } else {
      SupersedeKeeps(c, s.peers, s.connected, s.closing.cleanup, s.policy, s.handshaking, p);
      IdentitiesKeepReservations(c, s.peers, peers', s.connected - {p}, s.closing.cleanup + {p}, s.policy, s.handshaking);
    }
  }

  /** A disconnected session may be closed, once at a time. */
  lemma ScheduleKeeps(connected: set<PeerId>, k: Closing, p: PeerId)
    requires ClosingOk(connected, k) && p !in connected
    ensures ClosingOk(connected, ScheduleClose(k, p))
  {
  }

  lemma SupersededIsClosed(connected: set<PeerId>, k: Closing, p: PeerId, superseded: bool)
    requires ClosingOk(connected, k) && p in connected
    ensures ClosingOk(connected - {p}, ScheduleClose(if superseded then k.(cleanup := k.cleanup + {p}) else k, p))
  {
  }

  /** Disconnecting alone: the transport has closed the session by itself. */
  lemma DisconnectKeepsInv(c: Config, e: Env, s: State, pending: seq<Pending>, p: PeerId)
    requires Inv(c, s, pending) && p in s.connected
    ensures var d := Disconnect(e, s, p, true);
            Inv(c, d.state, pending + d.more) && Keeps(s, d.state)
  {
    assert p in s.peers;
    DisconnectKeepsRooms(c, e, s, pending, p, true);
    DisconnectKeepsHolds(c, e, s, p, true);
    ClearKeepsWire(c, s.connected, s.wire, p);
    DisconnectKeeps(e, s, p, true);
    DisconnectKeepsNames(c, e, s, p, true);
  }

  lemma DisconnectKeepsNames(c: Config, e: Env, s: State, p: PeerId, releaseReservation: bool)
    requires NamesOk(s) && p in s.connected && p in s.peers
    ensures NamesOk(Disconnect(e, s, p, releaseReservation).state)
    ensures NamesOk(DisconnectAndClose(e, s, p, !releaseReservation).state)
  {
    RemovalKeepsOthers(s.peers, s.house, p, e.now, false);
    if releaseReservation {
      assert Admission.Release(s.policy, s.peers[p].reservation).issued == s.policy.issued;
    }
  }

  /** Closing one connection keeps everything, given the frames it adds to the work list. */
  lemma CloseKeepsInv(c: Config, e: Env, s: State, pending: seq<Pending>, p: PeerId, superseded: bool)
    requires Inv(c, s, pending) && p in s.connected
    ensures var d := DisconnectAndClose(e, s, p, superseded);
            Inv(c, d.state, pending + d.more) && Keeps(s, d.state)
  {
    assert p in s.peers;
    DisconnectKeepsRooms(c, e, s, pending, p, !superseded);
    DisconnectKeepsHolds(c, e, s, p, !superseded);
    ClearKeepsWire(c, s.connected, s.wire, p);
    DisconnectKeeps(e, s, p, !superseded);
    DisconnectKeepsNames(c, e, s, p, !superseded);
    SupersededIsClosed(s.connected, s.closing, p, superseded);
  }

  // ----- relieving the global limit -----

  /** Closing connections leaves the queues of the others alone. */
  ghost predicate QueuesKept(s: State, s': State) {
    forall q: PeerId :: q in s'.connected ==>
      && (q in s'.wire.queues.queues <==> q in s.wire.queues.queues)
      && (q in s.wire.queues.queues ==> s'.wire.queues.queues[q] == s.wire.queues.queues[q])
  }

  lemma DisconnectKeepsQueues(e: Env, s: State, p: PeerId, superseded: bool)
    requires p in s.connected && p in s.peers
    ensures QueuesKept(s, DisconnectAndClose(e, s, p, superseded).state)
    ensures DisconnectAndClose(e, s, p, superseded).state.wire.queues == Out.Clear(s.wire.queues, p)
  {
  }

  /**
   Closing distinct connections one after the other, stopping early if the target is among them:
   whatever closing one of them keeps, closing all of them keeps.
   */
  lemma {:induction false} CloseVictimsInduction(
    e: Env, s: State, pending: seq<Pending>, victims: seq<PeerId>, target: PeerId, P: (State, seq<Pending>) -> bool)
    requires P(s, pending) && NoDup(victims) && target in s.connected
    requires forall i :: 0 <= i < |victims| ==> victims[i] in s.connected
    requires forall x, y :: P(x, y) ==> x.connected <= x.peers.Keys
    requires forall x, y, p: PeerId :: P(x, y) && p in x.connected ==> KeptByClosing(e, x, y, p, P)
    ensures var r := CloseVictims(e, s, victims, target);
            && P(r.state, pending + r.more)
            && (target in r.state.connected <==> target !in victims)
    decreases |victims|
  {
    if victims == [] {
      assert pending + [] == pending;
    } else {
      var one := DisconnectAndClose(e, s, victims[0], false);
      assert KeptByClosing(e, s, pending, victims[0], P);
      if target in one.state.connected {
        CloseVictimsInduction(e, one.state, pending + one.more, victims[1..], target, P);
        Associated(pending, one.more, CloseVictims(e, one.state, victims[1..], target).more);
      }
    }
  }

  lemma Associated(a: seq<Pending>, b: seq<Pending>, c: seq<Pending>)
    ensures a + b + c == a + (b + c)
  {
  }

  ghost predicate KeptByClosing(e: Env, s: State, pending: seq<Pending>, p: PeerId, P: (State, seq<Pending>) -> bool) {
    var d := DisconnectAndClose(e, s, p, false);
    P(d.state, pending + d.more)
  }

  lemma CloseVictimsKeepsInv(c: Config, e: Env, s: State, pending: seq<Pending>, victims: seq<PeerId>, target: PeerId)
    requires Inv(c, s, pending) && NoDup(victims) && target in s.connected
    requires forall i :: 0 <= i < |victims| ==> victims[i] in s.connected
    ensures var r := CloseVictims(e, s, victims, target);
            && Inv(c, r.state, pending + r.more)
            && (target in r.state.connected <==> target !in victims)
  {
    var P := (x: State, y: seq<Pending>) => Inv(c, x, y);
    forall x, y, p: PeerId | P(x, y) && p in x.connected
      ensures KeptByClosing(e, x, y, p, P)
    {
      CloseKeepsInv(c, e, x, y, p, false);
    }
    CloseVictimsInduction(e, s, pending, victims, target, P);
  }

  /** Who stays connected while others are closed keeps its queue and everything else. */
  ghost predicate Unmoved(s: State, s': State) {
    s'.connected <= s'.peers.Keys && Keeps(s, s') && QueuesKept(s, s')
  }

  lemma CloseKeepsUnmoved(e: Env, s: State, s': State, p: PeerId)
    requires Unmoved(s, s') && p in s'.connected
    ensures Unmoved(s, DisconnectAndClose(e, s', p, false).state)
  {
    DisconnectKeeps(e, s', p, true);
    DisconnectKeepsQueues(e, s', p, false);
    KeepsTransitive(s, s', DisconnectAndClose(e, s', p, false).state);
  }

  lemma CloseVictimsUnmoved(e: Env, s: State, victims: seq<PeerId>, target: PeerId)
    requires s.connected <= s.peers.Keys && NoDup(victims) && target in s.connected
    requires forall i :: 0 <= i < |victims| ==> victims[i] in s.connected
    ensures Unmoved(s, CloseVictims(e, s, victims, target).state)
  {
    var P := (x: State, y: seq<Pending>) => Unmoved(s, x);
    forall x, y, p: PeerId | P(x, y) && p in x.connected
      ensures KeptByClosing(e, x, y, p, P)
    {
      CloseKeepsUnmoved(e, s, x, p);
    }
    CloseVictimsInduction(e, s, [], victims, target, P);
  }
}
