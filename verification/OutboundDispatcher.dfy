/**
 Queue and byte accounting of the frames waiting to be sent (SignalingOutboundDispatcher.java).

 Every function here is one section under the server's monitor. What several threads make of these
 sections is in module SignalingState.
 */
module OutboundDispatcher {
  import opened Common
  import opened Frames

  const MAX_QUEUE_SIZE := 256

  datatype OutboundFrame = OutboundFrame(message: Frame, payloadBytes: int)

  datatype QueueState = QueueState(
    frames: seq<OutboundFrame>, outboundBytes: int, inFlightBytes: int, draining: bool)

  datatype Dispatcher = Dispatcher(queues: map<PeerId, QueueState>, globalBytes: int)

  const NEW_QUEUE := QueueState([], 0, 0, false)

  function QueueOf(d: Dispatcher, p: PeerId): QueueState {
    if p in d.queues then d.queues[p] else NEW_QUEUE
  }

  predicate PeerLimitExceeded(d: Dispatcher, maxPeerBytes: int, p: PeerId, bytes: int) {
    if p !in d.queues then bytes > maxPeerBytes
    else
      var q := d.queues[p];
      var pendingFrames := |q.frames| + if q.inFlightBytes == 0 then 0 else 1;
      pendingFrames >= MAX_QUEUE_SIZE || bytes > maxPeerBytes - q.outboundBytes
  }

  predicate GlobalLimitExceeded(d: Dispatcher, maxGlobalBytes: int, bytes: int) {
    bytes > maxGlobalBytes - d.globalBytes
  }

  function Enqueue(d: Dispatcher, p: PeerId, message: Frame, bytes: int): Dispatcher {
    var q := QueueOf(d, p);
    Dispatcher(
      d.queues[p := QueueState(q.frames + [OutboundFrame(message, bytes)], q.outboundBytes + bytes,
                               q.inFlightBytes, true)],
      d.globalBytes + bytes)
  }

  function Clear(d: Dispatcher, p: PeerId): Dispatcher {
    if p !in d.queues then d
    else
      var q := d.queues[p];
      Dispatcher(
        if q.inFlightBytes == 0 then d.queues - {p}
        else d.queues[p := q.(frames := [], outboundBytes := q.inFlightBytes)],
        d.globalBytes - (q.outboundBytes - q.inFlightBytes))
  }

  /** The first section of the drain loop: the next frame to send, or none and the drain ends. */
  function Take(d: Dispatcher, p: PeerId, connected: bool): (Dispatcher, Option<OutboundFrame>) {
    if p !in d.queues then (d, None)
    else if !connected then (Clear(d, p), None)
    else
      var q := d.queues[p];
      if q.frames == [] then
        (d.(queues := if q.outboundBytes == 0 then d.queues - {p} else d.queues[p := q.(draining := false)]), None)
      else
        (d.(queues := d.queues[p := q.(frames := q.frames[1..], inFlightBytes := q.frames[0].payloadBytes)]),
         Some(q.frames[0]))
  }

  /** The second section of the drain loop, after the send has returned or thrown. */
  function Release(d: Dispatcher, p: PeerId, frame: OutboundFrame, connected: bool): Dispatcher {
    if p !in d.queues || d.queues[p].inFlightBytes == 0 then d
    else
      var q := d.queues[p].(inFlightBytes := 0, outboundBytes := d.queues[p].outboundBytes - frame.payloadBytes);
      Dispatcher(
        if q.outboundBytes == 0 && (!q.draining || !connected) then d.queues - {p} else d.queues[p := q],
        d.globalBytes - frame.payloadBytes)
  }

  // ----- the invariant of the byte counters -----

  ghost function Bytes(frames: seq<OutboundFrame>): int {
    if frames == [] then 0 else frames[0].payloadBytes + Bytes(frames[1..])
  }

  ghost predicate QueueOk(q: QueueState) {
    && q.outboundBytes == q.inFlightBytes + Bytes(q.frames)
    && q.inFlightBytes >= 0
    && forall i :: 0 <= i < |q.frames| ==> q.frames[i].payloadBytes > 0
  }

  datatype Count = Outbound | InFlight

  ghost function Weight(c: Count, q: QueueState): int {
    if c == Outbound then q.outboundBytes else q.inFlightBytes
  }

  ghost function Total(c: Count, queues: map<PeerId, QueueState>): int {
    if queues == map[] then 0
    else
      var p :| p in queues;
      Weight(c, queues[p]) + Total(c, queues - {p})
  }

  /** Every counter is the sum of what it counts. */
  ghost predicate Accounted(d: Dispatcher) {
    && (forall p :: p in d.queues ==> QueueOk(d.queues[p]))
    && d.globalBytes == Total(Outbound, d.queues)
  }

  ghost predicate WithinLimits(d: Dispatcher, maxPeerBytes: int, maxGlobalBytes: int) {
    && (forall p :: p in d.queues ==>
          && d.queues[p].outboundBytes <= maxPeerBytes
          && |d.queues[p].frames| + (if d.queues[p].inFlightBytes == 0 then 0 else 1) <= MAX_QUEUE_SIZE)
    && d.globalBytes <= maxGlobalBytes
  }

  lemma {:induction false} BytesSum(a: seq<OutboundFrame>, b: seq<OutboundFrame>)
    ensures Bytes(a + b) == Bytes(a) + Bytes(b)
  {
    if a == [] {
      assert a + b == b;
    } else {
      assert (a + b)[1..] == a[1..] + b;
      BytesSum(a[1..], b);
    }
  }

  lemma {:induction false} BytesPositive(frames: seq<OutboundFrame>)
    requires forall i :: 0 <= i < |frames| ==> frames[i].payloadBytes > 0
    ensures Bytes(frames) >= |frames|
  {
    if frames != [] {
      BytesPositive(frames[1..]);
    }
  }

  /** Taking any one queue out of the map takes its bytes out of the total. */
  lemma {:induction false} TotalWithout(c: Count, queues: map<PeerId, QueueState>, p: PeerId)
    requires p in queues
    ensures Total(c, queues) == Weight(c, queues[p]) + Total(c, queues - {p})
    decreases |queues|
  {
    var x :| x in queues && Total(c, queues) == Weight(c, queues[x]) + Total(c, queues - {x});
    if x != p {
      TotalWithout(c, queues - {x}, p);
      TotalWithout(c, queues - {p}, x);
      assert queues - {x} - {p} == queues - {p} - {x};
    }
  }

  lemma TotalUpdate(c: Count, queues: map<PeerId, QueueState>, p: PeerId, q: QueueState)
    ensures Total(c, queues[p := q])
            == Total(c, queues) + Weight(c, q) - (if p in queues then Weight(c, queues[p]) else 0)
  {
    var updated := queues[p := q];
    TotalWithout(c, updated, p);
    if p in queues {
      TotalWithout(c, queues, p);
      assert updated - {p} == queues - {p};
    } else {
      assert updated - {p} == queues;
    }
  }

  // ----- what each section keeps -----

  lemma EnqueueKeeps(d: Dispatcher, maxPeer: int, maxGlobal: int, p: PeerId, message: Frame, bytes: int)
    requires Accounted(d) && WithinLimits(d, maxPeer, maxGlobal) && bytes > 0
    requires !PeerLimitExceeded(d, maxPeer, p, bytes) && !GlobalLimitExceeded(d, maxGlobal, bytes)
    ensures Accounted(Enqueue(d, p, message, bytes))
    ensures WithinLimits(Enqueue(d, p, message, bytes), maxPeer, maxGlobal)
  {
    var q := QueueOf(d, p);
    BytesSum(q.frames, [OutboundFrame(message, bytes)]);
    TotalUpdate(Outbound, d.queues, p, Enqueue(d, p, message, bytes).queues[p]);
  }

  /** Clearing a queue keeps exactly the bytes that are being sent. */
  lemma ClearKeeps(d: Dispatcher, maxPeer: int, maxGlobal: int, p: PeerId)
    requires Accounted(d) && WithinLimits(d, maxPeer, maxGlobal)
    ensures Accounted(Clear(d, p))
    ensures WithinLimits(Clear(d, p), maxPeer, maxGlobal)
    ensures QueueOf(Clear(d, p), p).outboundBytes == QueueOf(d, p).inFlightBytes
    ensures Clear(d, p).globalBytes == d.globalBytes - Bytes(QueueOf(d, p).frames)
    ensures Total(InFlight, Clear(d, p).queues) == Total(InFlight, d.queues)
  {
    if p in d.queues {
      var q := d.queues[p];
      BytesPositive(q.frames);
      TotalWithout(Outbound, d.queues, p);
      TotalWithout(InFlight, d.queues, p);
      var kept := q.(frames := [], outboundBytes := q.inFlightBytes);
      TotalUpdate(Outbound, d.queues, p, kept);
      TotalUpdate(InFlight, d.queues, p, kept);
    }
  }

  lemma TakeEndKeeps(d: Dispatcher, maxPeer: int, maxGlobal: int, p: PeerId)
    requires Accounted(d) && WithinLimits(d, maxPeer, maxGlobal)
    requires p in d.queues && d.queues[p].inFlightBytes == 0 && d.queues[p].frames == []
    ensures Take(d, p, true).0 == d.(queues := d.queues - {p})
    ensures Accounted(Take(d, p, true).0)
    ensures WithinLimits(Take(d, p, true).0, maxPeer, maxGlobal)
  {
    TotalWithout(Outbound, d.queues, p);
    assert d.queues[p].outboundBytes == 0;
    assert Take(d, p, true).0 == d.(queues := d.queues - {p});
  }

  lemma TakeFrameKeeps(d: Dispatcher, maxPeer: int, maxGlobal: int, p: PeerId)
    requires Accounted(d) && WithinLimits(d, maxPeer, maxGlobal)
    requires p in d.queues && d.queues[p].inFlightBytes == 0 && d.queues[p].frames != []
    ensures Accounted(Take(d, p, true).0)
    ensures WithinLimits(Take(d, p, true).0, maxPeer, maxGlobal)
  {
    var q := d.queues[p];
    var taken := q.(frames := q.frames[1..], inFlightBytes := q.frames[0].payloadBytes);
    assert QueueOk(taken);
    TotalUpdate(Outbound, d.queues, p, taken);
  }

  lemma ReleaseKeeps(
    d: Dispatcher, maxPeer: int, maxGlobal: int, p: PeerId, frame: OutboundFrame, connected: bool)
    requires Accounted(d) && WithinLimits(d, maxPeer, maxGlobal)
    requires QueueOf(d, p).inFlightBytes == frame.payloadBytes > 0
    ensures Accounted(Release(d, p, frame, connected))
    ensures WithinLimits(Release(d, p, frame, connected), maxPeer, maxGlobal)
  {
    var q := d.queues[p].(inFlightBytes := 0, outboundBytes := d.queues[p].outboundBytes - frame.payloadBytes);
    TotalWithout(Outbound, d.queues, p);
    TotalUpdate(Outbound, d.queues, p, q);
  }

  // ----- relieving the global limit -----

  function Releasable(d: Dispatcher, p: PeerId): int {
    QueueOf(d, p).outboundBytes - QueueOf(d, p).inFlightBytes
  }

  /** The order in which queues are given up: most releasable bytes, then most bytes, then oldest. */
  predicate Before(d: Dispatcher, p: PeerId, q: PeerId) {
    var (a, b) := (QueueOf(d, p), QueueOf(d, q));
    var (ra, rb) := (Releasable(d, p), Releasable(d, q));
    ra > rb || (ra == rb && (a.outboundBytes > b.outboundBytes || (a.outboundBytes == b.outboundBytes && p <= q)))
  }

  function Candidates(d: Dispatcher, peers: set<PeerId>): set<PeerId> {
    set p | p in peers && Releasable(d, p) > 0
  }

  lemma {:induction false} FirstExists(d: Dispatcher, s: set<PeerId>)
    requires s != {}
    ensures exists p :: p in s && forall q :: q in s ==> Before(d, p, q)
  {
    var x :| x in s;
    if s != {x} {
      FirstExists(d, s - {x});
      var y :| y in s - {x} && forall q :: q in s - {x} ==> Before(d, y, q);
      var first := if Before(d, x, y) then x else y;
      assert forall q :: q in s ==> q == x || q in s - {x};
      assert forall q :: q in s ==> Before(d, first, q);
    }
  }

  function First(d: Dispatcher, s: set<PeerId>): (p: PeerId)
    requires s != {}
    ensures p in s && forall q :: q in s ==> Before(d, p, q)
  {
    FirstExists(d, s);
    var p :| p in s && forall q :: q in s ==> Before(d, p, q);
    p
  }

  /** The candidates sorted by Before. */
  function Ranked(d: Dispatcher, s: set<PeerId>): (r: seq<PeerId>)
    ensures Elems(r) == s && NoDup(r)
  {
    if s == {} then []
    else
      var p := First(d, s);
      var rest := Ranked(d, s - {p});
      assert Elems([p] + rest) == {p} + Elems(rest);
      [p] + rest
  }

  /** The shortest prefix whose releasable bytes reach the need, or everything. */
  function TakeUntil(d: Dispatcher, ranked: seq<PeerId>, need: int): seq<PeerId> {
    if ranked == [] then []
    else if Releasable(d, ranked[0]) >= need then [ranked[0]]
    else [ranked[0]] + TakeUntil(d, ranked[1..], need - Releasable(d, ranked[0]))
  }

  function BytesToRelease(d: Dispatcher, maxGlobal: int, bytes: int): int {
    bytes - (maxGlobal - d.globalBytes)
  }

  function Victims(d: Dispatcher, peers: set<PeerId>, maxGlobal: int, bytes: int): seq<PeerId> {
    TakeUntil(d, Ranked(d, Candidates(d, peers)), BytesToRelease(d, maxGlobal, bytes))
  }

  /** What closing all these connections would free. */
  ghost function Freed(d: Dispatcher, s: set<PeerId>): int {
    if s == {} then 0
    else
      var p :| p in s;
      Releasable(d, p) + Freed(d, s - {p})
  }

  ghost function FreedSeq(d: Dispatcher, s: seq<PeerId>): int {
    if s == [] then 0 else Releasable(d, s[0]) + FreedSeq(d, s[1..])
  }

  lemma {:induction false} FreedWithout(d: Dispatcher, s: set<PeerId>, p: PeerId)
    requires p in s
    ensures Freed(d, s) == Releasable(d, p) + Freed(d, s - {p})
    decreases |s|
  {
    var x :| x in s && Freed(d, s) == Releasable(d, x) + Freed(d, s - {x});
    if x != p {
      FreedWithout(d, s - {x}, p);
      FreedWithout(d, s - {p}, x);
      assert s - {x} - {p} == s - {p} - {x};
    }
  }

  lemma {:induction false} FreedElems(d: Dispatcher, s: seq<PeerId>)
    requires NoDup(s)
    ensures Freed(d, Elems(s)) == FreedSeq(d, s)
  {
    if s != [] {
      FreedElems(d, s[1..]);
      FreedWithout(d, Elems(s), s[0]);
      assert s[0] !in s[1..];
      assert Elems(s) - {s[0]} == Elems(s[1..]);
    }
  }

  /** What the first k ranked candidates free. */
  ghost function TopFreed(d: Dispatcher, s: set<PeerId>, k: nat): int {
    if s == {} || k == 0 then 0
    else
      var p := First(d, s);
      Releasable(d, p) + TopFreed(d, s - {p}, k - 1)
  }

  lemma OneLess(s: set<PeerId>, p: PeerId)
    requires p in s
    ensures |s - {p}| + 1 == |s|
  {
  }

  lemma {:induction false} NothingFreed(d: Dispatcher, s: set<PeerId>)
    requires forall p :: p in s ==> Releasable(d, p) <= 0
    ensures Freed(d, s) <= 0
    decreases |s|
  {
    if s != {} {
      var p :| p in s;
      FreedWithout(d, s, p);
      NothingFreed(d, s - {p});
    }
  }

  /** No choice of k peers frees more than the first k ranked candidates. */
  lemma {:induction false} RankedIsBest(d: Dispatcher, s: set<PeerId>, other: set<PeerId>)
    requires forall p :: p in s ==> Releasable(d, p) > 0
    requires forall p :: p in other && p !in s ==> Releasable(d, p) <= 0
    ensures Freed(d, other) <= TopFreed(d, s, |other|)
    decreases |other|
  {
    if s == {} {
      NothingFreed(d, other);
    } else if other != {} {
      var first := First(d, s);
      var p: PeerId :| p in other && (first in other ==> p == first);
      RankedIsBest(d, s - {first}, other - {p});
      ReplaceByFirst(d, s, other, p, |other - {p}|);
      OneLess(other, p);
    }
  }

  lemma ReplaceByFirst(d: Dispatcher, s: set<PeerId>, other: set<PeerId>, p: PeerId, k: nat)
    requires s != {} && p in other
    requires p in s || Releasable(d, p) <= 0 < Releasable(d, First(d, s))
    requires Freed(d, other - {p}) <= TopFreed(d, s - {First(d, s)}, k)
    ensures Freed(d, other) <= TopFreed(d, s, k + 1)
  {
    FreedWithout(d, other, p);
    FirstFreesMost(d, s, p, k);
  }

  lemma FirstFreesMost(d: Dispatcher, s: set<PeerId>, p: PeerId, k: nat)
    requires s != {}
    ensures p in s ==> Releasable(d, p) <= Releasable(d, First(d, s))
    ensures TopFreed(d, s, k + 1) == Releasable(d, First(d, s)) + TopFreed(d, s - {First(d, s)}, k)
  {
    assert p in s && p != First(d, s) ==> Before(d, First(d, s), p);
  }

  lemma TakeUntilFirst(d: Dispatcher, first: PeerId, rest: seq<PeerId>, need: int)
    ensures TakeUntil(d, [first] + rest, need)
            == if Releasable(d, first) >= need then [first] else [first] + TakeUntil(d, rest, need - Releasable(d, first))
    ensures FreedSeq(d, [first] + rest) == Releasable(d, first) + FreedSeq(d, rest)
  {
    assert ([first] + rest)[1..] == rest;
  }

  /** Fewer candidates than TakeUntil takes do not reach the need; what it takes does, or is everybody. */
  lemma {:induction false} TakeUntilIsShortest(d: Dispatcher, s: set<PeerId>, need: int, k: nat)
    requires forall p :: p in s ==> Releasable(d, p) > 0
    requires need > 0
    ensures var taken := TakeUntil(d, Ranked(d, s), need);
            && (k < |taken| ==> TopFreed(d, s, k) < need)
            && (FreedSeq(d, taken) >= need || taken == Ranked(d, s))
            && taken <= Ranked(d, s)
    decreases |s|
  {
    if s != {} {
      var first := First(d, s);
      var left := need - Releasable(d, first);
      var rest := Ranked(d, s - {first});
      assert Ranked(d, s) == [first] + rest;
      TakeUntilFirst(d, first, rest, need);
      if left > 0 {
        TakeUntilIsShortest(d, s - {first}, left, if k == 0 then 0 else k - 1);
        FreesOneMore(d, first, rest, TakeUntil(d, rest, left));
      } else {
        FreesOneMore(d, first, rest, []);
      }
    }
  }

  lemma FreesOneMore(d: Dispatcher, first: PeerId, rest: seq<PeerId>, taken: seq<PeerId>)
    requires taken <= rest
    ensures FreedSeq(d, [first] + taken) == Releasable(d, first) + FreedSeq(d, taken)
    ensures [first] + taken <= [first] + rest
  {
    assert ([first] + taken)[1..] == taken;
  }

  /**
   Relieving the global limit closes no more connections than it must: closing any smaller set of
   the same peers would not have freed enough.
   */
  lemma VictimsAreFewest(d: Dispatcher, peers: set<PeerId>, maxGlobal: int, bytes: int, other: set<PeerId>)
    requires GlobalLimitExceeded(d, maxGlobal, bytes)
    requires forall p :: p in d.queues ==> QueueOk(d.queues[p])
    requires other <= peers && |other| < |Victims(d, peers, maxGlobal, bytes)|
    ensures Freed(d, other) < BytesToRelease(d, maxGlobal, bytes)
  {
    var s := Candidates(d, peers);
    RankedIsBest(d, s, other);
    TakeUntilIsShortest(d, s, BytesToRelease(d, maxGlobal, bytes), |other|);
  }

  /** The victims are distinct candidates, and they free enough unless nothing more can be freed. */
  lemma VictimsSuffice(d: Dispatcher, peers: set<PeerId>, maxGlobal: int, bytes: int)
    requires GlobalLimitExceeded(d, maxGlobal, bytes)
    ensures var victims := Victims(d, peers, maxGlobal, bytes);
            && NoDup(victims) && Elems(victims) <= Candidates(d, peers)
            && (Freed(d, Elems(victims)) >= BytesToRelease(d, maxGlobal, bytes)
                || Elems(victims) == Candidates(d, peers))
  {
    var s := Candidates(d, peers);
    var victims := Victims(d, peers, maxGlobal, bytes);
    TakeUntilIsShortest(d, s, BytesToRelease(d, maxGlobal, bytes), 0);
    assert forall i :: 0 <= i < |victims| ==> victims[i] == Ranked(d, s)[i];
    FreedElems(d, victims);
  }

  /** Closing several connections. */
  function ClearAll(d: Dispatcher, peers: seq<PeerId>): Dispatcher
    decreases |peers|
  {
    if peers == [] then d else ClearAll(Clear(d, peers[0]), peers[1..])
  }

  lemma ClearOthers(d: Dispatcher, p: PeerId, q: PeerId)
    requires q != p
    ensures QueueOf(Clear(d, p), q) == QueueOf(d, q)
  {
  }

  lemma {:induction false} FreedSeqElsewhere(d: Dispatcher, p: PeerId, peers: seq<PeerId>)
    requires p !in peers
    ensures FreedSeq(Clear(d, p), peers) == FreedSeq(d, peers)
  {
    if peers != [] {
      ClearOthers(d, p, peers[0]);
      FreedSeqElsewhere(d, p, peers[1..]);
    }
  }

  lemma ReleasableIs(d: Dispatcher, p: PeerId)
    requires Accounted(d)
    ensures Releasable(d, p) == Bytes(QueueOf(d, p).frames)
  {
  }

  lemma NothingLeft(d: Dispatcher, p: PeerId, q: PeerId)
    requires Accounted(d)
    ensures Releasable(Clear(d, p), q) == if q == p then 0 else Releasable(d, q)
  {
    if q != p {
      ClearOthers(d, p, q);
    } else {
      ReleasableIs(d, p);
    }
  }

  lemma OneFrees(d: Dispatcher, maxPeer: int, maxGlobal: int, p: PeerId, rest: seq<PeerId>, q: PeerId)
    requires Accounted(d) && WithinLimits(d, maxPeer, maxGlobal) && p !in rest
    ensures var one := Clear(d, p);
            && Accounted(one) && WithinLimits(one, maxPeer, maxGlobal)
            && one.globalBytes == d.globalBytes - Releasable(d, p) && Total(InFlight, one.queues) == Total(InFlight, d.queues)
            && Releasable(one, q) == (if q == p then 0 else Releasable(d, q)) && FreedSeq(one, rest) == FreedSeq(d, rest)
  {
    ClearKeeps(d, maxPeer, maxGlobal, p);
    ReleasableIs(d, p);
    NothingLeft(d, p, q);
    FreedSeqElsewhere(d, p, rest);
  }

  /** Closing several connections frees exactly what their queues hold apart from the frames being sent. */
  lemma {:induction false} ClearAllFrees(d: Dispatcher, maxPeer: int, maxGlobal: int, peers: seq<PeerId>, q: PeerId)
    requires Accounted(d) && WithinLimits(d, maxPeer, maxGlobal) && NoDup(peers)
    ensures var r := ClearAll(d, peers);
            && Accounted(r) && WithinLimits(r, maxPeer, maxGlobal)
            && r.globalBytes == d.globalBytes - FreedSeq(d, peers)
            && Total(InFlight, r.queues) == Total(InFlight, d.queues)
            && Releasable(r, q) == (if q in peers then 0 else Releasable(d, q))
    decreases |peers|
  {
    if peers != [] {
      var p, rest := peers[0], peers[1..];
      assert p !in rest && (q in peers <==> q == p || q in rest);
      OneFrees(d, maxPeer, maxGlobal, p, rest, q);
      ClearAllFrees(Clear(d, p), maxPeer, maxGlobal, rest, q);
    }
  }

  /** When only frames being sent are left, the two totals are the same; otherwise the first is larger. */
  lemma {:induction false} TotalsCompared(queues: map<PeerId, QueueState>)
    requires forall p :: p in queues ==> QueueOk(queues[p])
    ensures Total(InFlight, queues) <= Total(Outbound, queues)
    ensures (forall p :: p in queues ==> queues[p].outboundBytes == queues[p].inFlightBytes)
            ==> Total(InFlight, queues) == Total(Outbound, queues)
    decreases |queues|
  {
    if queues != map[] {
      var p :| p in queues;
      TotalWithout(Outbound, queues, p);
      TotalWithout(InFlight, queues, p);
      BytesPositive(queues[p].frames);
      TotalsCompared(queues - {p});
    }
  }

  /**
   Relieving the global limit is complete: after closing the victims, a frame still does not fit
   only if it does not fit beside the frames that are being sent.
   */
  lemma ReliefIsComplete(d: Dispatcher, maxPeer: int, maxGlobal: int, peers: set<PeerId>, bytes: int)
    requires Accounted(d) && WithinLimits(d, maxPeer, maxGlobal) && GlobalLimitExceeded(d, maxGlobal, bytes)
    requires forall p :: p in d.queues && p !in peers ==> d.queues[p].frames == []
    ensures GlobalLimitExceeded(ClearAll(d, Victims(d, peers, maxGlobal, bytes)), maxGlobal, bytes)
            <==> bytes > maxGlobal - Total(InFlight, d.queues)
  {
    var victims := Victims(d, peers, maxGlobal, bytes);
    var r := ClearAll(d, victims);
    VictimsSuffice(d, peers, maxGlobal, bytes);
    FreedElems(d, victims);
    ClearAllFrees(d, maxPeer, maxGlobal, victims, 0);
    TotalsCompared(r.queues);
    if Elems(victims) == Candidates(d, peers) {
      forall p | p in r.queues
        ensures r.queues[p].outboundBytes == r.queues[p].inFlightBytes
      {
        ClearAllFrees(d, maxPeer, maxGlobal, victims, p);
        assert p in victims <==> p in Elems(victims);
        BytesPositive(QueueOf(d, p).frames);
      }
    }
  }

  // ----- the dispatcher object -----

  lemma TakeUntilStep(d: Dispatcher, rest: seq<PeerId>, need: int, taken: seq<PeerId>, all: seq<PeerId>)
    requires rest != [] && taken + TakeUntil(d, rest, need) == all
    ensures if Releasable(d, rest[0]) >= need then taken + [rest[0]] == all
            else (taken + [rest[0]]) + TakeUntil(d, rest[1..], need - Releasable(d, rest[0])) == all
  {
  }

  lemma EnqueuedKept(d: Dispatcher, maxPeer: int, maxGlobal: int, p: PeerId, message: Frame, bytes: int)
    ensures Accounted(d) && WithinLimits(d, maxPeer, maxGlobal) && bytes > 0 && !PeerLimitExceeded(d, maxPeer, p, bytes)
            && !GlobalLimitExceeded(d, maxGlobal, bytes)
            ==> Accounted(Enqueue(d, p, message, bytes)) && WithinLimits(Enqueue(d, p, message, bytes), maxPeer, maxGlobal)
  {
    if Accounted(d) && WithinLimits(d, maxPeer, maxGlobal) && bytes > 0 && !PeerLimitExceeded(d, maxPeer, p, bytes)
       && !GlobalLimitExceeded(d, maxGlobal, bytes) {
      EnqueueKeeps(d, maxPeer, maxGlobal, p, message, bytes);
    }
  }

  lemma ClearedKept(d: Dispatcher, maxPeer: int, maxGlobal: int, p: PeerId)
    ensures Accounted(d) && WithinLimits(d, maxPeer, maxGlobal)
            ==> Accounted(Clear(d, p)) && WithinLimits(Clear(d, p), maxPeer, maxGlobal)
  {
    if Accounted(d) && WithinLimits(d, maxPeer, maxGlobal) {
      ClearKeeps(d, maxPeer, maxGlobal, p);
    }
  }

  lemma ReleasedKept(d: Dispatcher, maxPeer: int, maxGlobal: int, p: PeerId, frame: OutboundFrame, connected: bool)
    ensures Accounted(d) && WithinLimits(d, maxPeer, maxGlobal) && QueueOf(d, p).inFlightBytes == frame.payloadBytes > 0
            ==> Accounted(Release(d, p, frame, connected)) && WithinLimits(Release(d, p, frame, connected), maxPeer, maxGlobal)
  {
    if Accounted(d) && WithinLimits(d, maxPeer, maxGlobal) && QueueOf(d, p).inFlightBytes == frame.payloadBytes > 0 {
      ReleaseKeeps(d, maxPeer, maxGlobal, p, frame, connected);
    }
  }

  class SignalingOutboundDispatcher {
    const maxPeerBytes: int
    const maxGlobalBytes: int
    var queues: map<PeerId, QueueState>
    var globalBytes: int

    ghost function Model(): Dispatcher
      reads this
    {
      Dispatcher(queues, globalBytes)
    }

    /** The counters are exact and within the limits. */
    ghost predicate Valid()
      reads this
    {
      Accounted(Model()) && WithinLimits(Model(), maxPeerBytes, maxGlobalBytes)
    }

    /** Neither limit is exceeded. */
    ghost predicate Fits(peer: PeerId, messageBytes: int)
      reads this
    {
      && !PeerLimitExceeded(Model(), maxPeerBytes, peer, messageBytes)
      && !GlobalLimitExceeded(Model(), maxGlobalBytes, messageBytes)
    }

    constructor (maxPeerBytes: int, maxGlobalBytes: int)
      ensures Model() == Dispatcher(map[], 0)
      ensures this.maxPeerBytes == maxPeerBytes && this.maxGlobalBytes == maxGlobalBytes
    {
      this.maxPeerBytes, this.maxGlobalBytes := maxPeerBytes, maxGlobalBytes;
      queues, globalBytes := map[], 0;
    }

    method PeerLimitExceededLocked(peer: PeerId, messageBytes: int) returns (exceeded: bool)
      ensures exceeded == PeerLimitExceeded(Model(), maxPeerBytes, peer, messageBytes)
    {
      if peer !in queues {
        return messageBytes > maxPeerBytes;
      }
      var queue := queues[peer];
      var pendingFrameCount := |queue.frames| + if queue.inFlightBytes == 0 then 0 else 1;
      return pendingFrameCount >= MAX_QUEUE_SIZE || messageBytes > maxPeerBytes - queue.outboundBytes;
    }

    method GlobalLimitExceededLocked(messageBytes: int) returns (exceeded: bool)
      ensures exceeded == GlobalLimitExceeded(Model(), maxGlobalBytes, messageBytes)
    {
      return messageBytes > maxGlobalBytes - globalBytes;
    }

    /** The connections to close, in the order of closing. */
    method GlobalPressureVictimsLocked(peers: set<PeerId>, messageBytes: int) returns (victims: seq<PeerId>)
      ensures victims == Victims(Model(), peers, maxGlobalBytes, messageBytes)
    {
      var d := Dispatcher(queues, globalBytes);
      var bytesToRelease := messageBytes - (maxGlobalBytes - globalBytes);
      var candidates := Ranked(d, Candidates(d, peers));
      ghost var all := TakeUntil(d, candidates, bytesToRelease);
      victims := [];
      var releasedBytes := 0;
      var rest := candidates;
      while rest != []
        invariant victims + TakeUntil(d, rest, bytesToRelease - releasedBytes) == all
        decreases |rest|
      {
        TakeUntilStep(d, rest, bytesToRelease - releasedBytes, victims, all);
        victims := victims + [rest[0]];
        releasedBytes := releasedBytes + Releasable(d, rest[0]);
        if releasedBytes >= bytesToRelease {
          return;
        }
        rest := rest[1..];
      }
    }

    /** The result says whether a drain has to be started. */
    method EnqueueLocked(peer: PeerId, message: Frame, messageBytes: int) returns (startDrain: bool)
      modifies this
      ensures startDrain == !QueueOf(old(Model()), peer).draining
      ensures Model() == Enqueue(old(Model()), peer, message, messageBytes)
      ensures old(Valid()) && old(Fits(peer, messageBytes)) && messageBytes > 0 ==> Valid()
    {
      EnqueuedKept(Model(), maxPeerBytes, maxGlobalBytes, peer, message, messageBytes);
      var queue := if peer in queues then queues[peer] else NEW_QUEUE;
      startDrain := !queue.draining;
      queue := queue.(frames := queue.frames + [OutboundFrame(message, messageBytes)],
                      outboundBytes := queue.outboundBytes + messageBytes,
                      draining := true);
      queues := queues[peer := queue];
      globalBytes := globalBytes + messageBytes;
    }

    method ClearLocked(peer: PeerId)
      modifies this
      ensures Model() == Clear(old(Model()), peer)
      ensures old(Valid()) ==> Valid()
    {
      ClearedKept(Model(), maxPeerBytes, maxGlobalBytes, peer);
      if peer !in queues {
        return;
      }
      var queue := queues[peer];
      var queuedBytes := queue.outboundBytes - queue.inFlightBytes;
      queues := queues[peer := queue.(frames := [], outboundBytes := queue.inFlightBytes)];
      globalBytes := globalBytes - queuedBytes;
      if queue.inFlightBytes == 0 {
        queues := queues - {peer};
        assert queues == old(queues) - {peer};
      }
    }

    /** The first locked section of the drain loop: the frame to send, if the drain goes on. */
    method TakeFrameLocked(peer: PeerId, connected: bool) returns (frame: Option<OutboundFrame>)
      modifies this
      ensures (Model(), frame) == Take(old(Model()), peer, connected)
    {
      if peer !in queues {
        return None;
      }
      if !connected {
        ClearLocked(peer);
        return None;
      }
      var queue := queues[peer];
      if queue.frames == [] {
        queues := queues[peer := queue.(draining := false)];
        if queue.outboundBytes == 0 {
          queues := queues - {peer};
          assert queues == old(queues) - {peer};
        }
        return None;
      }
      var first := queue.frames[0];
      queues := queues[peer := queue.(frames := queue.frames[1..], inFlightBytes := first.payloadBytes)];
      return Some(first);
    }

    method ReleaseInFlightLocked(peer: PeerId, frame: OutboundFrame, connected: bool)
      modifies this
      ensures Model() == Release(old(Model()), peer, frame, connected)
      ensures old(Valid()) && QueueOf(old(Model()), peer).inFlightBytes == frame.payloadBytes > 0 ==> Valid()
    {
      ReleasedKept(Model(), maxPeerBytes, maxGlobalBytes, peer, frame, connected);
      if peer !in queues || queues[peer].inFlightBytes == 0 {
        return;
      }
      var queue := queues[peer].(inFlightBytes := 0, outboundBytes := queues[peer].outboundBytes - frame.payloadBytes);
      queues := queues[peer := queue];
      globalBytes := globalBytes - frame.payloadBytes;
      if queue.outboundBytes == 0 && (!queue.draining || !connected) {
        queues := queues - {peer};
        assert queues == old(queues) - {peer};
      }
    }
  }
}
