/**
 The send queues under concurrency: drains run outside the monitor and interleave with everything
 the server does. Whatever the order, each session has one drain at most, frames leave in the order
 in which they were queued, and the byte counters are exact.
 */
module SignalingWire {
  import opened Frames
  import opened SignalingState
  import Out = OutboundDispatcher

  // ----- the sections of a drain -----

  /** The head of the loop: take a frame and start sending it, or end. */
  function TakeFrame(w: Wire, t: nat, connected: set<PeerId>): Wire
    requires t in w.drains && w.drains[t].Ready?
  {
    var p := w.drains[t].peer;
    var taken := Out.Take(w.queues, p, p in connected);
    match taken.1
    case None => w.(queues := taken.0, drains := w.drains - {t})
    case Some(frame) =>
      w.(queues := taken.0, drains := w.drains[t := Sending(p, frame)],
         handed := w.handed[p := Logged(w.handed, p) + [frame.message]])
  }

  /** The send returned: back to the head of the loop. */
  function SendReturned(w: Wire, t: nat, connected: set<PeerId>): Wire
    requires t in w.drains && w.drains[t].Sending?
  {
    var p := w.drains[t].peer;
    w.(queues := Out.Release(w.queues, p, w.drains[t].frame, p in connected), drains := w.drains[t := Ready(p)])
  }

  /** The send threw and the failure handler is done: the drain ends. */
  function EndFailed(w: Wire, t: nat, connected: set<PeerId>): Wire
    requires t in w.drains && w.drains[t].Failed?
  {
    var p := w.drains[t].peer;
    w.(queues := Out.Release(w.queues, p, w.drains[t].frame, p in connected), drains := w.drains - {t})
  }

  // ----- the invariant -----

  function Messages(frames: seq<Out.OutboundFrame>): (r: seq<Frame>)
    ensures |r| == |frames| && forall i :: 0 <= i < |r| ==> r[i] == frames[i].message
  {
    if frames == [] then [] else [frames[0].message] + Messages(frames[1..])
  }

  ghost predicate DrainedBy(w: Wire, t: nat, p: PeerId) {
    t in w.drains && w.drains[t].peer == p
  }

  /** At most one drain runs for a session. */
  ghost predicate SingleDrain(w: Wire) {
    && (forall t: nat :: t in w.drains ==> t < w.nextDrain)
    && (forall t: nat, u: nat, p: PeerId :: DrainedBy(w, t, p) && DrainedBy(w, u, p) ==> t == u)
  }

  /** A drain and the queue it serves are at the same point. */
  ghost predicate InStep(w: Wire, connected: set<PeerId>, d: Drain) {
    match d
    case Ready(p) => if p in connected then p in w.queues.queues && w.queues.queues[p].inFlightBytes == 0
                     else p !in w.queues.queues
    case Sending(p, f) => p in w.queues.queues && w.queues.queues[p].inFlightBytes == f.payloadBytes > 0
    case Failed(p, f) => p in w.queues.queues && w.queues.queues[p].inFlightBytes == f.payloadBytes > 0 && p !in connected
  }

  /** A queue exists only while a drain will come back to it; a closed session's holds no frame to send. */
  ghost predicate QueueServed(w: Wire, connected: set<PeerId>, p: PeerId)
    requires p in w.queues.queues
  {
    && w.queues.queues[p].draining
    && (exists t: nat :: DrainedBy(w, t, p))
    && (p !in connected ==> w.queues.queues[p].frames == [])
  }

  /** What was handed to a session is a prefix of what was queued for it, and the rest is on its queue. */
  ghost predicate InOrder(w: Wire, connected: set<PeerId>, p: PeerId) {
    && Logged(w.handed, p) <= Logged(w.queued, p)
    && (p in connected ==> Logged(w.queued, p) == Logged(w.handed, p) + Messages(Out.QueueOf(w.queues, p).frames))
  }

  ghost predicate DrainsOk(w: Wire, connected: set<PeerId>) {
    && SingleDrain(w)
    && (forall t: nat :: t in w.drains ==> InStep(w, connected, w.drains[t]))
    && (forall p: PeerId :: p in w.queues.queues ==> QueueServed(w, connected, p))
  }

  ghost predicate OrderOk(w: Wire, connected: set<PeerId>) {
    forall p: PeerId :: InOrder(w, connected, p)
  }

  ghost predicate WireOk(c: Config, connected: set<PeerId>, w: Wire) {
    && Out.Accounted(w.queues)
    && Out.WithinLimits(w.queues, c.maxPeerBytes, c.maxGlobalBytes)
    && DrainsOk(w, connected)
    && OrderOk(w, connected)
  }

  lemma {:induction false} MessagesSum(a: seq<Out.OutboundFrame>, b: seq<Out.OutboundFrame>)
    ensures Messages(a + b) == Messages(a) + Messages(b)
  {
    if a == [] {
      assert a + b == b;
    } else {
      assert (a + b)[1..] == a[1..] + b;
      MessagesSum(a[1..], b);
    }
  }

  // ----- what every section keeps -----

  lemma PutKeepsOrder(connected: set<PeerId>, w: Wire, p: PeerId, f: Frame, bytes: int)
    requires OrderOk(w, connected) && p in connected
    ensures OrderOk(PutOnQueue(w, p, f, bytes), connected)
  {
    var w' := PutOnQueue(w, p, f, bytes);
    PutKeepsOwnOrder(connected, w, p, f, bytes);
    forall q: PeerId | q != p
      ensures InOrder(w', connected, q)
    {
      assert InOrder(w, connected, q);
    }
  }

  lemma PutKeepsOwnOrder(connected: set<PeerId>, w: Wire, p: PeerId, f: Frame, bytes: int)
    requires InOrder(w, connected, p) && p in connected
    ensures InOrder(PutOnQueue(w, p, f, bytes), connected, p)
  {
    MessagesSum(Out.QueueOf(w.queues, p).frames, [Out.OutboundFrame(f, bytes)]);
  }

  lemma PutKeepsDrains(connected: set<PeerId>, w: Wire, p: PeerId, f: Frame, bytes: int)
    requires DrainsOk(w, connected) && p in connected
    ensures DrainsOk(PutOnQueue(w, p, f, bytes), connected)
  {
    var w' := PutOnQueue(w, p, f, bytes);
    if p in w.queues.queues {
      assert QueueServed(w, connected, p);
      assert w'.drains == w.drains;
    } else {
      assert DrainedBy(w', w.nextDrain, p);
    }
    forall t: nat, q: PeerId
      ensures DrainedBy(w', t, q) <==> DrainedBy(w, t, q) || (p !in w.queues.queues && t == w.nextDrain && q == p)
    {
    }
    forall q: PeerId | q in w'.queues.queues
      ensures QueueServed(w', connected, q)
    {
      if q in w.queues.queues {
        assert QueueServed(w, connected, q);
        var t: nat :| DrainedBy(w, t, q);
        assert DrainedBy(w', t, q);
      }
    }
  }

  lemma PutKeepsWire(c: Config, connected: set<PeerId>, w: Wire, p: PeerId, f: Frame, bytes: int)
    requires WireOk(c, connected, w) && p in connected && bytes > 0
    requires !Out.PeerLimitExceeded(w.queues, c.maxPeerBytes, p, bytes)
    requires !Out.GlobalLimitExceeded(w.queues, c.maxGlobalBytes, bytes)
    ensures WireOk(c, connected, PutOnQueue(w, p, f, bytes))
  {
    Out.EnqueueKeeps(w.queues, c.maxPeerBytes, c.maxGlobalBytes, p, f, bytes);
    PutKeepsDrains(connected, w, p, f, bytes);
    PutKeepsOrder(connected, w, p, f, bytes);
  }

  /** Disconnecting a session leaves only the frame that is being sent. */
  lemma ClearKeepsWire(c: Config, connected: set<PeerId>, w: Wire, p: PeerId)
    requires WireOk(c, connected, w)
    ensures WireOk(c, connected - {p}, w.(queues := Out.Clear(w.queues, p)))
  {
    var w' := w.(queues := Out.Clear(w.queues, p));
    Out.ClearKeeps(w.queues, c.maxPeerBytes, c.maxGlobalBytes, p);
    ClearKeepsDrains(connected, w, p);
    OrderOfFrames(connected, connected - {p}, w, w');
  }

  /** The order of frames is a matter of the frames on the connected sessions' queues. */
  lemma OrderOfFrames(connected: set<PeerId>, after: set<PeerId>, w: Wire, w': Wire)
    requires OrderOk(w, connected) && after <= connected
    requires w'.queued == w.queued && w'.handed == w.handed
    requires forall q: PeerId :: q in after ==> Out.QueueOf(w'.queues, q).frames == Out.QueueOf(w.queues, q).frames
    ensures OrderOk(w', after)
  {
    forall q: PeerId
      ensures InOrder(w', after, q)
    {
      assert InOrder(w, connected, q);
    }
  }

  lemma ClearKeepsDrains(connected: set<PeerId>, w: Wire, p: PeerId)
    requires DrainsOk(w, connected)
    ensures DrainsOk(w.(queues := Out.Clear(w.queues, p)), connected - {p})
  {
    var w' := w.(queues := Out.Clear(w.queues, p));
    forall t: nat, q: PeerId
      ensures DrainedBy(w', t, q) <==> DrainedBy(w, t, q)
    {
    }
    forall t: nat | t in w'.drains
      ensures InStep(w', connected - {p}, w'.drains[t])
    {
      assert InStep(w, connected, w.drains[t]);
    }
    forall q: PeerId | q in w'.queues.queues
      ensures QueueServed(w', connected - {p}, q)
    {
      assert QueueServed(w, connected, q);
      var t: nat :| DrainedBy(w, t, q);
      assert DrainedBy(w', t, q);
    }
  }

  // ----- a drain's own sections -----

  lemma TakeKeepsWire(c: Config, connected: set<PeerId>, w: Wire, t: nat)
    requires WireOk(c, connected, w) && t in w.drains && w.drains[t].Ready?
    ensures WireOk(c, connected, TakeFrame(w, t, connected))
  {
    var p := w.drains[t].peer;
    assert InStep(w, connected, w.drains[t]);
    if p in connected {
      if w.queues.queues[p].frames == [] {
        TakeEndKeepsWire(c, connected, w, t);
      } else {
        TakeFrameKeepsWire(c, connected, w, t);
      }
    } else {
      RemoveDrainKeeps(connected, w, t);
      assert TakeFrame(w, t, connected) == w.(drains := w.drains - {t});
      OrderOfFrames(connected, connected, w, w.(drains := w.drains - {t}));
    }
  }

  /** A drain may end once its session has no queue. */
  lemma RemoveDrainKeeps(connected: set<PeerId>, w: Wire, t: nat)
    requires DrainsOk(w, connected) && t in w.drains && w.drains[t].peer !in w.queues.queues
    ensures DrainsOk(w.(drains := w.drains - {t}), connected)
  {
    var w' := w.(drains := w.drains - {t});
    forall u: nat, q: PeerId
      ensures DrainedBy(w', u, q) <==> DrainedBy(w, u, q) && u != t
    {
    }
    forall q: PeerId | q in w'.queues.queues
      ensures QueueServed(w', connected, q)
    {
      assert QueueServed(w, connected, q);
      var u: nat :| DrainedBy(w, u, q);
      assert DrainedBy(w', u, q);
    }
  }

  function WithoutQueue(w: Wire, t: nat): Wire
    requires t in w.drains
  {
    w.(queues := w.queues.(queues := w.queues.queues - {w.drains[t].peer}), drains := w.drains - {t})
  }

  lemma TakeEndKeepsWire(c: Config, connected: set<PeerId>, w: Wire, t: nat)
    requires WireOk(c, connected, w) && t in w.drains && w.drains[t].Ready?
    requires w.drains[t].peer in connected && w.drains[t].peer in w.queues.queues
    requires w.queues.queues[w.drains[t].peer].inFlightBytes == 0 && w.queues.queues[w.drains[t].peer].frames == []
    ensures WireOk(c, connected, TakeFrame(w, t, connected))
  {
    EndDrain(connected, w, t);
    EmptyQueueKeepsOrder(connected, w, w.drains[t].peer, w.drains - {t});
    TakeEnds(c, connected, w, t);
  }

  lemma TakeEnds(c: Config, connected: set<PeerId>, w: Wire, t: nat)
    requires t in w.drains && w.drains[t].Ready?
    requires Out.Accounted(w.queues) && Out.WithinLimits(w.queues, c.maxPeerBytes, c.maxGlobalBytes)
    requires w.drains[t].peer in connected && w.drains[t].peer in w.queues.queues
    requires w.queues.queues[w.drains[t].peer].inFlightBytes == 0 && w.queues.queues[w.drains[t].peer].frames == []
    ensures TakeFrame(w, t, connected) == WithoutQueue(w, t)
    ensures Out.Accounted(WithoutQueue(w, t).queues)
    ensures Out.WithinLimits(WithoutQueue(w, t).queues, c.maxPeerBytes, c.maxGlobalBytes)
  {
    Out.TakeEndKeeps(w.queues, c.maxPeerBytes, c.maxGlobalBytes, w.drains[t].peer);
  }

  lemma EmptyQueueKeepsOrder(connected: set<PeerId>, w: Wire, p: PeerId, drains: map<nat, Drain>)
    requires OrderOk(w, connected) && Out.QueueOf(w.queues, p).frames == []
    ensures OrderOk(w.(queues := w.queues.(queues := w.queues.queues - {p}), drains := drains), connected)
  {
    OrderOfFrames(connected, connected, w, w.(queues := w.queues.(queues := w.queues.queues - {p}), drains := drains));
  }

  /** A drain ends together with its queue. */
  lemma EndDrain(connected: set<PeerId>, w: Wire, t: nat)
    requires DrainsOk(w, connected) && t in w.drains
    ensures DrainsOk(WithoutQueue(w, t), connected)
  {
    OwnQueueOnly(connected, w, WithoutQueue(w, t), t);
  }

  /** A section of drain t that touches nothing but its own queue and itself. */
  lemma OwnQueueOnly(connected: set<PeerId>, w: Wire, w': Wire, t: nat)
    requires DrainsOk(w, connected) && t in w.drains && w'.nextDrain == w.nextDrain
    requires forall u: nat :: u != t ==> (u in w'.drains <==> u in w.drains) && (u in w.drains ==> w'.drains[u] == w.drains[u])
    requires forall q: PeerId :: q != w.drains[t].peer ==>
               && (q in w'.queues.queues <==> q in w.queues.queues)
               && (q in w.queues.queues ==> w'.queues.queues[q] == w.queues.queues[q])
    requires t in w'.drains ==> w'.drains[t].peer == w.drains[t].peer && InStep(w', connected, w'.drains[t])
    requires w.drains[t].peer in w'.queues.queues
             ==> t in w'.drains && w'.queues.queues[w.drains[t].peer].draining
                 && (w.drains[t].peer !in connected ==> w'.queues.queues[w.drains[t].peer].frames == [])
    ensures DrainsOk(w', connected)
  {
    var p := w.drains[t].peer;
    assert DrainedBy(w, t, p);
    forall u: nat, q: PeerId
      ensures DrainedBy(w', u, q) ==> DrainedBy(w, u, q)
    {
    }
    forall u: nat | u in w'.drains
      ensures InStep(w', connected, w'.drains[u])
    {
      if u != t {
        assert InStep(w, connected, w.drains[u]);
        assert DrainedBy(w, u, w.drains[u].peer);
      }
    }
    forall q: PeerId | q in w'.queues.queues
      ensures QueueServed(w', connected, q)
    {
      if q == p {
        assert DrainedBy(w', t, p);
      } else {
        assert QueueServed(w, connected, q);
        var u: nat :| DrainedBy(w, u, q);
        assert DrainedBy(w', u, q);
      }
    }
  }

  lemma TakeFrameKeepsWire(c: Config, connected: set<PeerId>, w: Wire, t: nat)
    requires WireOk(c, connected, w) && t in w.drains && w.drains[t].Ready?
    requires w.drains[t].peer in connected && w.drains[t].peer in w.queues.queues
    requires w.queues.queues[w.drains[t].peer].inFlightBytes == 0 && w.queues.queues[w.drains[t].peer].frames != []
    ensures WireOk(c, connected, TakeFrame(w, t, connected))
  {
    var p := w.drains[t].peer;
    var w' := TakeFrame(w, t, connected);
    var q0 := w.queues.queues[p];
    Out.TakeFrameKeeps(w.queues, c.maxPeerBytes, c.maxGlobalBytes, p);
    assert w'.queues == Out.Take(w.queues, p, true).0;
    assert w'.queues.queues == w.queues.queues[p := q0.(frames := q0.frames[1..], inFlightBytes := q0.frames[0].payloadBytes)];
    assert Out.QueueOk(q0) && QueueServed(w, connected, p);
    OwnQueueOnly(connected, w, w', t);
    TakeKeepsOrder(connected, w, w', p, q0.frames[0]);
  }

  lemma TakeKeepsOrder(connected: set<PeerId>, w: Wire, w': Wire, p: PeerId, frame: Out.OutboundFrame)
    requires OrderOk(w, connected) && p in connected && p in w.queues.queues && p in w'.queues.queues
    requires w.queues.queues[p].frames == [frame] + w'.queues.queues[p].frames
    requires w'.queued == w.queued && w'.handed == w.handed[p := Logged(w.handed, p) + [frame.message]]
    requires forall q: PeerId :: q != p ==> Out.QueueOf(w'.queues, q).frames == Out.QueueOf(w.queues, q).frames
    ensures OrderOk(w', connected)
  {
    HandingOver(connected, w, p, frame, w'.queues.queues[p].frames);
    forall q: PeerId
      ensures InOrder(w', connected, q)
    {
      assert InOrder(w, connected, q);
    }
  }

  lemma HandingOver(
    connected: set<PeerId>, w: Wire, p: PeerId, frame: Out.OutboundFrame, rest: seq<Out.OutboundFrame>)
    requires InOrder(w, connected, p) && p in connected && Out.QueueOf(w.queues, p).frames == [frame] + rest
    ensures Logged(w.handed, p) + [frame.message] <= Logged(w.queued, p)
    ensures Logged(w.queued, p) == (Logged(w.handed, p) + [frame.message]) + Messages(rest)
  {
    MessagesSum([frame], rest);
    assert Messages([frame]) == [frame.message];
    Regroup(Logged(w.handed, p), [frame.message], Messages(rest));
  }

  lemma Regroup(a: seq<Frame>, b: seq<Frame>, c: seq<Frame>)
    ensures a + (b + c) == (a + b) + c
    ensures a + b <= a + (b + c)
  {
  }

  lemma SentKeepsWire(c: Config, connected: set<PeerId>, w: Wire, t: nat)
    requires WireOk(c, connected, w) && t in w.drains && w.drains[t].Sending?
    ensures WireOk(c, connected, SendReturned(w, t, connected))
  {
    var p := w.drains[t].peer;
    var f := w.drains[t].frame;
    var w' := SendReturned(w, t, connected);
    assert InStep(w, connected, w.drains[t]) && QueueServed(w, connected, p);
    Out.ReleaseKeeps(w.queues, c.maxPeerBytes, c.maxGlobalBytes, p, f, p in connected);
    Released(w, p, f, connected);
    OwnQueueOnly(connected, w, w', t);
    OrderOfFrames(connected, connected, w, w');
  }

  lemma FailedKeepsWire(c: Config, connected: set<PeerId>, w: Wire, t: nat)
    requires WireOk(c, connected, w) && t in w.drains && w.drains[t].Failed?
    ensures WireOk(c, connected, EndFailed(w, t, connected))
  {
    var p := w.drains[t].peer;
    var f := w.drains[t].frame;
    var w' := EndFailed(w, t, connected);
    assert InStep(w, connected, w.drains[t]) && QueueServed(w, connected, p);
    Out.ReleaseKeeps(w.queues, c.maxPeerBytes, c.maxGlobalBytes, p, f, p in connected);
    Released(w, p, f, connected);
    OwnQueueOnly(connected, w, w', t);
    OrderOfFrames(connected, connected, w, w');
  }

  lemma Released(w: Wire, p: PeerId, f: Out.OutboundFrame, connected: set<PeerId>)
    requires p in w.queues.queues && Out.QueueOk(w.queues.queues[p])
    requires w.queues.queues[p].inFlightBytes == f.payloadBytes > 0 && w.queues.queues[p].draining
    requires p !in connected ==> w.queues.queues[p].frames == []
    ensures var d := Out.Release(w.queues, p, f, p in connected);
            var q := w.queues.queues[p];
            if p in connected
            then d.queues == w.queues.queues[p := q.(inFlightBytes := 0, outboundBytes := q.outboundBytes - f.payloadBytes)]
            else d.queues == w.queues.queues - {p}
  {
  }

  /** Once its session is closed, a drain that is sending counts as failed when the send throws. */
  lemma MarkFailedKeepsWire(c: Config, connected: set<PeerId>, w: Wire, t: nat)
    requires WireOk(c, connected, w) && t in w.drains && w.drains[t].Sending? && w.drains[t].peer !in connected
    ensures WireOk(c, connected, w.(drains := w.drains[t := Failed(w.drains[t].peer, w.drains[t].frame)]))
  {
    var p := w.drains[t].peer;
    var w' := w.(drains := w.drains[t := Failed(p, w.drains[t].frame)]);
    assert InStep(w, connected, w.drains[t]) && QueueServed(w, connected, p);
    OwnQueueOnly(connected, w, w', t);
    OrderOfFrames(connected, connected, w, w');
  }
}
