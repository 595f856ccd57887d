/**
 Queueing frames: what one frame of the work list does, and what the whole list does. Frames that
 are still on the list count as read when the members' views are compared with their rooms, so the
 views are exact whenever the list is empty.
 */
module SignalingDelivery {
  import opened Common
  import opened Frames
  import opened SignalingState
  import opened SignalingRooms
  import opened SignalingWire
  import opened SignalingCascade
  import Out = OutboundDispatcher

  // ----- one frame -----

  lemma RestOf(pending: seq<Pending>, more: seq<Pending>)
    requires pending != []
    ensures (pending + more)[1..] == pending[1..] + more
    ensures (pending + more)[0] == pending[0]
  {
  }

  lemma RestOfTwo(pending: seq<Pending>, a: seq<Pending>, b: seq<Pending>)
    requires pending != []
    ensures (pending + a)[1..] + b == pending[1..] + (a + b)
    ensures (pending + a)[0] == pending[0]
  {
  }

  /** A frame for a closed connection is dropped. */
  lemma DropKeepsInv(c: Config, s: State, pending: seq<Pending>)
    requires Inv(c, s, pending) && pending != [] && pending[0].to !in s.connected
    ensures Inv(c, s, pending[1..])
  {
    DropKeepsViews(s.connected, s.peers, s.house, s.wire.queued, pending);
  }

  lemma PutKeepsNames(s: State, p: PeerId, f: Frame, bytes: int)
    requires NamesOk(s) && p in s.peers
    ensures NamesOk(s.(wire := PutOnQueue(s.wire, p, f, bytes)))
  {
  }

  /** A frame that fits is put on its queue. */
  lemma PutKeepsInv(c: Config, s: State, pending: seq<Pending>, bytes: int)
    requires Inv(c, s, pending) && pending != [] && pending[0].to in s.connected && bytes > 0
    requires !Out.PeerLimitExceeded(s.wire.queues, c.maxPeerBytes, pending[0].to, bytes)
    requires !Out.GlobalLimitExceeded(s.wire.queues, c.maxGlobalBytes, bytes)
    ensures Inv(c, s.(wire := PutOnQueue(s.wire, pending[0].to, pending[0].frame, bytes)), pending[1..])
  {
    var (p, f) := (pending[0].to, pending[0].frame);
    PutKeepsWire(c, s.connected, s.wire, p, f, bytes);
    PutKeepsViews(s.connected, s.peers, s.house, s.wire.queued, pending);
    PutKeepsNames(s, p, f, bytes);
  }

  lemma PutKeeps(s: State, p: PeerId, f: Frame, bytes: int)
    requires NamesOk(s) && SingleDrain(s.wire)
    ensures Keeps(s, s.(wire := PutOnQueue(s.wire, p, f, bytes)))
  {
  }

  /** The target is closed and its frame dropped. */
  lemma GiveUpKeepsInv(c: Config, e: Env, s: State, pending: seq<Pending>)
    requires Inv(c, s, pending) && pending != [] && pending[0].to in s.connected
    ensures var d := DisconnectAndClose(e, s, pending[0].to, false);
            Inv(c, d.state, pending[1..] + d.more) && Keeps(s, d.state)
  {
    var p := pending[0].to;
    CloseKeepsInv(c, e, s, pending, p, false);
    var d := DisconnectAndClose(e, s, p, false);
    RestOf(pending, d.more);
    DropKeepsInv(c, d.state, pending + d.more);
  }

  function Relieved(c: Config, e: Env, s: State, p: PeerId, bytes: int): Step {
    if Out.GlobalLimitExceeded(s.wire.queues, c.maxGlobalBytes, bytes)
    then CloseVictims(e, s, Out.Victims(s.wire.queues, s.connected, c.maxGlobalBytes, bytes), p)
    else Step(s, [])
  }

  lemma RelievedKeeps(c: Config, e: Env, s: State, pending: seq<Pending>, p: PeerId, bytes: int, r: Step)
    requires Inv(c, s, pending) && p in s.connected && r == Relieved(c, e, s, p, bytes)
    ensures Inv(c, r.state, pending + r.more) && Unmoved(s, r.state)
  {
    if Out.GlobalLimitExceeded(s.wire.queues, c.maxGlobalBytes, bytes) {
      RelievingKeeps(c, e, s, pending, p, bytes, r);
    } else {
      assert pending + [] == pending;
    }
  }

  lemma VictimsConnected(d: Out.Dispatcher, connected: set<PeerId>, maxGlobal: int, bytes: int, victims: seq<PeerId>)
    requires Out.GlobalLimitExceeded(d, maxGlobal, bytes) && victims == Out.Victims(d, connected, maxGlobal, bytes)
    ensures NoDup(victims)
    ensures forall i :: 0 <= i < |victims| ==> victims[i] in connected
  {
    Out.VictimsSuffice(d, connected, maxGlobal, bytes);
    assert forall i :: 0 <= i < |victims| ==> victims[i] in Elems(victims);
  }

  lemma RelievingKeeps(c: Config, e: Env, s: State, pending: seq<Pending>, p: PeerId, bytes: int, r: Step)
    requires Inv(c, s, pending) && p in s.connected
    requires Out.GlobalLimitExceeded(s.wire.queues, c.maxGlobalBytes, bytes)
    requires r == CloseVictims(e, s, Out.Victims(s.wire.queues, s.connected, c.maxGlobalBytes, bytes), p)
    ensures Inv(c, r.state, pending + r.more) && Unmoved(s, r.state)
  {
    var victims := Out.Victims(s.wire.queues, s.connected, c.maxGlobalBytes, bytes);
    VictimsConnected(s.wire.queues, s.connected, c.maxGlobalBytes, bytes, victims);
    CloseVictimsKeepsInv(c, e, s, pending, victims, p);
    CloseVictimsUnmoved(e, s, victims, p);
  }

  /** After relieving the global limit the frame is put on its queue or its target is closed. */
  function PutOrGiveUp(c: Config, e: Env, r: Step, p: PeerId, f: Frame): Step {
    if p !in r.state.connected then r
    else if Out.GlobalLimitExceeded(r.state.wire.queues, c.maxGlobalBytes, Length(e, f)) then
      var closed := DisconnectAndClose(e, r.state, p, false);
      Step(closed.state, r.more + closed.more)
    else r.(state := r.state.(wire := PutOnQueue(r.state.wire, p, f, Length(e, f))))
  }

  lemma RelieveAndPutInParts(c: Config, e: Env, s: State, p: PeerId, f: Frame)
    ensures RelieveAndPut(c, e, s, p, f) == PutOrGiveUp(c, e, Relieved(c, e, s, p, Length(e, f)), p, f)
  {
  }

  /** The first frame is dealt with; d is what that leaves and what it adds to the list. */
  ghost predicate Handled(c: Config, s: State, pending: seq<Pending>, d: Step)
    requires pending != []
  {
    Inv(c, d.state, pending[1..] + d.more) && Keeps(s, d.state)
  }

  lemma DropAfter(c: Config, s: State, pending: seq<Pending>, r: Step)
    requires pending != [] && Inv(c, r.state, pending + r.more) && Keeps(s, r.state)
    requires pending[0].to !in r.state.connected
    ensures Handled(c, s, pending, r)
  {
    RestOf(pending, r.more);
    DropKeepsInv(c, r.state, pending + r.more);
  }

  lemma GiveUpAfter(c: Config, e: Env, s: State, pending: seq<Pending>, r: Step, closed: Step)
    requires pending != [] && Inv(c, r.state, pending + r.more) && Keeps(s, r.state)
    requires pending[0].to in r.state.connected
    requires closed == DisconnectAndClose(e, r.state, pending[0].to, false)
    ensures Handled(c, s, pending, Step(closed.state, r.more + closed.more))
  {
    RestOfTwo(pending, r.more, closed.more);
    GiveUpKeepsInv(c, e, r.state, pending + r.more);
    KeepsTransitive(s, r.state, closed.state);
  }

  lemma PutAfter(c: Config, s: State, pending: seq<Pending>, r: Step, bytes: int, put: State)
    requires pending != [] && Inv(c, r.state, pending + r.more) && Keeps(s, r.state)
    requires pending[0].to in r.state.connected && bytes > 0
    requires !Out.PeerLimitExceeded(r.state.wire.queues, c.maxPeerBytes, pending[0].to, bytes)
    requires !Out.GlobalLimitExceeded(r.state.wire.queues, c.maxGlobalBytes, bytes)
    requires put == r.state.(wire := PutOnQueue(r.state.wire, pending[0].to, pending[0].frame, bytes))
    ensures Handled(c, s, pending, Step(put, r.more))
  {
    RestOf(pending, r.more);
    PutKeepsInv(c, r.state, pending + r.more, bytes);
    PutKeeps(r.state, pending[0].to, pending[0].frame, bytes);
    KeepsTransitive(s, r.state, put);
  }

  lemma PutOrGiveUpKeeps(c: Config, e: Env, s: State, pending: seq<Pending>, r: Step)
    requires pending != [] && Inv(c, r.state, pending + r.more) && Keeps(s, r.state)
    requires pending[0].to in r.state.connected ==>
               !Out.PeerLimitExceeded(r.state.wire.queues, c.maxPeerBytes, pending[0].to, Length(e, pending[0].frame))
    ensures Handled(c, s, pending, PutOrGiveUp(c, e, r, pending[0].to, pending[0].frame))
  {
    var p := pending[0].to;
    if p !in r.state.connected {
      DropAfter(c, s, pending, r);
    } else if Out.GlobalLimitExceeded(r.state.wire.queues, c.maxGlobalBytes, Length(e, pending[0].frame)) {
      GiveUpAfter(c, e, s, pending, r, DisconnectAndClose(e, r.state, p, false));
    } else {
      var bytes := Length(e, pending[0].frame);
      PutAfter(c, s, pending, r, bytes, r.state.(wire := PutOnQueue(r.state.wire, p, pending[0].frame, bytes)));
    }
  }

  /** Closing other connections does not make a frame too big for its own queue. */
  lemma OwnLimitUnmoved(c: Config, s: State, s': State, p: PeerId, bytes: int)
    requires Unmoved(s, s') && p in s'.connected
    ensures Out.PeerLimitExceeded(s'.wire.queues, c.maxPeerBytes, p, bytes)
            == Out.PeerLimitExceeded(s.wire.queues, c.maxPeerBytes, p, bytes)
  {
  }

  lemma RelieveAndPutKeeps(c: Config, e: Env, s: State, pending: seq<Pending>, d: Step)
    requires Inv(c, s, pending) && pending != [] && pending[0].to in s.connected
    requires d == RelieveAndPut(c, e, s, pending[0].to, pending[0].frame)
    requires !Out.PeerLimitExceeded(s.wire.queues, c.maxPeerBytes, pending[0].to, Length(e, pending[0].frame))
    ensures Handled(c, s, pending, d)
  {
    var (p, f) := (pending[0].to, pending[0].frame);
    var r := Relieved(c, e, s, p, Length(e, f));
    RelieveAndPutInParts(c, e, s, p, f);
    RelievedKeeps(c, e, s, pending, p, Length(e, f), r);
    if p in r.state.connected {
      OwnLimitUnmoved(c, s, r.state, p, Length(e, f));
    }
    PutOrGiveUpKeeps(c, e, s, pending, r);
  }

  lemma LookKeeps(c: Config, s: State, pending: seq<Pending>, checks: nat)
    requires Inv(c, s, pending)
    ensures Inv(c, s.(checks := checks), pending)
  {
  }

  lemma LookAnd(c: Config, s: State, pending: seq<Pending>, looked: State, d: Step)
    requires pending != [] && looked == s.(checks := looked.checks) && Handled(c, looked, pending, d)
    ensures Handled(c, s, pending, d)
  {
  }

  lemma GiveUpHandled(c: Config, e: Env, s: State, pending: seq<Pending>, d: Step)
    requires Inv(c, s, pending) && pending != [] && pending[0].to in s.connected
    requires d == DisconnectAndClose(e, s, pending[0].to, false)
    ensures Handled(c, s, pending, d)
  {
    GiveUpKeepsInv(c, e, s, pending);
  }

  lemma NothingHandled(c: Config, s: State, pending: seq<Pending>)
    requires Inv(c, s, pending) && pending != [] && pending[0].to !in s.connected
    ensures Handled(c, s, pending, Step(s, []))
  {
    DropKeepsInv(c, s, pending);
    assert pending[1..] + [] == pending[1..];
  }

  predicate ClosedAtOnce(c: Config, e: Env, s: State, p: PeerId, f: Frame) {
    e.expired(p, s.checks) || Out.PeerLimitExceeded(s.wire.queues, c.maxPeerBytes, p, Length(e, f))
  }

  lemma EnqueueOneInParts(c: Config, e: Env, s: State, p: PeerId, f: Frame)
    requires p in s.connected
    ensures EnqueueOne(c, e, s, p, f)
            == (if ClosedAtOnce(c, e, s, p, f) then DisconnectAndClose(e, s.(checks := s.checks + 1), p, false)
                else RelieveAndPut(c, e, s.(checks := s.checks + 1), p, f))
  {
  }

  /** Whatever happens to the first frame, and to others because of it, everything is kept. */
  lemma EnqueueOneKeeps(c: Config, e: Env, s: State, pending: seq<Pending>, d: Step)
    requires Inv(c, s, pending) && pending != []
    requires d == EnqueueOne(c, e, s, pending[0].to, pending[0].frame)
    ensures Handled(c, s, pending, d)
  {
    var (p, f) := (pending[0].to, pending[0].frame);
    if p !in s.connected {
      NothingHandled(c, s, pending);
    } else {
      var looked := s.(checks := s.checks + 1);
      LookKeeps(c, s, pending, looked.checks);
      EnqueueOneInParts(c, e, s, p, f);
      if ClosedAtOnce(c, e, s, p, f) {
        GiveUpHandled(c, e, looked, pending, d);
      } else {
        RelieveAndPutKeeps(c, e, looked, pending, d);
      }
      LookAnd(c, s, pending, looked, d);
    }
  }

  // ----- when a frame is refused -----

  /** Closing connections takes the frames off their queues and forgets nothing that was queued. */
  lemma {:induction false} VictimsCleared(e: Env, s: State, victims: seq<PeerId>, target: PeerId)
    requires s.connected <= s.peers.Keys && NoDup(victims) && target in s.connected && target !in victims
    requires forall i :: 0 <= i < |victims| ==> victims[i] in s.connected
    ensures CloseVictims(e, s, victims, target).state.wire == s.wire.(queues := Out.ClearAll(s.wire.queues, victims))
    decreases |victims|
  {
    if victims != [] {
      var one := DisconnectAndClose(e, s, victims[0], false).state;
      OneCleared(e, s, victims[0], one);
      VictimsCleared(e, one, victims[1..], target);
    }
  }

  lemma OneCleared(e: Env, s: State, p: PeerId, one: State)
    requires s.connected <= s.peers.Keys && p in s.connected && one == DisconnectAndClose(e, s, p, false).state
    ensures one.wire == s.wire.(queues := Out.Clear(s.wire.queues, p))
    ensures one.connected == s.connected - {p} && one.connected <= one.peers.Keys
  {
    RemovalKeepsOthers(s.peers, s.house, p, e.now, false);
  }

  predicate MakesRoom(c: Config, s: State, p: PeerId, victims: seq<PeerId>, bytes: int) {
    p !in victims && !Out.GlobalLimitExceeded(Out.ClearAll(s.wire.queues, victims), c.maxGlobalBytes, bytes)
  }

  lemma RelievedOutcome(c: Config, e: Env, s: State, p: PeerId, f: Frame, victims: seq<PeerId>)
    requires s.connected <= s.peers.Keys && p in s.connected && NoDup(victims)
    requires Out.GlobalLimitExceeded(s.wire.queues, c.maxGlobalBytes, Length(e, f))
    requires victims == Out.Victims(s.wire.queues, s.connected, c.maxGlobalBytes, Length(e, f))
    requires forall i :: 0 <= i < |victims| ==> victims[i] in s.connected
    ensures p in RelieveAndPut(c, e, s, p, f).state.connected <==> MakesRoom(c, s, p, victims, Length(e, f))
  {
    var r := CloseVictims(e, s, victims, p);
    CloseVictimsUnmoved(e, s, victims, p);
    VictimsHit(e, s, victims, p);
    if p !in victims {
      VictimsCleared(e, s, victims, p);
    }
  }

  lemma VictimsHit(e: Env, s: State, victims: seq<PeerId>, target: PeerId)
    requires s.connected <= s.peers.Keys && NoDup(victims) && target in s.connected
    requires forall i :: 0 <= i < |victims| ==> victims[i] in s.connected
    ensures target in CloseVictims(e, s, victims, target).state.connected <==> target !in victims
  {
    var P := (x: State, y: seq<Pending>) => x.connected <= x.peers.Keys;
    forall x: State, y: seq<Pending>, p: PeerId | P(x, y) && p in x.connected
      ensures KeptByClosing(e, x, y, p, P)
    {
      OneCleared(e, x, p, DisconnectAndClose(e, x, p, false).state);
    }
    CloseVictimsInduction(e, s, [], victims, target, P);
  }

  /**
   A frame for a connected session is refused, and the session closed with it, exactly if its lease
   has expired, its own queue has no room, or the global limit is exceeded and either it is among
   the connections that have to give way or the frame does not fit beside the frames being sent.
   */
  lemma RefusedExactlyWhen(c: Config, e: Env, s: State, pending: seq<Pending>, p: PeerId, f: Frame)
    requires Inv(c, s, pending) && p in s.connected
    ensures var bytes := Length(e, f);
            p !in EnqueueOne(c, e, s, p, f).state.connected
            <==> (|| e.expired(p, s.checks)
                  || Out.PeerLimitExceeded(s.wire.queues, c.maxPeerBytes, p, bytes)
                  || (Out.GlobalLimitExceeded(s.wire.queues, c.maxGlobalBytes, bytes)
                      && (p in Out.Victims(s.wire.queues, s.connected, c.maxGlobalBytes, bytes)
                          || bytes > c.maxGlobalBytes - Out.Total(Out.InFlight, s.wire.queues.queues))))
  {
    var looked := s.(checks := s.checks + 1);
    EnqueueOneInParts(c, e, s, p, f);
    if !ClosedAtOnce(c, e, s, p, f) && Out.GlobalLimitExceeded(s.wire.queues, c.maxGlobalBytes, Length(e, f)) {
      RefusedUnderPressure(c, e, looked, p, f);
    }
  }

  lemma RefusedUnderPressure(c: Config, e: Env, s: State, p: PeerId, f: Frame)
    requires s.connected <= s.peers.Keys && WireOk(c, s.connected, s.wire) && p in s.connected
    requires Out.GlobalLimitExceeded(s.wire.queues, c.maxGlobalBytes, Length(e, f))
    ensures p !in RelieveAndPut(c, e, s, p, f).state.connected
            <==> (|| p in Out.Victims(s.wire.queues, s.connected, c.maxGlobalBytes, Length(e, f))
                  || Length(e, f) > c.maxGlobalBytes - Out.Total(Out.InFlight, s.wire.queues.queues))
  {
    var victims := Out.Victims(s.wire.queues, s.connected, c.maxGlobalBytes, Length(e, f));
    VictimsConnected(s.wire.queues, s.connected, c.maxGlobalBytes, Length(e, f), victims);
    RelievedOutcome(c, e, s, p, f, victims);
    forall q: PeerId | q in s.wire.queues.queues && q !in s.connected
      ensures s.wire.queues.queues[q].frames == []
    {
      assert QueueServed(s.wire, s.connected, q);
    }
    Out.ReliefIsComplete(s.wire.queues, c.maxPeerBytes, c.maxGlobalBytes, s.connected, Length(e, f));
  }

  // ----- the whole list -----

  ghost predicate KeptByOne(c: Config, e: Env, s: State, pending: seq<Pending>, P: (State, seq<Pending>) -> bool)
    requires pending != []
  {
    var one := EnqueueOne(c, e, s, pending[0].to, pending[0].frame);
    P(one.state, pending[1..] + one.more)
  }

  /** What every frame of the work list keeps, the whole list keeps, however many it closes. */
  lemma {:induction false} EnqueueAllInduction(
    c: Config, e: Env, s: State, pending: seq<Pending>, P: (State, seq<Pending>) -> bool)
    requires P(s, pending)
    requires forall x, y :: P(x, y) && y != [] ==> KeptByOne(c, e, x, y, P)
    ensures P(EnqueueAll(c, e, s, pending), [])
    decreases s.connected, |pending|
  {
    if pending != [] {
      var one := EnqueueOne(c, e, s, pending[0].to, pending[0].frame);
      assert KeptByOne(c, e, s, pending, P);
      EnqueueAllInduction(c, e, one.state, pending[1..] + one.more, P);
    }
  }

  /**
   Queueing any number of frames keeps every invariant of the server, whatever it closes on the way,
   and leaves nothing unsaid: every member's view of its room is exact when the list is empty.
   */
  lemma EnqueueAllKeeps(c: Config, e: Env, s: State, pending: seq<Pending>)
    requires Inv(c, s, pending)
    ensures Inv(c, EnqueueAll(c, e, s, pending), [])
    ensures Keeps(s, EnqueueAll(c, e, s, pending))
  {
    var P := (x: State, y: seq<Pending>) => Inv(c, x, y) && Keeps(s, x);
    forall x: State, y: seq<Pending> | P(x, y) && y != []
      ensures KeptByOne(c, e, x, y, P)
    {
      var one := EnqueueOne(c, e, x, y[0].to, y[0].frame);
      EnqueueOneKeeps(c, e, x, y, one);
      KeepsTransitive(s, x, one.state);
    }
    EnqueueAllInduction(c, e, s, pending, P);
  }
}
