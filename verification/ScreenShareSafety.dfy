/** What every step of starting and stopping a screen share keeps. */
module ScreenShareSafety {
  import opened Common
  import opened ScreenShare

  // ----- who holds the screen tracks -----

  predicate InProgress(start: Start) {
    start.Choosing? || start.Replacing? || start.RollingBack?
  }

  /** Every screen track is ended, pending or shared; a start in progress excludes a share and a stop. */
  ghost predicate TracksHeld(w: Share) {
    && (forall t :: t in w.acquired ==> t in w.ended || w.pending == Some(t) || w.active == Some(t))
    && (w.pending.Some? ==> (w.start.Replacing? || w.start.RollingBack?) && w.pending == Some(Screen(w.start.operation)))
    && (InProgress(w.start) ==> w.active == None && w.stop.NotStopping? && w.start.operation <= w.operation)
    && (w.start.Replacing? && !w.disposed ==> w.pending == Some(Screen(w.start.operation)))
    && (w.start.Replacing? ==> Screen(w.start.operation) in w.acquired)
    && (w.start.RollingBack? ==> Screen(w.start.operation) in w.ended)
    && (w.active.Some? ==> w.active.value.Screen? && w.active.value in w.acquired)
    && (w.stop.Restoring? ==> w.stop.track.Screen? && w.stop.track in w.ended)
    && (w.stop.Restoring? && !w.disposed ==> OwnsStop(w, w.stop.track, w.stop.generation))
    && (w.stop.StopSettled? ==> w.active == None)
    && (w.disposed ==> !w.roomActive && w.pending == None && w.active == None && w.senders == map[])
  }

  // ----- what is sent -----

  predicate NoScreen(track: Option<Track>) {
    track.Some? ==> track.value.Camera?
  }

  predicate Sharing(w: Share) {
    w.active.Some? && w.stop.NotStopping?
  }

  function Changed(updates: seq<Update>): set<nat> {
    set u | u in updates :: u.peer
  }

  /** The peers of some changes, in order, all below a number, still with their senders; none sent a screen before. */
  ghost predicate Restorable(w: Share, updates: seq<Update>, below: nat) {
    && (forall i, j :: 0 <= i < j < |updates| ==> updates[i].peer < updates[j].peer)
    && (forall u :: u in updates ==> NoScreen(u.previous) && u.peer < below)
    && (forall u :: u in updates && u.peer in w.senders ==> w.senders[u.peer].Sender?)
  }

  /** The local stream shows the screen exactly during a share. */
  ghost predicate StreamOk(w: Share) {
    && OnlyCameras(w.cameras)
    && (w.stream.Some? ==> forall t :: t in w.stream.value.video ==> t.Camera? || (Sharing(w) && w.active == Some(t)))
    && (Sharing(w) ==> LastVideo(w.stream) == Sender(w.active))
  }

  ghost predicate SwapOk(w: Share, swap: Swap) {
    && swap.peer < w.nextPeer
    && (swap.reply == Waiting ==> swap.peer in w.senders && w.senders[swap.peer].Sender?)
    && (swap.reply == Gone ==> swap.peer !in w.senders)
    && (swap.reply == Replaced && swap.peer in w.senders ==> w.senders[swap.peer] == Sender(swap.target))
  }

  ghost predicate StartOk(w: Share) {
    match w.start
    case Replacing(operation, cameras, updates, failures, previous, swap) =>
      && OnlyCameras(cameras.tracks) && NoScreen(cameras.primary) && NoScreen(previous) && Restorable(w, updates, swap.peer)
      && SwapOk(w, swap) && swap.target == Some(Screen(operation))
      && Covered(w, operation, swap.peer, failures)
    case RollingBack(operation, updates, failures, swap) =>
      Restorable(w, updates, swap.peer) && SwapOk(w, swap) && NoScreen(swap.target)
    case _ => true
  }

  /** Every peer below a number sends the screen or has failed to. */
  ghost predicate Covered(w: Share, operation: nat, below: nat, failures: seq<nat>) {
    forall p :: p in w.senders && p < below ==> w.senders[p] == Sender(Some(Screen(operation))) || p in failures
  }

  ghost predicate StopOk(w: Share) {
    w.stop.Restoring? ==> SwapOk(w, w.stop.swap) && NoScreen(w.stop.swap.target) && NoScreen(w.stop.primary)
  }

  ghost predicate PeersOk(w: Share) {
    && (forall p :: p in w.senders ==> p < w.nextPeer)
    && (Sharing(w) ==> forall p :: p in w.senders ==> w.senders[p] == Sender(w.active))
  }

  /** The swap has not taken the screen from its peer. */
  predicate Unswapped(swap: Swap, p: nat) {
    swap.peer == p && swap.reply != Replaced
  }

  /** There is a reason for a peer to send a screen: the share, or something that is about to take it back. */
  predicate Explained(w: Share, p: nat, k: nat) {
    || (Sharing(w) && w.active == Some(Screen(k)))
    || (w.start.Replacing? && w.start.operation == k
        && (p in Changed(w.start.updates) || (w.start.swap.peer == p && w.start.swap.reply == Replaced)))
    || (w.start.RollingBack? && w.start.operation == k
        && (p in Changed(w.start.updates) || p in w.start.failures || Unswapped(w.start.swap, p)))
    || (w.stop.Restoring? && w.stop.track == Screen(k)
        && (p in w.stop.rest || p in w.stop.failures || Unswapped(w.stop.swap, p)))
  }

  predicate Sends(w: Share, p: nat, k: nat) {
    p in w.senders && w.senders[p] == Sender(Some(Screen(k)))
  }

  ghost predicate ScreensExplained(w: Share) {
    forall p, k :: Sends(w, p, k) ==> Explained(w, p, k)
  }

  ghost predicate Inv(w: Share) {
    TracksHeld(w) && StreamOk(w) && StartOk(w) && StopOk(w) && PeersOk(w) && ScreensExplained(w)
  }

  // ----- recovery -----

  predicate NoSwaps(w: Share) {
    !w.start.Replacing? && !w.start.RollingBack? && !w.stop.Restoring?
  }

  /** Only the failed peers are replaced, by connections that send what the local stream has. */
  lemma {:induction false} RecoverReplaces(w: Share, failures: seq<nat>, lost: set<nat>, r: Share)
    requires r == Recover(w, failures, lost) && NoSwaps(w)
    requires forall p :: p in w.senders ==> p < w.nextPeer
    ensures r == w.(senders := r.senders, nextPeer := r.nextPeer) && r.nextPeer >= w.nextPeer
    ensures forall p :: p in r.senders ==> p < r.nextPeer
    ensures forall p :: p in r.senders ==>
              || (p in w.senders && r.senders[p] == w.senders[p] && (w.disposed || p !in failures))
              || r.senders[p] == LastVideo(w.stream)
    decreases |failures|
  {
    if w.disposed || failures == [] {
    } else if failures[0] !in w.senders {
      RecoverReplaces(w, failures[1..], lost, r);
    } else {
      var w1 := RemovePeer(w, failures[0]);
      assert w1 == w.(senders := w.senders - {failures[0]});
      RecoverReplaces(if failures[0] in lost then w1 else AddPeer(w1), failures[1..], lost, r);
    }
  }

  // ----- starting -----

  /** The state of the loop of a start when it gets to the peer with the number `from`. */
  ghost predicate LoopOk(w: Share, operation: nat, cameras: Cameras, from: nat, updates: seq<Update>, failures: seq<nat>) {
    && OwnsStart(w, operation) && StreamOk(w) && PeersOk(w) && operation <= w.operation
    && (forall t :: t in w.acquired ==> t in w.ended || w.pending == Some(t)) && Screen(operation) in w.acquired
    && OnlyCameras(cameras.tracks) && NoScreen(cameras.primary) && Restorable(w, updates, from)
    && (w.stream.Some? ==> OnlyCameras(w.stream.value.video))
    && (forall p, k :: Sends(w, p, k) ==> k == operation && p in Changed(updates))
    && Covered(w, operation, from, failures)
  }

  lemma ReplaceWaits(w: Share, operation: nat, cameras: Cameras, from: nat, updates: seq<Update>, failures: seq<nat>, previous: Option<Track>, r: Share)
    requires LoopOk(w, operation, cameras, from, updates, failures) && from in w.senders && w.senders[from].Sender?
    requires previous == if w.senders[from].track.Some? then w.senders[from].track else cameras.primary
    requires r == w.(start := Replacing(operation, cameras, updates, failures, previous, Swap(from, Some(Screen(operation)), Waiting)))
    ensures Inv(r)
  {
    if previous.Some? && previous.value.Screen? {
      assert Sends(w, from, previous.value.operation);
    }
    forall p, k | Sends(r, p, k) ensures Explained(r, p, k) {
      assert Sends(w, p, k);
    }
  }

  lemma ReplaceAdds(w: Share, operation: nat, cameras: Cameras, from: nat, updates: seq<Update>, failures: seq<nat>, w1: Share)
    requires LoopOk(w, operation, cameras, from, updates, failures) && from in w.senders
    requires w1 == w.(senders := w.senders[from := Sender(Some(Screen(operation)))])
    ensures LoopOk(w1, operation, cameras, from + 1, updates + [Update(from, None, true)], failures)
  {
    var more := updates + [Update(from, None, true)];
    ChangedPlus(updates, Update(from, None, true));
    forall p, k | Sends(w1, p, k) ensures k == operation && p in Changed(more) {
      if p != from {
        assert Sends(w, p, k);
      }
    }
  }

  lemma {:induction false} ReplacingKeepsInv(w: Share, operation: nat, cameras: Cameras, from: nat, updates: seq<Update>, failures: seq<nat>, t: Trouble)
    requires LoopOk(w, operation, cameras, from, updates, failures)
    ensures Inv(ReplaceFrom(w, operation, cameras, from, updates, failures, t))
    decreases w.nextPeer - from
  {
    if from >= w.nextPeer {
      CommitKeepsInv(w, operation, cameras, from, updates, failures, t.lost);
    } else if from !in w.senders {
      ReplacingKeepsInv(w, operation, cameras, from + 1, updates, failures, t);
    } else if w.senders[from].Sender? {
      var r := ReplaceFrom(w, operation, cameras, from, updates, failures, t);
      ReplaceWaits(w, operation, cameras, from, updates, failures, r.start.previous, r);
    } else if from !in t.refusing {
      var w1 := w.(senders := w.senders[from := Sender(Some(Screen(operation)))]);
      ReplaceAdds(w, operation, cameras, from, updates, failures, w1);
      ReplacingKeepsInv(w1, operation, cameras, from + 1, updates + [Update(from, None, true)], failures, t);
    } else {
      ReplacingKeepsInv(w, operation, cameras, from + 1, updates, failures + [from], t);
    }
  }

  lemma ChangedPlus(updates: seq<Update>, u: Update)
    ensures Changed(updates + [u]) == Changed(updates) + {u.peer}
  {
  }

  lemma CommitKeepsInv(w: Share, operation: nat, cameras: Cameras, from: nat, updates: seq<Update>, failures: seq<nat>, lost: set<nat>)
    requires LoopOk(w, operation, cameras, from, updates, failures) && from >= w.nextPeer
    ensures Inv(Commit(w, operation, cameras, failures, lost))
  {
    var track := Screen(operation);
    var w1 := Committed(w, track, cameras);
    var r := Recover(w1, failures, lost);
    assert r == Commit(w, operation, cameras, failures, lost);
    RecoverReplaces(w1, failures, lost, r);
    assert LastVideo(w1.stream) == Sender(Some(track));
    assert forall p :: p in r.senders ==> r.senders[p] == Sender(Some(track));
  }

  /** The state when the senders that a start has changed still have to get back what they sent. */
  ghost predicate RollOk(w: Share, operation: nat, updates: seq<Update>, failures: seq<nat>) {
    && StreamOk(w) && PeersOk(w) && w.active == None && w.stop.NotStopping? && operation <= w.operation
    && Screen(operation) in w.ended && Restorable(w, updates, w.nextPeer)
    && (forall t :: t in w.acquired ==> t in w.ended)
    && (w.pending.Some? ==> w.pending == Some(Screen(operation)))
    && (w.disposed ==> !w.roomActive && w.pending == None && w.senders == map[])
    && (forall p, k :: Sends(w, p, k) ==> k == operation && (p in Changed(updates) || p in failures))
  }

  lemma RestorableInit(w: Share, rest: seq<Update>, last: Update, below: nat)
    requires Restorable(w, rest + [last], below)
    ensures Restorable(w, rest, last.peer) && Restorable(w, rest, below)
    ensures NoScreen(last.previous) && (last.peer in w.senders ==> w.senders[last.peer].Sender?)
  {
    var updates := rest + [last];
    assert updates[|rest|] == last && last in updates;
    forall u | u in rest ensures u in updates && u.peer < last.peer {
      var i :| 0 <= i < |rest| && rest[i] == u;
      assert updates[i] == u;
    }
    forall i, j | 0 <= i < j < |rest| ensures rest[i].peer < rest[j].peer {
      assert updates[i] == rest[i] && updates[j] == rest[j];
    }
  }

  /** The next sender to get back what it sent was swapped, not added. */
  lemma RollBackWaits(w: Share, operation: nat, rest: seq<Update>, failures: seq<nat>, last: Update, r: Share)
    requires RollOk(w, operation, rest + [last], failures) && last.peer in w.senders
    requires r == w.(start := RollingBack(operation, rest, failures, Swap(last.peer, last.previous, Waiting)))
    ensures Inv(r)
  {
    ChangedPlus(rest, last);
    RestorableInit(w, rest, last, w.nextPeer);
    forall p, k | Sends(r, p, k) ensures Explained(r, p, k) {
      assert Sends(w, p, k);
    }
  }

  /** One change is dealt with: its peer is gone, has failed, or has lost the sender that was added. */
  lemma RollBackStep(w: Share, operation: nat, rest: seq<Update>, failures: seq<nat>, last: Update, w': Share, more: seq<nat>)
    requires RollOk(w, operation, rest + [last], failures)
    requires w' == w.(senders := w'.senders)
    requires
      || (w'.senders == w.senders && last.peer !in w.senders && more == failures)
      || (w'.senders == w.senders && more == failures + [last.peer])
      || (last.peer in w.senders && w'.senders == w.senders[last.peer := NoSender] && more == failures)
    ensures RollOk(w', operation, rest, more)
  {
    ChangedPlus(rest, last);
    RestorableInit(w, rest, last, w.nextPeer);
    forall p, k | Sends(w', p, k) ensures k == operation && (p in Changed(rest) || p in more) {
      assert Sends(w, p, k);
    }
    assert forall u :: u in rest ==> u.peer != last.peer;
  }

  lemma RolledBack(w: Share, operation: nat, failures: seq<nat>, lost: set<nat>)
    requires RollOk(w, operation, [], failures)
    ensures Inv(Recover(Unpend(w, Screen(operation)).(start := StartSettled), failures, lost))
  {
    var w1 := Unpend(w, Screen(operation)).(start := StartSettled);
    var r := Recover(w1, failures, lost);
    RecoverReplaces(w1, failures, lost, r);
    forall p, k | Sends(r, p, k) ensures false {
      if r.senders[p] != LastVideo(w1.stream) {
        assert Sends(w, p, k);
      }
    }
  }

  lemma {:induction false} RollingBackKeepsInv(w: Share, operation: nat, updates: seq<Update>, failures: seq<nat>, t: Trouble)
    requires RollOk(w, operation, updates, failures)
    ensures Inv(RollBack(w, operation, updates, failures, t))
    decreases |updates|
  {
    if updates == [] {
      RolledBack(w, operation, failures, t.lost);
    } else {
      var last, rest := updates[|updates| - 1], updates[..|updates| - 1];
      assert updates == rest + [last];
      if last.peer !in w.senders {
        RollBackStep(w, operation, rest, failures, last, w, failures);
        RollingBackKeepsInv(w, operation, rest, failures, t);
      } else if !last.added {
        RollBackWaits(w, operation, rest, failures, last, RollBack(w, operation, updates, failures, t));
      } else if last.peer in t.refusing {
        RollBackStep(w, operation, rest, failures, last, w, failures + [last.peer]);
        RollingBackKeepsInv(w, operation, rest, failures + [last.peer], t);
      } else {
        var w1 := w.(senders := w.senders[last.peer := NoSender]);
        RollBackStep(w, operation, rest, failures, last, w1, failures);
        RollingBackKeepsInv(w1, operation, rest, failures, t);
      }
    }
  }

  lemma ChooseKeepsInv(w: Share, live: bool, t: Trouble)
    requires Inv(w) && w.start.Choosing?
    ensures Inv(Choose(w, live, t))
  {
    var operation := w.start.operation;
    var track := Screen(operation);
    var w1 := w.(acquired := w.acquired + {track}, pending := Some(track));
    assert forall p, k :: Sends(w, p, k) ==> Explained(w, p, k);
    assert forall p, k :: Sends(w1, p, k) ==> Sends(w, p, k);
    if live && OwnsStart(w1, operation) && !(w.stream == None && t.noStream) {
      var video := if w.stream.Some? then w.stream.value.video else [];
      ReplacingKeepsInv(w1, operation, Cameras(video, FirstLive(video, w.ended)), 0, [], [], t);
    } else {
      var r := Choose(w, live, t);
      assert forall p, k :: Sends(r, p, k) ==> Sends(w, p, k);
    }
  }

  lemma CancelKeepsInv(w: Share, operation: nat, updates: seq<Update>, failures: seq<nat>, t: Trouble)
    requires RollOk(w.(ended := w.ended + {Screen(operation)}), operation, updates, failures)
    ensures Inv(Cancel(w, operation, updates, failures, t))
  {
    RollingBackKeepsInv(w.(ended := w.ended + {Screen(operation)}), operation, updates, failures, t);
  }

  /** What a start knows when the sender it waited for has answered. */
  lemma Answered(w: Share, updated: seq<Update>, failures: seq<nat>)
    requires Inv(w) && w.start.Replacing? && w.start.swap.reply != Waiting
    requires updated == w.start.updates
               + if w.start.swap.reply == Replaced then [Update(w.start.swap.peer, w.start.previous, false)] else []
    requires failures == w.start.failures + if w.start.swap.reply == Failed then [w.start.swap.peer] else []
    ensures Restorable(w, updated, w.start.swap.peer + 1)
    ensures Covered(w, w.start.operation, w.start.swap.peer + 1, failures)
    ensures forall p, k :: Sends(w, p, k) ==> k == w.start.operation && p in Changed(updated)
  {
  }

  lemma ReplacingGivesUp(w: Share, updated: seq<Update>, failures: seq<nat>)
    requires Inv(w) && w.start.Replacing?
    requires Restorable(w, updated, w.start.swap.peer + 1)
    requires forall p, k :: Sends(w, p, k) ==> k == w.start.operation && p in Changed(updated)
    ensures RollOk(w.(ended := w.ended + {Screen(w.start.operation)}), w.start.operation, updated, failures)
  {
    var w1 := w.(ended := w.ended + {Screen(w.start.operation)});
    forall p, k | Sends(w1, p, k) ensures k == w.start.operation && p in Changed(updated) {
      assert Sends(w, p, k);
    }
  }

  lemma ResumeStartKeepsInv(w: Share, t: Trouble)
    requires Inv(w) && (w.start.Replacing? || w.start.RollingBack?)
    ensures Inv(ResumeStart(w, t))
  {
    var swap := w.start.swap;
    var failures := w.start.failures + if swap.reply == Failed then [swap.peer] else [];
    if swap.reply == Waiting {
    } else if w.start.Replacing? {
      var updated := w.start.updates + if swap.reply == Replaced then [Update(swap.peer, w.start.previous, false)] else [];
      Answered(w, updated, failures);
      if OwnsStart(w, w.start.operation) {
        ReplacingKeepsInv(w, w.start.operation, w.start.cameras, swap.peer + 1, updated, failures, t);
      } else {
        ReplacingGivesUp(w, updated, failures);
        CancelKeepsInv(w, w.start.operation, updated, failures, t);
      }
    } else {
      forall p, k | Sends(w, p, k) ensures k == w.start.operation && (p in Changed(w.start.updates) || p in failures) {
        assert Explained(w, p, k);
      }
      RollingBackKeepsInv(w, w.start.operation, w.start.updates, failures, t);
    }
  }

  // ----- stopping -----

  /** The state of the loop of a stop when the peers in `rest` still have to get the camera back. */
  ghost predicate RestoreOk(w: Share, track: Track, generation: nat, primary: Option<Track>, rest: seq<nat>, failures: seq<nat>) {
    && OwnsStop(w, track, generation) && PeersOk(w.(active := None)) && !InProgress(w.start) && !w.stop.NotStopping?
    && track.Screen? && track in w.ended && track in w.acquired && w.pending == None
    && OnlyCameras(w.cameras) && NoScreen(primary)
    && (w.stream.Some? ==> OnlyCameras(w.stream.value.video))
    && (forall t :: t in w.acquired ==> t in w.ended)
    && (forall p, k :: Sends(w, p, k) ==> track == Screen(k) && (p in rest || p in failures))
  }

  lemma RestoringEnds(w: Share, track: Track, generation: nat, primary: Option<Track>, failures: seq<nat>, lost: set<nat>)
    requires RestoreOk(w, track, generation, primary, [], failures)
    ensures Inv(RestoreFrom(w, track, generation, primary, [], failures, lost))
  {
    var w1 := w.(active := None, cameras := [], created := false, stop := StopSettled);
    var r := Recover(w1, failures, lost);
    RecoverReplaces(w1, failures, lost, r);
    assert forall k :: LastVideo(w1.stream) != Sender(Some(Screen(k)));
    forall p, k | Sends(r, p, k) ensures false {
      assert p in w.senders && p !in failures && Sends(w, p, k);
    }
  }

  lemma RestoreWaits(w: Share, track: Track, generation: nat, primary: Option<Track>, rest: seq<nat>, failures: seq<nat>, r: Share)
    requires RestoreOk(w, track, generation, primary, rest, failures) && rest != []
    requires rest[0] in w.senders && w.senders[rest[0]].Sender?
    requires r == w.(stop := Restoring(track, generation, primary, rest[1..], failures, Swap(rest[0], primary, Waiting)))
    ensures Inv(r)
  {
    forall p, k | Sends(r, p, k) ensures Explained(r, p, k) {
      assert Sends(w, p, k);
      assert rest == [rest[0]] + rest[1..];
    }
  }

  lemma {:induction false} RestoringKeepsInv(w: Share, track: Track, generation: nat, primary: Option<Track>, rest: seq<nat>, failures: seq<nat>, lost: set<nat>)
    requires RestoreOk(w, track, generation, primary, rest, failures)
    ensures Inv(RestoreFrom(w, track, generation, primary, rest, failures, lost))
    decreases |rest|
  {
    if rest == [] {
      RestoringEnds(w, track, generation, primary, failures, lost);
    } else if rest[0] !in w.senders || w.senders[rest[0]].NoSender? {
      forall p, k | Sends(w, p, k) ensures track == Screen(k) && (p in rest[1..] || p in failures) {
        assert rest == [rest[0]] + rest[1..];
      }
      RestoringKeepsInv(w, track, generation, primary, rest[1..], failures, lost);
    } else {
      RestoreWaits(w, track, generation, primary, rest, failures, RestoreFrom(w, track, generation, primary, rest, failures, lost));
    }
  }

  lemma ResumeStopKeepsInv(w: Share, t: Trouble)
    requires Inv(w) && w.stop.Restoring?
    ensures Inv(ResumeStop(w, t))
  {
    var Restoring(track, generation, primary, rest, failures, swap) := w.stop;
    var more := failures + if swap.reply == Failed then [swap.peer] else [];
    if swap.reply == Waiting {
    } else if w.disposed {
      assert RestoreFrom(w, track, generation, primary, rest, more, t.lost) == w.(stop := StopSettled);
    } else {
      forall p, k | Sends(w, p, k) ensures track == Screen(k) && (p in rest || p in more) {
        assert Explained(w, p, k);
      }
      RestoringKeepsInv(w, track, generation, primary, rest, more, t.lost);
    }
  }

  lemma StopBegins(w: Share)
    requires Inv(w) && !w.disposed && Sharing(w)
    ensures var w1 := BeginStop(w);
            RestoreOk(w1, w.active.value, w1.operation, FirstLive(w.cameras, w1.ended), PeersFrom(w1, 0), [])
  {
    var w1 := BeginStop(w);
    forall p, k | Sends(w1, p, k) ensures w.active.value == Screen(k) && p in PeersFrom(w1, 0) {
      assert Sends(w, p, k);
    }
  }

  lemma StopKeepsInv(w: Share, t: Trouble)
    requires Inv(w)
    ensures Inv(RequestStop(w, t))
  {
    if w.disposed || !w.stop.NotStopping? {
    } else if w.active == None {
      CancelPendingKeepsInv(w);
    } else {
      var w1 := BeginStop(w);
      StopBegins(w);
      RestoringKeepsInv(w1, w.active.value, w1.operation, FirstLive(w.cameras, w1.ended), PeersFrom(w1, 0), [], t.lost);
    }
  }

  lemma CancelPendingKeepsInv(w: Share)
    requires Inv(w)
    ensures Inv(CancelPendingStart(w))
  {
    var r := CancelPendingStart(w);
    forall p, k | Sends(r, p, k) ensures Explained(r, p, k) {
      assert Sends(w, p, k) && Explained(w, p, k);
    }
  }
}
