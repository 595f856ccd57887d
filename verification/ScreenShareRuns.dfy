/** Safety of screen sharing over every interleaving of starts, stops, cancellations and participants coming and going. */
module ScreenShareRuns {
  import opened Common
  import opened ScreenShare
  import opened ScreenShareSafety

  // ----- every step keeps the invariant -----

  lemma AnswerStartKeepsInv(w: Share, ok: bool)
    requires Inv(w)
    ensures Inv(AnswerStart(w, ok))
  {
    var r := AnswerStart(w, ok);
    forall p, k | Sends(r, p, k) ensures Explained(r, p, k) {
      if Sends(w, p, k) {
        assert Explained(w, p, k);
      }
    }
  }

  lemma AnswerStopKeepsInv(w: Share, ok: bool)
    requires Inv(w)
    ensures Inv(AnswerStop(w, ok))
  {
    var r := AnswerStop(w, ok);
    forall p, k | Sends(r, p, k) ensures Explained(r, p, k) {
      assert Sends(w, p, k) && Explained(w, p, k);
    }
  }

  lemma PeersKeepInv(w: Share, peer: nat)
    requires Inv(w)
    ensures Inv(RemovePeer(w, peer))
    ensures !w.disposed ==> Inv(AddPeer(w))
  {
    var fewer := RemovePeer(w, peer);
    forall p, k | Sends(fewer, p, k) ensures Explained(fewer, p, k) {
      assert Sends(w, p, k) && Explained(w, p, k);
    }
    if !w.disposed {
      AddKeepsInv(w);
    }
  }

  lemma AddKeepsInv(w: Share)
    requires Inv(w) && !w.disposed
    ensures Inv(AddPeer(w))
  {
    var more := AddPeer(w);
    forall p, k | Sends(more, p, k) ensures Explained(more, p, k) {
      if p != w.nextPeer {
        assert Sends(w, p, k) && Explained(w, p, k);
      }
    }
  }

  lemma {:induction false} LastKept(tracks: seq<Track>, others: seq<Track>)
    requires tracks != [] && tracks[|tracks| - 1] !in others
    ensures Less(tracks, others) != [] && Less(tracks, others)[|Less(tracks, others)| - 1] == tracks[|tracks| - 1]
  {
    if |tracks| > 1 {
      LastKept(tracks[1..], others);
    }
  }

  lemma CamerasKeepInv(w: Share, number: nat, stream: Option<Stream>, senders: map<nat, Sender>)
    requires Inv(w)
    ensures Inv(EndCamera(w, number))
    ensures CanChooseCamera(w, stream, senders) ==> Inv(w.(stream := stream, senders := senders))
  {
    var r := EndCamera(w, number);
    if Sharing(w) {
      LastKept(w.stream.value.video, [Camera(number)]);
    }
    assert forall p, k :: Sends(r, p, k) ==> Sends(w, p, k) && Explained(w, p, k);
    if CanChooseCamera(w, stream, senders) {
      var c := w.(stream := stream, senders := senders);
      assert forall p, k :: !Sends(c, p, k);
    }
  }

  lemma DisposeKeepsInv(w: Share)
    requires Inv(w)
    ensures Inv(Dispose(w))
  {
  }

  /** The reasons for which screens are sent are still there. */
  lemma StillExplained(w: Share, r: Share)
    requires ScreensExplained(w) && r.senders == w.senders && r.active == w.active && r.start == w.start && r.stop == w.stop
    ensures ScreensExplained(r)
  {
    forall p, k | Sends(r, p, k) ensures Explained(r, p, k) {
      assert Sends(w, p, k) && Explained(w, p, k);
    }
  }

  lemma PromisesKeepInv(w: Share, e: Event)
    requires Inv(w) && (e.StartRequested? || e.StartReturns? || e.StopReturns?)
    ensures Inv(Next(w, e))
  {
    var r := Next(w, e);
    assert r.senders == w.senders;
    forall p, k | Sends(r, p, k) ensures Explained(r, p, k) {
      assert Sends(w, p, k) && Explained(w, p, k);
    }
  }

  lemma ScreenEndsKeepsInv(w: Share)
    requires Inv(w)
    ensures Inv(Next(w, ScreenEnds))
  {
    StillExplained(w, Next(w, ScreenEnds));
  }

  lemma RoomKeepsInv(w: Share, roomActive: bool)
    requires Inv(w)
    ensures Inv(Next(w, RoomChanges(roomActive)))
  {
    StillExplained(w, Next(w, RoomChanges(roomActive)));
  }

  lemma AudioKeepsInv(w: Share, audio: nat)
    requires Inv(w)
    ensures Inv(Next(w, AudioChanges(audio)))
  {
    StillExplained(w, Next(w, AudioChanges(audio)));
  }

  lemma StartNextKeepsInv(w: Share, e: Event)
    requires Inv(w) && (e.Chosen? || e.StartAnswered? || e.StartResumes? || e.CancelRequested?)
    ensures Inv(Next(w, e))
  {
    match e {
      case Chosen(live, t) => if w.start.Choosing? { ChooseKeepsInv(w, live, t); }
      case StartAnswered(ok) => AnswerStartKeepsInv(w, ok);
      case StartResumes(t) => if w.start.Replacing? || w.start.RollingBack? { ResumeStartKeepsInv(w, t); }
      case CancelRequested => CancelPendingKeepsInv(w);
    }
  }

  lemma StopNextKeepsInv(w: Share, e: Event)
    requires Inv(w) && (e.StopRequested? || e.StopAnswered? || e.StopResumes? || e.EndNoticed?)
    ensures Inv(Next(w, e))
  {
    match e {
      case StopRequested(t) => StopKeepsInv(w, t);
      case StopAnswered(ok) => AnswerStopKeepsInv(w, ok);
      case StopResumes(t) => if w.stop.Restoring? { ResumeStopKeepsInv(w, t); }
      case EndNoticed(t) => StopKeepsInv(w, t);
    }
  }

  lemma NextKeepsInv(w: Share, e: Event)
    requires Inv(w)
    ensures Inv(Next(w, e))
  {
    match e {
      case Chosen(_, _) => StartNextKeepsInv(w, e);
      case StartAnswered(_) => StartNextKeepsInv(w, e);
      case StartResumes(_) => StartNextKeepsInv(w, e);
      case CancelRequested => StartNextKeepsInv(w, e);
      case StopRequested(_) => StopNextKeepsInv(w, e);
      case StopAnswered(_) => StopNextKeepsInv(w, e);
      case StopResumes(_) => StopNextKeepsInv(w, e);
      case EndNoticed(_) => StopNextKeepsInv(w, e);
      case CameraEnds(number) => CamerasKeepInv(w, number, None, map[]);
      case CameraChosen(stream, senders) => CamerasKeepInv(w, 0, stream, senders);
      case PeerJoins => PeersKeepInv(w, 0);
      case PeerLeaves(peer) => PeersKeepInv(w, peer);
      case Disposed => DisposeKeepsInv(w);
      case StartRequested(_) => PromisesKeepInv(w, e);
      case StartReturns => PromisesKeepInv(w, e);
      case StopReturns => PromisesKeepInv(w, e);
      case ScreenEnds => ScreenEndsKeepsInv(w);
      case AudioChanges(audio) => AudioKeepsInv(w, audio);
      case RoomChanges(roomActive) => RoomKeepsInv(w, roomActive);
    }
  }

  /** A session may begin with a camera, or without. */
  predicate CameraStream(stream: Option<Stream>) {
    stream.Some? ==> OnlyCameras(stream.value.video)
  }

  lemma {:induction false} RunSafe(stream: Option<Stream>, events: seq<Event>)
    requires CameraStream(stream)
    ensures Inv(Run(stream, events))
  {
    if events != [] {
      RunSafe(stream, events[..|events| - 1]);
      NextKeepsInv(Run(stream, events[..|events| - 1]), events[|events| - 1]);
    }
  }

  // ----- what holds at every moment -----

  /** A track waits to be shared or is shared, never both, and no start waits during a share. */
  lemma PendingExcludesActive(stream: Option<Stream>, events: seq<Event>)
    requires CameraStream(stream)
    ensures var w := Run(stream, events);
            && (w.pending == None || w.active == None)
            && (InProgress(w.start) ==> w.active == None)
            && (w.pending.Some? ==> InProgress(w.start))
  {
    RunSafe(stream, events);
  }

  /** No screen track is forgotten: it is shared, waits for the start that asked for it, or is stopped. */
  lemma NoTrackLeaks(stream: Option<Stream>, events: seq<Event>, track: Track)
    requires CameraStream(stream) && track in Run(stream, events).acquired
    ensures var w := Run(stream, events);
            || track in w.ended
            || (w.active == Some(track) && !w.disposed)
            || (w.pending == Some(track) && w.start.Replacing? && track == Screen(w.start.operation) && !w.disposed)
  {
    RunSafe(stream, events);
  }

  /** During a share, every connection sends the screen, those made during it included. */
  lemma EveryoneSeesTheShare(stream: Option<Stream>, events: seq<Event>, peer: nat)
    requires CameraStream(stream) && peer in Run(stream, events).senders && Sharing(Run(stream, events))
    ensures Run(stream, events).senders[peer] == Sender(Run(stream, events).active)
  {
    RunSafe(stream, events);
  }

  /** A connection sends a screen only during its share, while its start goes on, or until its stop is done. */
  lemma NobodyKeepsTheScreen(stream: Option<Stream>, events: seq<Event>, peer: nat, k: nat)
    requires CameraStream(stream) && Sends(Run(stream, events), peer, k)
    ensures var w := Run(stream, events);
            w.active == Some(Screen(k)) || (InProgress(w.start) && w.start.operation == k)
  {
    RunSafe(stream, events);
    assert Explained(Run(stream, events), peer, k);
  }

  /** Once a stop is over, the local stream has the cameras again and no screen. */
  lemma StreamWithoutShare(stream: Option<Stream>, events: seq<Event>)
    requires CameraStream(stream) && !Sharing(Run(stream, events)) && Run(stream, events).stream.Some?
    ensures OnlyCameras(Run(stream, events).stream.value.video)
  {
    RunSafe(stream, events);
  }

  // ----- one step -----

  lemma RecoverSame(w: Share, failures: seq<nat>, lost: set<nat>, r: Share)
    requires r == Recover(w, failures, lost)
    ensures r.active == w.active && r.operation == w.operation && r.ended == w.ended
    ensures r.stop.StopSettled? <==> w.stop.StopSettled?
    decreases |failures|
  {
    if !w.disposed && failures != [] {
      if failures[0] !in w.senders {
        RecoverSame(w, failures[1..], lost, r);
      } else {
        var w1 := RemovePeer(w, failures[0]);
        RecoverSame(if failures[0] in lost then w1 else AddPeer(w1), failures[1..], lost, r);
      }
    }
  }

  /** A start only ever shares its own track, and only while it is the last operation of an open room. */
  lemma {:induction false} ReplacingShares(w: Share, operation: nat, cameras: Cameras, from: nat, updates: seq<Update>, failures: seq<nat>, t: Trouble, r: Share)
    requires r == ReplaceFrom(w, operation, cameras, from, updates, failures, t)
    ensures r.operation == w.operation
    ensures r.active == w.active || (r.active == Some(Screen(operation)) && OwnsStart(w, operation))
    decreases w.nextPeer - from
  {
    if from >= w.nextPeer {
      if OwnsStart(w, operation) {
        CommitShares(w, operation, cameras, failures, t.lost);
      } else {
        CancelSame(w, operation, updates, failures, t);
      }
    } else if from !in w.senders {
      ReplacingShares(w, operation, cameras, from + 1, updates, failures, t, r);
    } else if w.senders[from].NoSender? {
      var w1 := w.(senders := w.senders[from := Sender(Some(Screen(operation)))]);
      if from !in t.refusing {
        ReplacingShares(w1, operation, cameras, from + 1, updates + [Update(from, None, true)], failures, t, r);
      } else if OwnsStart(w, operation) {
        ReplacingShares(w, operation, cameras, from + 1, updates, failures + [from], t, r);
      } else {
        CancelSame(w, operation, updates, failures + [from], t);
      }
    }
  }

  lemma CommitShares(w: Share, operation: nat, cameras: Cameras, failures: seq<nat>, lost: set<nat>)
    ensures var r := Commit(w, operation, cameras, failures, lost);
            r.active == Some(Screen(operation)) && r.operation == w.operation
  {
    var w1 := Committed(w, Screen(operation), cameras);
    RecoverSame(w1, failures, lost, Recover(w1, failures, lost));
  }

  lemma CancelSame(w: Share, operation: nat, updates: seq<Update>, failures: seq<nat>, t: Trouble)
    ensures var r := Cancel(w, operation, updates, failures, t);
            r.active == w.active && r.operation == w.operation
  {
    var w1 := w.(ended := w.ended + {Screen(operation)});
    RollBackSame(w1, operation, updates, failures, t, RollBack(w1, operation, updates, failures, t));
  }

  lemma {:induction false} RollBackSame(w: Share, operation: nat, updates: seq<Update>, failures: seq<nat>, t: Trouble, r: Share)
    requires r == RollBack(w, operation, updates, failures, t)
    ensures r.active == w.active && r.operation == w.operation
    decreases |updates|
  {
    if updates == [] {
      RecoverSame(Unpend(w, Screen(operation)).(start := StartSettled), failures, t.lost, r);
    } else {
      var last, rest := updates[|updates| - 1], updates[..|updates| - 1];
      if last.peer !in w.senders {
        RollBackSame(w, operation, rest, failures, t, r);
      } else if last.added {
        if last.peer in t.refusing {
          RollBackSame(w, operation, rest, failures + [last.peer], t, r);
        } else {
          RollBackSame(w.(senders := w.senders[last.peer := NoSender]), operation, rest, failures, t, r);
        }
      }
    }
  }

  lemma {:induction false} RestoringShares(w: Share, track: Track, generation: nat, primary: Option<Track>, rest: seq<nat>, failures: seq<nat>, lost: set<nat>, r: Share)
    requires r == RestoreFrom(w, track, generation, primary, rest, failures, lost)
    ensures r.operation == w.operation && r.ended == w.ended
    ensures r.active == w.active || (r.active == None && OwnsStop(w, track, generation) && r.stop.StopSettled?)
    decreases |rest|
  {
    if OwnsStop(w, track, generation) {
      if rest == [] {
        RecoverSame(w.(active := None, cameras := [], created := false, stop := StopSettled), failures, lost, r);
      } else if rest[0] !in w.senders || w.senders[rest[0]].NoSender? {
        RestoringShares(w, track, generation, primary, rest[1..], failures, lost, r);
      }
    }
  }

  lemma StopShares(w: Share, t: Trouble, r: Share)
    requires r == RequestStop(w, t)
    ensures r.operation >= w.operation
    ensures r.active == w.active || (r.active == None && w.active.Some? && w.active.value in r.ended && r.stop.StopSettled?)
  {
    if !w.disposed && w.stop.NotStopping? && w.active.Some? {
      var w1 := BeginStop(w);
      RestoringShares(w1, w.active.value, w1.operation, FirstLive(w.cameras, w1.ended), PeersFrom(w1, 0), [], t.lost, r);
    }
  }

  /** A share begins only with the track of the start that still is the last operation. */
  lemma ShareBegins(w: Share, e: Event, track: Track)
    requires w.active != Some(track) && Next(w, e).active == Some(track)
    ensures InProgress(w.start) && track == Screen(w.start.operation) && w.operation == w.start.operation
    ensures w.roomActive && !w.disposed && w.stop.NotStopping?
    ensures Next(w, e).operation == w.operation
  {
    ActiveAfter(w, e);
  }

  lemma ActiveAfter(w: Share, e: Event)
    ensures Next(w, e).operation >= w.operation
    ensures var r := Next(w, e);
            || r.active == w.active || r.active == None
            || (InProgress(w.start) && r.active == Some(Screen(w.start.operation)) && w.operation == w.start.operation
                && w.roomActive && !w.disposed && w.stop.NotStopping? && r.operation == w.operation)
  {
    match e {
      case Chosen(live, t) => if w.start.Choosing? { ChooseShares(w, live, t); }
      case StartResumes(t) => if w.start.Replacing? || w.start.RollingBack? { ResumeStartShares(w, t); }
      case StopRequested(t) => StopShares(w, t, RequestStop(w, t));
      case EndNoticed(t) => StopShares(w, t, RequestStop(w, t));
      case StopResumes(t) => if w.stop.Restoring? { ResumeStopShares(w, t); }
      case _ =>
    }
  }

  lemma ChooseShares(w: Share, live: bool, t: Trouble)
    requires w.start.Choosing?
    ensures var r := Choose(w, live, t);
            && r.operation == w.operation
            && (r.active == w.active
                || (r.active == Some(Screen(w.start.operation)) && w.operation == w.start.operation
                    && w.roomActive && !w.disposed && w.stop.NotStopping?))
  {
    var track := Screen(w.start.operation);
    var w1 := w.(acquired := w.acquired + {track}, pending := Some(track));
    var video := if w.stream.Some? then w.stream.value.video else [];
    var cameras := Cameras(video, FirstLive(video, w.ended));
    ReplacingShares(w1, w.start.operation, cameras, 0, [], [], t, ReplaceFrom(w1, w.start.operation, cameras, 0, [], [], t));
  }

  lemma ResumeStartShares(w: Share, t: Trouble)
    requires w.start.Replacing? || w.start.RollingBack?
    ensures var r := ResumeStart(w, t);
            && r.operation == w.operation
            && (r.active == w.active || (r.active == Some(Screen(w.start.operation)) && OwnsStart(w, w.start.operation)))
  {
    var swap := w.start.swap;
    var failures := w.start.failures + if swap.reply == Failed then [swap.peer] else [];
    if swap.reply != Waiting {
      if w.start.RollingBack? {
        RollBackSame(w, w.start.operation, w.start.updates, failures, t, ResumeStart(w, t));
      } else {
        var updated := w.start.updates + if swap.reply == Replaced then [Update(swap.peer, w.start.previous, false)] else [];
        if OwnsStart(w, w.start.operation) {
          ReplacingShares(w, w.start.operation, w.start.cameras, swap.peer + 1, updated, failures, t, ResumeStart(w, t));
        } else {
          CancelSame(w, w.start.operation, updated, failures, t);
        }
      }
    }
  }

  lemma ResumeStopShares(w: Share, t: Trouble)
    requires w.stop.Restoring?
    ensures var r := ResumeStop(w, t);
            && r.operation == w.operation && r.ended == w.ended
            && (r.active == w.active
                || (r.active == None && OwnsStop(w, w.stop.track, w.stop.generation) && r.stop.StopSettled?))
  {
    var Restoring(track, generation, primary, rest, failures, swap) := w.stop;
    if swap.reply != Waiting {
      RestoringShares(w, track, generation, primary, rest, failures + if swap.reply == Failed then [swap.peer] else [], t.lost, ResumeStop(w, t));
    }
  }

  /** A share ends only when the session does or when its own stop is done; its track is stopped by then. */
  lemma ShareEnds(stream: Option<Stream>, events: seq<Event>, e: Event, track: Track)
    requires CameraStream(stream)
    requires Run(stream, events).active == Some(track) && Next(Run(stream, events), e).active != Some(track)
    ensures var w' := Next(Run(stream, events), e);
            w'.active == None && track in w'.ended && (e.Disposed? || w'.stop.StopSettled?)
  {
    var w := Run(stream, events);
    RunSafe(stream, events);
    match e {
      case Chosen(live, t) => if w.start.Choosing? { ChooseShares(w, live, t); }
      case StartResumes(t) => if w.start.Replacing? || w.start.RollingBack? { ResumeStartShares(w, t); }
      case StopRequested(t) => StopShares(w, t, RequestStop(w, t));
      case EndNoticed(t) => StopShares(w, t, RequestStop(w, t));
      case StopResumes(t) => if w.stop.Restoring? { ResumeStopShares(w, t); }
      case _ =>
    }
  }

  // ----- superseded starts -----

  function RunOn(w: Share, events: seq<Event>): Share
    decreases |events|
  {
    if events == [] then w else RunOn(Next(w, events[0]), events[1..])
  }

  /** A start that is no longer the last operation never shares its track. */
  lemma {:induction false} SupersededNeverShares(w: Share, k: nat, events: seq<Event>)
    requires k < w.operation && w.active != Some(Screen(k))
    ensures RunOn(w, events).active != Some(Screen(k))
    decreases |events|
  {
    if events != [] {
      ActiveAfter(w, events[0]);
      SupersededNeverShares(Next(w, events[0]), k, events[1..]);
    }
  }

  /** Cancelling, stopping or leaving while a start goes on: whatever happens then, it shares nothing. */
  lemma CancelledNeverShares(stream: Option<Stream>, events: seq<Event>, e: Event, more: seq<Event>)
    requires CameraStream(stream) && InProgress(Run(stream, events).start)
    requires e.CancelRequested? || e.Disposed? || (e.StopRequested? && !Run(stream, events).disposed)
    ensures RunOn(Next(Run(stream, events), e), more).active != Some(Screen(Run(stream, events).start.operation))
  {
    RunSafe(stream, events);
    var w := Run(stream, events);
    SupersededNeverShares(Next(w, e), w.start.operation, more);
  }
}
