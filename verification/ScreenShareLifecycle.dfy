/**
 The object that shares the screen (ScreenShareLifecycle in screen-share-lifecycle.ts), with what its
 options give it access to. An async method is cut where it awaits; the awaited promises are in `start`
 and `stop`.
 */
module ScreenShareLifecycle {
  import opened Common
  import opened ScreenShare
  import Safety = ScreenShareSafety
  import Runs = ScreenShareRuns

  lemma CommittedIs(w: Share, track: Track, cameras: Cameras, r: Share)
    requires r == w.(stream := r.stream, cameras := cameras.tracks, pending := None, active := Some(track), created := r.created,
                     listening := true, start := StartSettled)
    requires r.created == (w.stream == None)
    requires var stream := if w.stream.Some? then w.stream.value else Stream([], 0);
             r.stream == Some(stream.(video := Less(stream.video, cameras.tracks) + [track]))
    ensures r == Committed(w, track, cameras)
  {
  }

  lemma DisposeIs(w: Share, owned: seq<Track>, r: Share)
    requires owned == w.cameras + (if w.pending.Some? then [w.pending.value] else [])
                    + if w.active.Some? then [w.active.value] else []
    requires var shown := if w.stream.Some? then w.stream.value.video else [];
             r.ended == w.ended + Elems(owned + shown)
    requires r.start == AbortStart(w.start) && r.stop == AbortStop(w.stop)
    requires r.operation == w.operation + 1 && r.pending == None && r.active == None && !r.listening && !r.created
    requires r.cameras == [] && r.stopTrack == None && r.stopGeneration == 0 && !r.roomActive && r.disposed
    requires r.stream == None && r.senders == map[] && r.nextPeer == w.nextPeer && r.acquired == w.acquired
    ensures r == Dispose(w)
  {
  }

  class ScreenShareLifecycle {
    var operation: nat
    var pendingTrack: Option<Track>
    var activeTrack: Option<Track>
    var listening: bool
    var createdLocalStream: bool
    var cameraTracks: seq<Track>
    var start: Start
    var stop: Stop
    var stopTrack: Option<Track>
    var stopGeneration: nat
    // What belongs to the room and to the browser.
    var roomActive: bool
    var disposed: bool
    var localStream: Option<Stream>
    var senders: map<nat, Sender>
    var nextPeer: nat
    var ended: set<Track>
    var acquired: set<Track>

    ghost function Model(): Share
      reads this
    {
      Share(operation, pendingTrack, activeTrack, listening, createdLocalStream, cameraTracks, start, stop, stopTrack,
            stopGeneration, roomActive, disposed, localStream, senders, nextPeer, ended, acquired)
    }

    /** Everything that holds between two steps. */
    ghost predicate Valid()
      reads this
    {
      Safety.Inv(Model())
    }

    constructor (stream: Option<Stream>)
      requires Runs.CameraStream(stream)
      ensures Valid() && Model() == NewShare(stream)
    {
      operation, pendingTrack, activeTrack, listening, createdLocalStream := 0, None, None, false, false;
      cameraTracks, start, stop, stopTrack, stopGeneration := [], NotStarting, NotStopping, None, 0;
      roomActive, disposed, localStream, senders, nextPeer, ended, acquired := false, false, stream, map[], 0, {}, {};
      new;
      Runs.RunSafe(stream, []);
    }

    predicate OwnsStart(operation: nat)
      reads this
      ensures OwnsStart(operation) <==> ScreenShare.OwnsStart(Model(), operation)
    {
      && roomActive && !disposed && this.operation == operation && pendingTrack == Some(Screen(operation))
      && Screen(operation) !in ended && activeTrack == None && stop.NotStopping?
    }

    predicate OwnsStop(track: Track, generation: nat)
      reads this
      ensures OwnsStop(track, generation) <==> ScreenShare.OwnsStop(Model(), track, generation)
    {
      && !disposed && operation == generation && stopGeneration == generation
      && stopTrack == Some(track) && activeTrack == Some(track)
    }

    // ----- peers -----

    method EnsurePeer()
      modifies this
      ensures Model() == AddPeer(old(Model()))
    {
      var sender := NoSender;
      if localStream.Some? {
        var i := 0;
        while i < |localStream.value.video|
          invariant 0 <= i <= |localStream.value.video|
          invariant sender == if i == 0 then NoSender else Sender(Some(localStream.value.video[i - 1]))
        {
          sender := Sender(Some(localStream.value.video[i]));
          i := i + 1;
        }
      }
      senders := senders[nextPeer := sender];
      nextPeer := nextPeer + 1;
    }

    method ClosePeer(peer: nat)
      modifies `senders, `start, `stop
      ensures Model() == RemovePeer(old(Model()), peer)
    {
      senders := senders - {peer};
      if start.Replacing? || start.RollingBack? {
        start := start.(swap := Abort(start.swap, peer));
      }
      if stop.Restoring? {
        stop := stop.(swap := Abort(stop.swap, peer));
      }
    }

    method RecoverPeersAfterSenderFailure(failures: seq<nat>, lost: set<nat>)
      modifies this
      ensures Model() == Recover(old(Model()), failures, lost)
    {
      if disposed {
        return;
      }
      var rest := failures;
      while rest != []
        invariant !disposed && Recover(Model(), rest, lost) == Recover(old(Model()), failures, lost)
        decreases |rest|
      {
        var peer := rest[0];
        rest := rest[1..];
        if peer in senders {
          ClosePeer(peer);
          if peer !in lost {
            EnsurePeer();
          }
        }
      }
    }

    // ----- start -----

    /** startScreenShare and start. */
    method Start(available: bool)
      modifies `operation, `start
      ensures Model() == RequestStart(old(Model()), available)
    {
      if disposed || !roomActive || !stop.NotStopping? || !start.NotStarting? || activeTrack.Some? {
        return;
      }
      operation := operation + 1;
      start := if available then Choosing(operation) else StartSettled;
    }

    /** The loop over the peers of performStart, until it waits for a sender or is through. */
    method ReplaceSenders(operation: nat, cameras: Cameras, first: nat, before: seq<Update>, failed: seq<nat>, t: Trouble)
      modifies this
      ensures Model() == ReplaceFrom(old(Model()), operation, cameras, first, before, failed, t)
    {
      var from: nat, updates: seq<Update>, failures: seq<nat> := first, before, failed;
      while from < nextPeer
        invariant ReplaceFrom(Model(), operation, cameras, from, updates, failures, t)
               == ReplaceFrom(old(Model()), operation, cameras, first, before, failed, t)
        decreases nextPeer - from
      {
        if from in senders {
          if senders[from].Sender? {
            var previous := if senders[from].track.Some? then senders[from].track else cameras.primary;
            start := Replacing(operation, cameras, updates, failures, previous, Swap(from, Some(Screen(operation)), Waiting));
            return;
          }
          if from !in t.refusing {
            senders := senders[from := Sender(Some(Screen(operation)))];
            updates := updates + [Update(from, None, true)];
          } else {
            failures := failures + [from];
            if !OwnsStart(operation) {
              CancelStart(operation, updates, failures, t);
              return;
            }
          }
        }
        from := from + 1;
      }
      if OwnsStart(operation) {
        CommitStart(operation, cameras, failures, t.lost);
      } else {
        CancelStart(operation, updates, failures, t);
      }
    }

    method CommitStart(operation: nat, cameras: Cameras, failures: seq<nat>, lost: set<nat>)
      modifies this
      ensures Model() == Commit(old(Model()), operation, cameras, failures, lost)
    {
      ShareTrack(Screen(operation), cameras);
      CommittedIs(old(Model()), Screen(operation), cameras, Model());
      RecoverPeersAfterSenderFailure(failures, lost);
    }

    method ShareTrack(track: Track, cameras: Cameras)
      modifies `createdLocalStream, `localStream, `cameraTracks, `pendingTrack, `activeTrack, `listening, `start
      ensures createdLocalStream == (old(localStream) == None)
      ensures var stream := if old(localStream).Some? then old(localStream).value else Stream([], 0);
              localStream == Some(stream.(video := Less(stream.video, cameras.tracks) + [track]))
      ensures cameraTracks == cameras.tracks && pendingTrack == None && activeTrack == Some(track)
      ensures listening && start == StartSettled
    {
      var stream := if localStream.Some? then localStream.value else Stream([], 0);
      var shown := Stream(Less(stream.video, cameras.tracks) + [track], stream.audio);
      createdLocalStream, localStream, cameraTracks, pendingTrack, activeTrack, listening, start :=
        localStream == None, Some(shown), cameras.tracks, None, Some(track), true, StartSettled;
    }

    method CancelStart(operation: nat, updates: seq<Update>, failures: seq<nat>, t: Trouble)
      modifies this
      ensures Model() == Cancel(old(Model()), operation, updates, failures, t)
    {
      ended := ended + {Screen(operation)};
      RollBackSenders(operation, updates, failures, t);
    }

    /** rollbackSenderUpdates, until it waits for a sender or is through. */
    method RollBackSenders(operation: nat, changed: seq<Update>, failed: seq<nat>, t: Trouble)
      modifies this
      ensures Model() == RollBack(old(Model()), operation, changed, failed, t)
    {
      var updates: seq<Update>, failures: seq<nat> := changed, failed;
      while updates != []
        invariant RollBack(Model(), operation, updates, failures, t) == RollBack(old(Model()), operation, changed, failed, t)
        decreases |updates|
      {
        var last := updates[|updates| - 1];
        updates := updates[..|updates| - 1];
        if last.peer in senders {
          if !last.added {
            start := RollingBack(operation, updates, failures, Swap(last.peer, last.previous, Waiting));
            return;
          }
          if last.peer in t.refusing {
            failures := failures + [last.peer];
          } else {
            senders := senders[last.peer := NoSender];
          }
        }
      }
      if pendingTrack == Some(Screen(operation)) {
        pendingTrack := None;
      }
      start := StartSettled;
      RecoverPeersAfterSenderFailure(failures, t.lost);
    }

    /** performStart, from the answer of getDisplayMedia on. */
    method DisplayMediaAnswered(live: bool, t: Trouble)
      requires start.Choosing?
      modifies this
      ensures Model() == Choose(old(Model()), live, t)
    {
      var operation := start.operation;
      if !live {
        start := StartSettled;
        return;
      }
      var track := Screen(operation);
      acquired, pendingTrack := acquired + {track}, Some(track);
      if !OwnsStart(operation) || (localStream == None && t.noStream) {
        GiveUp(track);
        return;
      }
      var video := if localStream.Some? then localStream.value.video else [];
      ReplaceSenders(operation, Cameras(video, FirstLive(video, ended)), 0, [], [], t);
    }

    method GiveUp(track: Track)
      requires pendingTrack == Some(track)
      modifies `ended, `pendingTrack, `start
      ensures ended == old(ended) + {track} && pendingTrack == None && start == StartSettled
    {
      ended, pendingTrack, start := ended + {track}, None, StartSettled;
    }

    /** performStart or the rollback, after the sender it waited for. */
    method StartResumed(t: Trouble)
      requires start.Replacing? || start.RollingBack?
      modifies this
      ensures Model() == ResumeStart(old(Model()), t)
    {
      var swap, operation := start.swap, start.operation;
      if swap.reply == Waiting {
        return;
      }
      var failures := start.failures;
      if swap.reply == Failed {
        failures := failures + [swap.peer];
      }
      assert failures == start.failures + if swap.reply == Failed then [swap.peer] else [];
      if start.RollingBack? {
        RollBackSenders(operation, start.updates, failures, t);
        return;
      }
      var updates := start.updates;
      if swap.reply == Replaced {
        updates := updates + [Update(swap.peer, start.previous, false)];
      }
      assert updates == start.updates + if swap.reply == Replaced then [Update(swap.peer, start.previous, false)] else [];
      if OwnsStart(operation) {
        ReplaceSenders(operation, start.cameras, swap.peer + 1, updates, failures, t);
      } else {
        CancelStart(operation, updates, failures, t);
      }
    }

    // ----- stop -----

    method CancelPending()
      modifies `operation, `ended
      ensures Model() == CancelPendingStart(old(Model()))
    {
      if start.NotStarting? || activeTrack.Some? {
        return;
      }
      operation := operation + 1;
      if pendingTrack.Some? {
        ended := ended + {pendingTrack.value};
      }
    }

    method RequestStop(t: Trouble)
      modifies this
      ensures Model() == ScreenShare.RequestStop(old(Model()), t)
    {
      if disposed || !stop.NotStopping? {
        return;
      }
      if activeTrack == None {
        CancelPending();
        return;
      }
      var track := activeTrack.value;
      operation := operation + 1;
      stopTrack, stopGeneration := Some(track), operation;
      listening, ended, stop := false, ended + {track}, StopSettled;
      var generation, primary := operation, FirstLive(cameraTracks, ended);
      RestoreLocalStream(track);
      assert Model() == BeginStop(old(Model()));
      var peers := CurrentPeers();
      RestoreSenders(track, generation, primary, peers, [], t.lost);
    }

    method RestoreLocalStream(track: Track)
      modifies `localStream
      ensures localStream == Restored(old(Model()), track)
    {
      if localStream.Some? {
        var kept := Less(localStream.value.video, [track]);
        localStream := Some(localStream.value.(video := kept + Less(Live(cameraTracks, ended), kept)));
        if createdLocalStream && localStream.value.video == [] && localStream.value.audio == 0 {
          localStream := None;
        }
      }
    }

    /** A copy of the peers, in order. */
    method CurrentPeers() returns (peers: seq<nat>)
      ensures peers == PeersFrom(Model(), 0)
    {
      var from := nextPeer;
      peers := [];
      while from > 0
        invariant 0 <= from <= nextPeer && peers == PeersFrom(Model(), from)
      {
        from := from - 1;
        peers := (if from in senders then [from] else []) + peers;
      }
    }

    /** The loop over the peers of performStop, until it waits for a sender or is through. */
    method RestoreSenders(track: Track, generation: nat, primary: Option<Track>, peers: seq<nat>, failures: seq<nat>, lost: set<nat>)
      modifies this
      ensures Model() == RestoreFrom(old(Model()), track, generation, primary, peers, failures, lost)
    {
      var rest := peers;
      while rest != []
        invariant RestoreFrom(Model(), track, generation, primary, rest, failures, lost)
               == RestoreFrom(old(Model()), track, generation, primary, peers, failures, lost)
        decreases |rest|
      {
        if !OwnsStop(track, generation) {
          stop := StopSettled;
          return;
        }
        var peer := rest[0];
        rest := rest[1..];
        if peer in senders && senders[peer].Sender? {
          stop := Restoring(track, generation, primary, rest, failures, Swap(peer, primary, Waiting));
          return;
        }
      }
      stop := StopSettled;
      if OwnsStop(track, generation) {
        activeTrack, cameraTracks, createdLocalStream := None, [], false;
        RecoverPeersAfterSenderFailure(failures, lost);
      }
    }

    method StopResumed(t: Trouble)
      requires stop.Restoring?
      modifies this
      ensures Model() == ResumeStop(old(Model()), t)
    {
      var swap := stop.swap;
      if swap.reply == Waiting {
        return;
      }
      var failures := stop.failures;
      if swap.reply == Failed {
        failures := failures + [swap.peer];
      }
      assert failures == stop.failures + if swap.reply == Failed then [swap.peer] else [];
      RestoreSenders(stop.track, stop.generation, stop.primary, stop.rest, failures, t.lost);
    }

    // ----- the end of the session -----

    /** Whoever takes the tracks has to stop them. */
    method TakeOwnedTracks() returns (tracks: seq<Track>)
      modifies `operation, `listening, `cameraTracks, `pendingTrack, `activeTrack, `createdLocalStream, `stopTrack, `stopGeneration
      ensures tracks == old(cameraTracks) + (if old(pendingTrack).Some? then [old(pendingTrack).value] else [])
                     + if old(activeTrack).Some? then [old(activeTrack).value] else []
      ensures operation == old(operation) + 1 && !listening && cameraTracks == [] && pendingTrack == None && activeTrack == None
      ensures !createdLocalStream && stopTrack == None && stopGeneration == 0
    {
      operation, listening := operation + 1, false;
      tracks := cameraTracks;
      if pendingTrack.Some? {
        tracks := tracks + [pendingTrack.value];
      }
      if activeTrack.Some? {
        tracks := tracks + [activeTrack.value];
      }
      cameraTracks, pendingTrack, activeTrack := [], None, None;
      createdLocalStream, stopTrack, stopGeneration := false, None, 0;
    }

    /** All connections are closed. */
    method CloseAll()
      modifies `start, `stop
      ensures start == AbortStart(old(start)) && stop == AbortStop(old(stop))
    {
      if start.Replacing? || start.RollingBack? {
        start := start.(swap := Abort(start.swap, start.swap.peer));
      }
      if stop.Restoring? {
        stop := stop.(swap := Abort(stop.swap, stop.swap.peer));
      }
    }

    method CloseEverything() returns (tracks: seq<Track>)
      modifies this
      ensures tracks == old(cameraTracks) + (if old(pendingTrack).Some? then [old(pendingTrack).value] else [])
                     + if old(activeTrack).Some? then [old(activeTrack).value] else []
      ensures operation == old(operation) + 1 && !listening && cameraTracks == [] && pendingTrack == None && activeTrack == None
      ensures !createdLocalStream && stopTrack == None && stopGeneration == 0
      ensures disposed && !roomActive && senders == map[] && localStream == None
      ensures start == AbortStart(old(start)) && stop == AbortStop(old(stop))
      ensures nextPeer == old(nextPeer) && acquired == old(acquired) && ended == old(ended)
    {
      CloseAll();
      disposed, roomActive, senders, localStream := true, false, map[], None;
      tracks := TakeOwnedTracks();
    }

    method Terminate()
      modifies this
      ensures Model() == Dispose(old(Model()))
    {
      var shown := if localStream.Some? then localStream.value.video else [];
      var tracks := CloseEverything();
      ended := ended + Elems(tracks + shown);
      DisposeIs(old(Model()), tracks, Model());
    }

    // ----- between two steps -----

    /** A step of this object; the others belong to the browser, the promises and the room. */
    predicate Own(e: Event) {
      || e.StartRequested? || e.Chosen? || e.StartResumes? || e.CancelRequested? || e.StopRequested? || e.StopResumes?
      || e.PeerJoins? || e.PeerLeaves? || e.Disposed?
    }

    method Perform(e: Event)
      requires Own(e)
      modifies this
      ensures Model() == Next(old(Model()), e)
    {
      match e
      case StartRequested(available) => Start(available);
      case Chosen(live, t) =>
        if start.Choosing? {
          DisplayMediaAnswered(live, t);
        }
      case StartResumes(t) =>
        if start.Replacing? || start.RollingBack? {
          StartResumed(t);
        }
      case CancelRequested => CancelPending();
      case StopRequested(t) => RequestStop(t);
      case StopResumes(t) =>
        if stop.Restoring? {
          StopResumed(t);
        }
      case PeerJoins =>
        if !disposed {
          EnsurePeer();
        }
      case PeerLeaves(peer) => ClosePeer(peer);
      case Disposed => Terminate();
    }

    /** Whatever step the object takes, everything that holds between steps holds again. */
    method RunStep(e: Event)
      requires Valid() && Own(e)
      modifies this
      ensures Valid() && Model() == Next(old(Model()), e)
    {
      ghost var w := Model();
      Perform(e);
      Runs.NextKeepsInv(w, e);
    }
  }
}
