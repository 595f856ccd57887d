/**
 Starting and stopping a screen share (screen-share-lifecycle.ts) while participants come and go.

 The source is asynchronous: start, the rollback of a cancelled start, and stop each wait for every
 sender in turn. Every piece between two awaits is one step; in between, other handlers may run in any
 order. What the browser answers is a parameter of the steps. A peer is a connection, numbered in the
 order of creation, which is the order in which the Map of the peers is traversed.
 */
module ScreenShare {
  import opened Common

  /** A camera, or what the user chose to share in the start with this number. */
  datatype Track = Camera(number: nat) | Screen(operation: nat)

  /** The video sender of a peer, and what it sends. */
  datatype Sender = NoSender | Sender(track: Option<Track>)

  /** The local stream: its video tracks in order, and how many audio tracks it has. */
  datatype Stream = Stream(video: seq<Track>, audio: nat)

  /** What became of a replaceTrack; `Gone` if its connection was closed first. */
  datatype Reply = Waiting | Replaced | Failed | Gone

  /** A replaceTrack that is awaited. */
  datatype Swap = Swap(peer: nat, target: Option<Track>, reply: Reply)

  /** A sender that a start has changed, and what it sent before. */
  datatype Update = Update(peer: nat, previous: Option<Track>, added: bool)

  /** The cameras that a start sets aside, and the one it falls back to. */
  datatype Cameras = Cameras(tracks: seq<Track>, primary: Option<Track>)

  /** The promise of a start; `StartSettled` until its `finally` has run. */
  datatype Start =
    | NotStarting
    | Choosing(operation: nat)
    | Replacing(operation: nat, cameras: Cameras, updates: seq<Update>, failures: seq<nat>, previous: Option<Track>, swap: Swap)
    | RollingBack(operation: nat, updates: seq<Update>, failures: seq<nat>, swap: Swap)
    | StartSettled

  /** The promise of a stop; `StopSettled` until it is forgotten. */
  datatype Stop =
    | NotStopping
    | Restoring(track: Track, generation: nat, primary: Option<Track>, rest: seq<nat>, failures: seq<nat>, swap: Swap)
    | StopSettled

  /**
   `senders` has the current peers. `ended` are the tracks that no longer are live, `acquired` the
   screen tracks that the browser has handed out. Without `listening`, the end of the active track
   goes unnoticed.
   */
  datatype Share = Share(
    operation: nat, pending: Option<Track>, active: Option<Track>, listening: bool, created: bool, cameras: seq<Track>,
    start: Start, stop: Stop, stopTrack: Option<Track>, stopGeneration: nat,
    roomActive: bool, disposed: bool, stream: Option<Stream>,
    senders: map<nat, Sender>, nextPeer: nat, ended: set<Track>, acquired: set<Track>)

  predicate OwnsStart(w: Share, operation: nat) {
    && w.roomActive && !w.disposed && w.operation == operation && w.pending == Some(Screen(operation))
    && Screen(operation) !in w.ended && w.active == None && w.stop.NotStopping?
  }

  predicate OwnsStop(w: Share, track: Track, generation: nat) {
    && !w.disposed && w.operation == generation && w.stopGeneration == generation
    && w.stopTrack == Some(track) && w.active == Some(track)
  }

  // ----- peers -----

  function LastVideo(stream: Option<Stream>): (r: Sender)
    ensures r.Sender? ==> r.track.Some? && stream.Some? && r.track.value in stream.value.video
  {
    if stream == None || stream.value.video == [] then NoSender
    else Sender(Some(stream.value.video[|stream.value.video| - 1]))
  }

  /** ensurePeer: a new connection sends the video of the local stream. */
  function AddPeer(w: Share): Share {
    w.(senders := w.senders[w.nextPeer := LastVideo(w.stream)], nextPeer := w.nextPeer + 1)
  }

  function Abort(swap: Swap, peer: nat): Swap {
    if swap.peer == peer && swap.reply == Waiting then swap.(reply := Gone) else swap
  }

  /** Closing a connection ends the wait for its sender. */
  function RemovePeer(w: Share, peer: nat): Share {
    w.(senders := w.senders - {peer},
       start := if w.start.Replacing? || w.start.RollingBack? then w.start.(swap := Abort(w.start.swap, peer)) else w.start,
       stop := if w.stop.Restoring? then w.stop.(swap := Abort(w.stop.swap, peer)) else w.stop)
  }

  /** Peers whose sender failed get a new connection; those in `lost` fail to, and are given up. */
  function Recover(w: Share, failures: seq<nat>, lost: set<nat>): Share
    decreases |failures|
  {
    if w.disposed || failures == [] then w
    else if failures[0] !in w.senders then Recover(w, failures[1..], lost)
    else
      var w1 := RemovePeer(w, failures[0]);
      Recover(if failures[0] in lost then w1 else AddPeer(w1), failures[1..], lost)
  }

  /** The current peers from a number on, in order. */
  function PeersFrom(w: Share, from: nat): (r: seq<nat>)
    ensures forall p :: p in r <==> p in w.senders && from <= p < w.nextPeer
    decreases w.nextPeer - from
  {
    if from >= w.nextPeer then []
    else (if from in w.senders then [from] else []) + PeersFrom(w, from + 1)
  }

  function FirstLive(tracks: seq<Track>, ended: set<Track>): (r: Option<Track>)
    ensures r.Some? ==> r.value in tracks && r.value !in ended
  {
    if tracks == [] then None
    else if tracks[0] !in ended then Some(tracks[0])
    else FirstLive(tracks[1..], ended)
  }

  // ----- start -----

  function RequestStart(w: Share, available: bool): Share {
    if w.disposed || !w.roomActive || !w.stop.NotStopping? || !w.start.NotStarting? || w.active.Some? then w
    else w.(operation := w.operation + 1, start := if available then Choosing(w.operation + 1) else StartSettled)
  }

  function Unpend(w: Share, track: Track): Share {
    if w.pending == Some(track) then w.(pending := None) else w
  }

  /** What a step may run into: a new stream cannot be made, adding or removing a track throws, a new connection cannot be made. */
  datatype Trouble = Trouble(noStream: bool, refusing: set<nat>, lost: set<nat>)

  /** getDisplayMedia answers. */
  function Choose(w: Share, live: bool, t: Trouble): Share
    requires w.start.Choosing?
  {
    var track := Screen(w.start.operation);
    if !live then w.(start := StartSettled)
    else
      var w1 := w.(acquired := w.acquired + {track}, pending := Some(track));
      if !OwnsStart(w1, w.start.operation) || (w.stream == None && t.noStream) then
        w.(acquired := w.acquired + {track}, pending := None, ended := w.ended + {track}, start := StartSettled)
      else
        var video := if w.stream.Some? then w.stream.value.video else [];
        ReplaceFrom(w1, w.start.operation, Cameras(video, FirstLive(video, w.ended)), 0, [], [], t)
  }

  /** The loop over the peers, from the peer with this number to the next sender it has to wait for. */
  function ReplaceFrom(w: Share, operation: nat, cameras: Cameras, from: nat, updates: seq<Update>, failures: seq<nat>, t: Trouble): Share
    decreases w.nextPeer - from
  {
    if from >= w.nextPeer then
      if OwnsStart(w, operation) then Commit(w, operation, cameras, failures, t.lost)
      else Cancel(w, operation, updates, failures, t)
    else if from !in w.senders then ReplaceFrom(w, operation, cameras, from + 1, updates, failures, t)
    else match w.senders[from]
      case NoSender =>
        if from !in t.refusing then
          ReplaceFrom(w.(senders := w.senders[from := Sender(Some(Screen(operation)))]), operation, cameras, from + 1,
                      updates + [Update(from, None, true)], failures, t)
        else if OwnsStart(w, operation) then ReplaceFrom(w, operation, cameras, from + 1, updates, failures + [from], t)
        else Cancel(w, operation, updates, failures + [from], t)
      case Sender(track) =>
        w.(start := Replacing(operation, cameras, updates, failures,
                              if track.Some? then track else cameras.primary,
                              Swap(from, Some(Screen(operation)), Waiting)))
  }

  /** The share begins: the screen takes the place of the cameras in the local stream. */
  function Commit(w: Share, operation: nat, cameras: Cameras, failures: seq<nat>, lost: set<nat>): Share {
    Recover(Committed(w, Screen(operation), cameras), failures, lost)
  }

  function Committed(w: Share, track: Track, cameras: Cameras): Share {
    var stream := if w.stream.Some? then w.stream.value else Stream([], 0);
    w.(stream := Some(stream.(video := Less(stream.video, cameras.tracks) + [track])),
       cameras := cameras.tracks, pending := None, active := Some(track), created := w.stream == None,
       listening := true, start := StartSettled)
  }

  /** Some tracks without others. */
  function Less(tracks: seq<Track>, others: seq<Track>): (r: seq<Track>)
    ensures forall x :: x in r <==> x in tracks && x !in others
  {
    if tracks == [] then []
    else (if tracks[0] in others then [] else [tracks[0]]) + Less(tracks[1..], others)
  }

  function Cancel(w: Share, operation: nat, updates: seq<Update>, failures: seq<nat>, t: Trouble): Share {
    RollBack(w.(ended := w.ended + {Screen(operation)}), operation, updates, failures, t)
  }

  /** The changed senders get back what they sent, the last one first. */
  function RollBack(w: Share, operation: nat, updates: seq<Update>, failures: seq<nat>, t: Trouble): Share
    decreases |updates|
  {
    if updates == [] then
      Recover(Unpend(w, Screen(operation)).(start := StartSettled), failures, t.lost)
    else
      var last, rest := updates[|updates| - 1], updates[..|updates| - 1];
      if last.peer !in w.senders then RollBack(w, operation, rest, failures, t)
      else if !last.added then w.(start := RollingBack(operation, rest, failures, Swap(last.peer, last.previous, Waiting)))
      else if last.peer in t.refusing then RollBack(w, operation, rest, failures + [last.peer], t)
      else RollBack(w.(senders := w.senders[last.peer := NoSender]), operation, rest, failures, t)
  }

  function ResumeStart(w: Share, t: Trouble): Share
    requires w.start.Replacing? || w.start.RollingBack?
  {
    var swap := w.start.swap;
    var failures := w.start.failures + if swap.reply == Failed then [swap.peer] else [];
    if swap.reply == Waiting then w
    else match w.start
      case RollingBack(operation, updates, _, _) => RollBack(w, operation, updates, failures, t)
      case Replacing(operation, cameras, updates, _, previous, _) =>
        var updated := updates + if swap.reply == Replaced then [Update(swap.peer, previous, false)] else [];
        if OwnsStart(w, operation) then ReplaceFrom(w, operation, cameras, swap.peer + 1, updated, failures, t)
        else Cancel(w, operation, updated, failures, t)
  }

  // ----- stop -----

  function CancelPendingStart(w: Share): Share {
    if w.start.NotStarting? || w.active.Some? then w
    else w.(operation := w.operation + 1, ended := w.ended + if w.pending.Some? then {w.pending.value} else {})
  }

  function RequestStop(w: Share, t: Trouble): Share {
    if w.disposed || !w.stop.NotStopping? then w
    else if w.active == None then CancelPendingStart(w)
    else
      var w1 := BeginStop(w);
      RestoreFrom(w1, w.active.value, w1.operation, FirstLive(w.cameras, w1.ended), PeersFrom(w1, 0), [], t.lost)
  }

  function BeginStop(w: Share): Share
    requires w.active.Some?
  {
    var track := w.active.value;
    var ended := w.ended + {track};
    w.(operation := w.operation + 1, stopTrack := Some(track), stopGeneration := w.operation + 1,
       listening := false, ended := ended, stop := StopSettled, stream := Restored(w.(ended := ended), track))
  }

  /** The local stream after the screen has left it and the live cameras are back. */
  function Restored(w: Share, track: Track): Option<Stream> {
    if w.stream == None then None
    else
      var kept := Less(w.stream.value.video, [track]);
      var stream := w.stream.value.(video := kept + Less(Live(w.cameras, w.ended), kept));
      if w.created && stream.video == [] && stream.audio == 0 then None else Some(stream)
  }

  function Live(tracks: seq<Track>, ended: set<Track>): (r: seq<Track>)
    ensures forall x :: x in r <==> x in tracks && x !in ended
  {
    if tracks == [] then []
    else (if tracks[0] in ended then [] else [tracks[0]]) + Live(tracks[1..], ended)
  }

  /** The loop over the peers there were when the stop began. */
  function RestoreFrom(w: Share, track: Track, generation: nat, primary: Option<Track>, rest: seq<nat>, failures: seq<nat>, lost: set<nat>): Share
    decreases |rest|
  {
    if !OwnsStop(w, track, generation) then w.(stop := StopSettled)
    else if rest == [] then
      Recover(w.(active := None, cameras := [], created := false, stop := StopSettled), failures, lost)
    else if rest[0] !in w.senders || w.senders[rest[0]].NoSender? then
      RestoreFrom(w, track, generation, primary, rest[1..], failures, lost)
    else w.(stop := Restoring(track, generation, primary, rest[1..], failures, Swap(rest[0], primary, Waiting)))
  }

  function ResumeStop(w: Share, t: Trouble): Share
    requires w.stop.Restoring?
  {
    var Restoring(track, generation, primary, rest, failures, swap) := w.stop;
    if swap.reply == Waiting then w
    else RestoreFrom(w, track, generation, primary, rest, failures + if swap.reply == Failed then [swap.peer] else [], t.lost)
  }

  // ----- what the browser and the room do -----

  /** A replaceTrack is done. */
  function Answer(w: Share, swap: Swap, ok: bool): (r: (Share, Swap)) {
    if swap.reply != Waiting || swap.peer !in w.senders then (w, swap)
    else if ok then (w.(senders := w.senders[swap.peer := Sender(swap.target)]), swap.(reply := Replaced))
    else (w, swap.(reply := Failed))
  }

  function AnswerStart(w: Share, ok: bool): Share {
    if !w.start.Replacing? && !w.start.RollingBack? then w
    else
      var answered := Answer(w, w.start.swap, ok);
      answered.0.(start := w.start.(swap := answered.1))
  }

  function AnswerStop(w: Share, ok: bool): Share {
    if !w.stop.Restoring? then w
    else
      var answered := Answer(w, w.stop.swap, ok);
      answered.0.(stop := w.stop.(swap := answered.1))
  }

  /** A camera is unplugged: it leaves the local stream, and is not put back after a share. */
  function EndCamera(w: Share, number: nat): Share {
    var camera := Camera(number);
    w.(ended := w.ended + {camera}, cameras := Less(w.cameras, [camera]),
       stream := if w.stream == None then None else Some(w.stream.value.(video := Less(w.stream.value.video, [camera]))))
  }

  predicate OnlyCameras(tracks: seq<Track>) {
    forall t :: t in tracks ==> t.Camera?
  }

  /** Another camera is chosen, or none, which is refused during a share. */
  predicate CanChooseCamera(w: Share, stream: Option<Stream>, senders: map<nat, Sender>) {
    && !w.disposed && w.start.NotStarting? && w.stop.NotStopping? && w.active == None
    && senders.Keys == w.senders.Keys
    && (stream.Some? ==> OnlyCameras(stream.value.video))
    && forall p :: p in senders && senders[p].Sender? && senders[p].track.Some? ==> senders[p].track.value.Camera?
  }

  /** takeOwnedTracks. */
  function OwnedTracks(w: Share): seq<Track> {
    w.cameras + (if w.pending.Some? then [w.pending.value] else []) + if w.active.Some? then [w.active.value] else []
  }

  /** The end of the session closes all connections, and takes all tracks and stops them. */
  function Dispose(w: Share): Share {
    var shown := if w.stream.Some? then w.stream.value.video else [];
    w.(
      start := AbortStart(w.start), stop := AbortStop(w.stop),
      disposed := true, roomActive := false, operation := w.operation + 1, listening := false, created := false,
      cameras := [], pending := None, active := None, stopTrack := None, stopGeneration := 0,
      stream := None, senders := map[], ended := w.ended + Elems(OwnedTracks(w) + shown))
  }

  function AbortStart(start: Start): Start {
    if start.Replacing? || start.RollingBack? then start.(swap := Abort(start.swap, start.swap.peer)) else start
  }

  function AbortStop(stop: Stop): Stop {
    if stop.Restoring? then stop.(swap := Abort(stop.swap, stop.swap.peer)) else stop
  }

  datatype Event =
    | StartRequested(available: bool)
    | Chosen(live: bool, t: Trouble)
    | StartAnswered(ok: bool)
    | StartResumes(t: Trouble)
    | StartReturns
    | CancelRequested
    | StopRequested(t: Trouble)
    | StopAnswered(ok: bool)
    | StopResumes(t: Trouble)
    | StopReturns
    | ScreenEnds
    | EndNoticed(t: Trouble)
    | CameraEnds(number: nat)
    | CameraChosen(stream: Option<Stream>, senders: map<nat, Sender>)
    | AudioChanges(audio: nat)
    | PeerJoins
    | PeerLeaves(peer: nat)
    | RoomChanges(roomActive: bool)
    | Disposed

  function Next(w: Share, e: Event): Share {
    match e
    case StartRequested(available) => RequestStart(w, available)
    case Chosen(live, t) => if w.start.Choosing? then Choose(w, live, t) else w
    case StartAnswered(ok) => AnswerStart(w, ok)
    case StartResumes(t) => if w.start.Replacing? || w.start.RollingBack? then ResumeStart(w, t) else w
    case StartReturns => if w.start.StartSettled? then w.(start := NotStarting) else w
    case CancelRequested => CancelPendingStart(w)
    case StopRequested(t) => RequestStop(w, t)
    case StopAnswered(ok) => AnswerStop(w, ok)
    case StopResumes(t) => if w.stop.Restoring? then ResumeStop(w, t) else w
    case StopReturns =>
      if w.stop.StopSettled? then w.(stop := NotStopping, stopTrack := None, stopGeneration := 0) else w
    case ScreenEnds =>
      w.(ended := w.ended + (if w.pending.Some? then {w.pending.value} else {}) + if w.active.Some? then {w.active.value} else {})
    case EndNoticed(t) => if w.listening && w.active.Some? && w.active.value in w.ended then RequestStop(w, t) else w
    case CameraEnds(number) => EndCamera(w, number)
    case CameraChosen(stream, senders) =>
      if CanChooseCamera(w, stream, senders) then w.(stream := stream, senders := senders) else w
    case AudioChanges(audio) => if w.stream.Some? then w.(stream := Some(w.stream.value.(audio := audio))) else w
    case PeerJoins => if w.disposed then w else AddPeer(w)
    case PeerLeaves(peer) => RemovePeer(w, peer)
    case RoomChanges(roomActive) => if w.disposed then w else w.(roomActive := roomActive)
    case Disposed => Dispose(w)
  }

  /** A session before any share, with any camera and no peers yet. */
  function NewShare(stream: Option<Stream>): Share {
    Share(0, None, None, false, false, [], NotStarting, NotStopping, None, 0, false, false, stream, map[], 0, {}, {})
  }

  function Run(stream: Option<Stream>, events: seq<Event>): Share {
    if events == [] then NewShare(stream)
    else Next(Run(stream, events[..|events| - 1]), events[|events| - 1])
  }
}
