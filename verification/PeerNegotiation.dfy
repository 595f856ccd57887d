/**
 Offers, answers and candidates exchanged with one other participant (peer-negotiation-lifecycle.ts),
 and what the room session does about a connection that fails (room-session.ts).

 The source is asynchronous: whatever follows an `await` runs later, after any number of other
 handlers, possibly on a connection that has been replaced in the meantime. Here every piece between
 two awaits is one step, and steps may follow each other in any order. What the browser answers, the
 state of the transport and what the recovery timers decide are parameters of the steps.
 */
module PeerNegotiation {
  import opened Common
  import opened PeerConnectionLifecycle

  /** Where a suspended handler continues. `rest` are the candidates still to be added. */
  datatype Stage = SettingRemote | Flushing(rest: seq<RemoteCandidate>) | Creating | SettingLocal

  /** createOffer, handleOffer or handleAnswer, waiting for the browser. */
  datatype Task =
    | OfferTask(peer: nat, id: NegotiationId, stage: Stage)
    | AnswerTask(peer: nat, id: NegotiationId, stage: Stage)
    | AnsweredTask(peer: nat, id: NegotiationId, stage: Stage)

  /** What is sent to the other participant. */
  datatype Relayed = Description(peer: nat, id: NegotiationId) | Ice(peer: nat, id: NegotiationId, number: nat)

  /** A candidate given to a connection, and the id the connection had at that moment. */
  datatype Added = Added(peer: nat, id: Option<NegotiationId>, candidate: RemoteCandidate)

  /**
   All connections there ever were to the participant; at most one of them is the current one.
   `described` are those that were ever given a remote description. An exhausted participant is one
   the room session has given up, and whose signals it refuses.
   */
  datatype World = World(
    peers: seq<Lifecycle>, current: Option<nat>, tasks: map<nat, Task>, nextTask: nat,
    gathered: nat, relayed: seq<Relayed>, added: seq<Added>, described: set<nat>, exhausted: bool)

  const NO_WORLD := World([], None, map[], 0, 0, [], [], {}, false)

  predicate IsCurrentPeer(w: World, o: nat) {
    w.current == Some(o) && o < |w.peers| && !w.peers[o].closed
  }

  predicate IsCurrentNegotiation(w: World, o: nat, id: NegotiationId) {
    IsCurrentPeer(w, o) && w.peers[o].negotiationId == Some(id)
  }

  // ----- the connections -----

  /** ensurePeer. */
  function Ensure(w: World): World {
    if w.current.Some? then w
    else w.(peers := w.peers + [NewLifecycle(0, [], [])], current := Some(|w.peers|))
  }

  /** replacePeer, of a current peer: the replacement inherits the retired ids and, if wanted, the waiting candidates. */
  function Replace(w: World, preserve: bool): World {
    if w.current == None || w.current.value >= |w.peers| then w
    else
      var o := w.current.value;
      var p := RetireCurrent(w.peers[o]);
      var replacement := NewLifecycle(p.connectionAttempt + 1, p.retired, p.superseded).(
        pendingRemote := if preserve then p.pendingRemote else [],
        overflowWarned := preserve && p.overflowWarned);
      w.(peers := w.peers[o := Disposed(p)] + [replacement], current := Some(|w.peers|))
  }

  /** cleanupPeer. */
  function Cleanup(w: World): World {
    if w.current == None || w.current.value >= |w.peers| then w.(current := None)
    else w.(peers := w.peers[w.current.value := Disposed(w.peers[w.current.value])], current := None)
  }

  /** failPeer: the connection is closed, and nothing is accepted from the participant any more. */
  function FailPeer(w: World): World {
    Cleanup(w).(exhausted := true)
  }

  /** The participant is made anew: it asks to reconnect, leaves, or the room is entered again. */
  function ResetPeer(w: World): World {
    Cleanup(w).(exhausted := false)
  }

  /** The end of a recovery: the connection counts as a first attempt again. */
  function FinishRecovery(w: World): World {
    if w.current == None || w.current.value >= |w.peers| then w
    else w.(peers := w.peers[w.current.value := w.peers[w.current.value].(connectionAttempt := 0)])
  }

  function SetPeer(w: World, o: nat, p: Lifecycle): World
    requires o < |w.peers|
  {
    w.(peers := w.peers[o := p])
  }

  function Suspend(w: World, task: Task): World {
    w.(tasks := w.tasks[w.nextTask := task], nextTask := w.nextTask + 1)
  }

  // ----- sending candidates and descriptions -----

  /** The candidates that match the current negotiation, in order. */
  function Matching(p: Lifecycle, candidates: seq<LocalCandidate>): (r: seq<LocalCandidate>)
    ensures |r| <= |candidates|
    ensures forall c :: c in r ==> c in candidates
  {
    if candidates == [] then []
    else (if CandidateMatches(p, candidates[0]) then [candidates[0]] else []) + Matching(p, candidates[1..])
  }

  function IceOf(o: nat, id: NegotiationId, candidates: seq<LocalCandidate>): (r: seq<Relayed>)
    ensures |r| == |candidates|
    ensures forall i :: 0 <= i < |r| ==> r[i] == Ice(o, id, candidates[i].number)
  {
    if candidates == [] then [] else [Ice(o, id, candidates[0].number)] + IceOf(o, id, candidates[1..])
  }

  /** What the environment contributes to a step that may send. */
  datatype Sending = Sending(open: bool, reconnecting: bool, sent: nat, fragments: set<nat>)

  /** The waiting candidates that go out with a description. */
  function Going(p: Lifecycle, s: Sending): seq<LocalCandidate> {
    var matching := if s.reconnecting then [] else Matching(p, p.pendingLocal);
    if s.sent < |matching| then matching[..s.sent] else matching
  }

  /**
   The end of createOffer and handleOffer. Sending throws when the transport is closed: then nothing
   is published; a candidate may fail to be sent later, and the rest with it.
   */
  function Publish(w: World, o: nat, id: NegotiationId, s: Sending): World
    requires o < |w.peers|
  {
    var p := w.peers[o].(fragments := s.fragments);
    if !s.open then SetPeer(w, o, p)
    else
      SetPeer(w, o, p.(published := true, pendingLocal := [])).(
        relayed := w.relayed + ([Description(o, id)] + IceOf(o, id, Going(p, s))))
  }

  // ----- createOffer -----

  /** `id` is what the generator came up with; `stable` is whether the signaling state is stable. */
  function StartOffer(w: World, id: NegotiationId, stable: bool): World {
    var w1 := Ensure(w);
    var o := w1.current.value;
    if o >= |w1.peers| then w1
    else
      var p := w1.peers[o];
      if p.makingOffer || p.remoteOffers != {} || !stable || p.negotiationId == Some(id) || id in p.retired then w1
      else
        Suspend(SetPeer(w1, o, ReplaceNegotiationId(p, id).(makingOffer := true, remoteDescriptionSet := false)),
                OfferTask(o, id, Creating))
  }

  function EndOffer(w: World, t: nat): World
    requires t in w.tasks && w.tasks[t].peer < |w.peers|
  {
    var o := w.tasks[t].peer;
    SetPeer(w, o, w.peers[o].(makingOffer := false)).(tasks := w.tasks - {t})
  }

  function ResumeOffer(w: World, t: nat, ok: bool, s: Sending): World
    requires t in w.tasks && w.tasks[t].OfferTask? && w.tasks[t].peer < |w.peers|
  {
    var task := w.tasks[t];
    if !ok || !IsCurrentNegotiation(w, task.peer, task.id) then EndOffer(w, t)
    else if task.stage.Creating? then w.(tasks := w.tasks[t := task.(stage := SettingLocal)])
    else EndOffer(Publish(w, task.peer, task.id, s), t)
  }

  // ----- handleOffer -----

  function ReceiveOffer(w: World, id: NegotiationId, failed: bool): World {
    if w.current.Some? && w.current.value < |w.peers| && !CanAcceptRemoteOffer(w.peers[w.current.value], id) then w
    else if w.current.Some? && w.current.value < |w.peers| && failed && w.peers[w.current.value].connectionAttempt > 0
    then FailPeer(w)
    else
      var w1 := if w.current.Some? && failed then Replace(w, true) else Ensure(w);
      var o := w1.current.value;
      if o >= |w1.peers| then w1
      else
        var p := ReplaceNegotiationId(w1.peers[o], id);
        Suspend(SetPeer(w1, o, p.(remoteOffers := p.remoteOffers + {id}, remoteDescriptionSet := false)),
                AnswerTask(o, id, SettingRemote))
  }

  function EndAnswer(w: World, t: nat): World
    requires t in w.tasks && w.tasks[t].peer < |w.peers|
  {
    var o := w.tasks[t].peer;
    SetPeer(w, o, w.peers[o].(remoteOffers := w.peers[o].remoteOffers - {w.tasks[t].id})).(tasks := w.tasks - {t})
  }

  /** The start of flushPendingCandidates: take the waiting candidates and add the first. */
  function BeginFlush(w: World, t: nat): World
    requires t in w.tasks && w.tasks[t].peer < |w.peers|
  {
    var task := w.tasks[t];
    var p := w.peers[task.peer];
    var waiting := p.pendingRemote;
    var w1 := SetPeer(w, task.peer, p.(remoteDescriptionSet := true, pendingRemote := [], overflowWarned := false));
    ContinueFlush(w1, t, waiting)
  }

  /** One round of the loop, or its end; either way the handler continues later. */
  function ContinueFlush(w: World, t: nat, waiting: seq<RemoteCandidate>): World
    requires t in w.tasks && w.tasks[t].peer < |w.peers|
  {
    var task := w.tasks[t];
    if waiting == [] || !IsCurrentNegotiation(w, task.peer, task.id) then
      w.(tasks := w.tasks[t := task.(stage := Flushing([]))])
    else
      w.(tasks := w.tasks[t := task.(stage := Flushing(waiting[1..]))],
         added := w.added + [Added(task.peer, w.peers[task.peer].negotiationId, waiting[0])])
  }

  function ResumeAnswer(w: World, t: nat, ok: bool, s: Sending): World
    requires t in w.tasks && w.tasks[t].AnswerTask? && w.tasks[t].peer < |w.peers|
  {
    var task := w.tasks[t];
    match task.stage
    case Flushing(rest) =>
      if rest != [] then ContinueFlush(w, t, rest)
      else if !IsCurrentNegotiation(w, task.peer, task.id) then EndAnswer(w, t)
      else SetPeer(w, task.peer, ResetLocalDescription(w.peers[task.peer])).(tasks := w.tasks[t := task.(stage := Creating)])
    case SettingRemote =>
      if !ok || !IsCurrentNegotiation(w, task.peer, task.id) then EndAnswer(w, t) else BeginFlush(w, t)
    case Creating =>
      if !ok || !IsCurrentNegotiation(w, task.peer, task.id) then EndAnswer(w, t)
      else w.(tasks := w.tasks[t := task.(stage := SettingLocal)])
    case SettingLocal =>
      if !ok || !IsCurrentNegotiation(w, task.peer, task.id) then EndAnswer(w, t)
      else EndAnswer(Publish(w, task.peer, task.id, s), t)
  }

  // ----- handleAnswer -----

  /** `haveLocalOffer` is the signaling state. */
  function ReceiveAnswer(w: World, id: NegotiationId, haveLocalOffer: bool): World {
    if w.current == None || w.current.value >= |w.peers| then w
    else
      var p := w.peers[w.current.value];
      if !MatchesNegotiation(p, id) || !p.published || !haveLocalOffer then w
      else Suspend(w, AnsweredTask(w.current.value, id, SettingRemote))
  }

  function ResumeAnswered(w: World, t: nat, ok: bool): World
    requires t in w.tasks && w.tasks[t].AnsweredTask? && w.tasks[t].peer < |w.peers|
  {
    var task := w.tasks[t];
    match task.stage
    case Flushing(rest) => if rest != [] then ContinueFlush(w, t, rest) else w.(tasks := w.tasks - {t})
    case SettingRemote =>
      if !ok || !IsCurrentNegotiation(w, task.peer, task.id) then w.(tasks := w.tasks - {t}) else BeginFlush(w, t)
    case Creating => w.(tasks := w.tasks - {t})
    case SettingLocal => w.(tasks := w.tasks - {t})
  }

  // ----- candidates -----

  /** handleIce: nothing but a warning follows the await. */
  function ReceiveIce(w: World, id: NegotiationId, number: nat, failed: bool): World {
    var w1 := Ensure(w);
    var o := w1.current.value;
    if o >= |w1.peers| then w1
    else if !AdoptsOrMatches(w1.peers[o], id) then w1
    else
      var p := ReplaceNegotiationId(w1.peers[o], id);
      var candidate := RemoteCandidate(number, id, o);
      if failed || !p.remoteDescriptionSet then SetPeer(w1, o, QueueRemoteCandidate(p, candidate))
      else SetPeer(w1, o, p).(added := w1.added + [Added(o, p.negotiationId, candidate)])
  }

  /** handleLocalIceCandidate. */
  function GatherLocal(w: World, o: nat, fragment: Option<nat>, open: bool, reconnecting: bool): World {
    var candidate := LocalCandidate(w.gathered, fragment);
    var w1 := w.(gathered := w.gathered + 1);
    if !IsCurrentPeer(w, o) || !open then w1
    else
      var p := w.peers[o];
      if !p.published then SetPeer(w1, o, p.(pendingLocal := p.pendingLocal + [candidate]))
      else if p.negotiationId == None || !CandidateMatches(p, candidate) || reconnecting then w1
      else w1.(relayed := w1.relayed + [Ice(o, p.negotiationId.value, candidate.number)])
  }

  // ----- runs -----

  datatype Event =
    | OfferStarts(id: NegotiationId, stable: bool)
    | OfferArrives(id: NegotiationId, failed: bool)
    | AnswerArrives(id: NegotiationId, haveLocalOffer: bool)
    | IceArrives(id: NegotiationId, number: nat, failed: bool)
    | Gathers(peer: nat, fragment: Option<nat>, open: bool, reconnecting: bool)
    | Resumes(task: nat, ok: bool, sending: Sending)
    | PeerReplaced(preserve: bool)
    | PeerRecovered
    | PeerFails
    | PeerCleanedUp
    | PeerReset

  function Continue(w: World, t: nat, ok: bool, s: Sending): World {
    if t !in w.tasks || w.tasks[t].peer >= |w.peers| then w
    else match w.tasks[t]
      case OfferTask(_, _, _) => ResumeOffer(w, t, ok, s)
      case AnswerTask(_, _, _) => ResumeAnswer(w, t, ok, s)
      case AnsweredTask(_, _, _) => ResumeAnswered(w, t, ok)
  }

  /** The transport is closed, or fails before all waiting candidates are sent. */
  predicate SendingThrows(p: Lifecycle, s: Sending) {
    !s.open || (!s.reconnecting && s.sent < |Matching(p.(fragments := s.fragments), p.pendingLocal)|)
  }

  /**
   handleOffer or handleAnswer throws: the browser rejects, or the answer cannot be sent, while the
   negotiation is the current one. What createOffer throws its callers deal with.
   */
  predicate Throws(w: World, t: nat, ok: bool, s: Sending) {
    && t in w.tasks && !w.tasks[t].OfferTask? && IsCurrentNegotiation(w, w.tasks[t].peer, w.tasks[t].id)
    && match w.tasks[t].stage
       case Flushing(_) => false
       case SettingRemote => !ok
       case Creating => !ok
       case SettingLocal => w.tasks[t].AnswerTask? && (!ok || SendingThrows(w.peers[w.tasks[t].peer], s))
  }

  /** The browser has taken a remote description, whether or not the handler still cares. */
  function Describe(w: World, t: nat, ok: bool): World {
    if t in w.tasks && !w.tasks[t].OfferTask? && w.tasks[t].stage.SettingRemote? && ok
    then w.(described := w.described + {w.tasks[t].peer}) else w
  }

  /** A handler goes on; the room session fails the participant if it throws. */
  function Resume(w: World, t: nat, ok: bool, s: Sending): World {
    var w' := Continue(Describe(w, t, ok), t, ok, s);
    if Throws(w, t, ok, s) then FailPeer(w') else w'
  }

  /** A connection can fail once it has a remote description; before that it looks for no route. */
  predicate CanFail(w: World) {
    w.current.Some? && w.current.value in w.described
  }

  function Next(w: World, ev: Event): World {
    match ev
    case OfferStarts(id, stable) => StartOffer(w, id, stable)
    case OfferArrives(id, failed) => if w.exhausted then w else ReceiveOffer(w, id, failed && CanFail(w))
    case AnswerArrives(id, haveLocalOffer) => if w.exhausted then w else ReceiveAnswer(w, id, haveLocalOffer)
    case IceArrives(id, number, failed) => if w.exhausted then w else ReceiveIce(w, id, number, failed && CanFail(w))
    case Gathers(o, fragment, open, reconnecting) => GatherLocal(w, o, fragment, open, reconnecting)
    case Resumes(t, ok, s) => Resume(w, t, ok, s)
    case PeerReplaced(preserve) => Replace(w, preserve)
    case PeerRecovered => FinishRecovery(w)
    case PeerFails => FailPeer(w)
    case PeerCleanedUp => Cleanup(w)
    case PeerReset => ResetPeer(w)
  }

  function Run(events: seq<Event>): World {
    if events == [] then NO_WORLD else Next(Run(events[..|events| - 1]), events[|events| - 1])
  }
}
