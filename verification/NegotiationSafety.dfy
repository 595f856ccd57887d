/** What holds of the negotiation whatever the order in which its suspended handlers continue. */
module NegotiationSafety {
  import opened Common
  import opened PeerConnectionLifecycle
  import opened PeerNegotiation

  // ----- what has been relayed -----

  ghost predicate Described(relayed: seq<Relayed>, o: nat, id: NegotiationId) {
    Description(o, id) in relayed
  }

  /** A candidate is only relayed after a description with its id, and in gathering order. */
  ghost predicate RelayedOk(relayed: seq<Relayed>, gathered: nat) {
    && (forall i :: 0 <= i < |relayed| && relayed[i].Ice? ==>
          Described(relayed[..i], relayed[i].peer, relayed[i].id) && relayed[i].number < gathered)
    && (forall i, j :: 0 <= i < j < |relayed| && relayed[i].Ice? && relayed[j].Ice? && relayed[i].peer == relayed[j].peer
                       ==> relayed[i].number < relayed[j].number)
  }

  ghost predicate After(relayed: seq<Relayed>, o: nat, number: nat) {
    forall i :: 0 <= i < |relayed| && relayed[i].Ice? && relayed[i].peer == o ==> relayed[i].number < number
  }

  /** A published description was relayed, and the candidates that wait come after those that went out. */
  ghost predicate LocalOk(relayed: seq<Relayed>, gathered: nat, o: nat, p: Lifecycle) {
    && (p.published ==> p.negotiationId.Some? && Described(relayed, o, p.negotiationId.value) && p.pendingLocal == [])
    && Increasing(p.pendingLocal)
    && (forall i :: 0 <= i < |p.pendingLocal| ==> p.pendingLocal[i].number < gathered && After(relayed, o, p.pendingLocal[i].number))
  }

  ghost predicate Increasing(candidates: seq<LocalCandidate>) {
    forall i, j :: 0 <= i < j < |candidates| ==> candidates[i].number < candidates[j].number
  }

  ghost predicate RelayInv(w: World) {
    && RelayedOk(w.relayed, w.gathered)
    && forall o: nat :: o < |w.peers| ==> LocalOk(w.relayed, w.gathered, o, w.peers[o])
  }

  lemma {:induction false} MatchingIncreases(p: Lifecycle, candidates: seq<LocalCandidate>)
    requires Increasing(candidates)
    ensures Increasing(Matching(p, candidates))
  {
    if candidates != [] {
      MatchingIncreases(p, candidates[1..]);
      var rest := Matching(p, candidates[1..]);
      forall c | c in rest
        ensures candidates[0].number < c.number
      {
        var i :| 0 <= i < |candidates[1..]| && candidates[1..][i] == c;
        assert candidates[i + 1] == c;
      }
    }
  }

  /** Appending a description and candidates for it. */
  lemma PublishedRelay(relayed: seq<Relayed>, gathered: nat, o: nat, id: NegotiationId, out: seq<LocalCandidate>)
    requires RelayedOk(relayed, gathered) && Increasing(out)
    requires forall i :: 0 <= i < |out| ==> out[i].number < gathered && After(relayed, o, out[i].number)
    ensures var more := relayed + ([Description(o, id)] + IceOf(o, id, out));
            RelayedOk(more, gathered) && Described(more, o, id)
  {
    var ices := IceOf(o, id, out);
    var more := relayed + ([Description(o, id)] + ices);
    assert more[|relayed|] == Description(o, id);
    forall i | 0 <= i < |more| && more[i].Ice?
      ensures Described(more[..i], more[i].peer, more[i].id) && more[i].number < gathered
    {
      if i < |relayed| {
        assert more[..i] == relayed[..i];
      } else {
        assert more[i] == ices[i - |relayed| - 1];
        assert more[..i][|relayed|] == Description(o, id);
      }
    }
  }

  lemma OneMoreIce(relayed: seq<Relayed>, gathered: nat, o: nat, id: NegotiationId, number: nat)
    requires RelayedOk(relayed, gathered) && Described(relayed, o, id) && number == gathered
    ensures RelayedOk(relayed + [Ice(o, id, number)], gathered + 1)
  {
    var more := relayed + [Ice(o, id, number)];
    forall i | 0 <= i < |more| && more[i].Ice?
      ensures Described(more[..i], more[i].peer, more[i].id) && more[i].number < gathered + 1
    {
      assert more[..i] == relayed[..i];
      if i == |relayed| {
        assert relayed[..i] == relayed;
      }
    }
  }

  /** What is relayed for one connection does not concern the others. */
  lemma OthersUnconcerned(relayed: seq<Relayed>, more: seq<Relayed>, gathered: nat, later: nat, o: nat, p: Lifecycle)
    requires LocalOk(relayed, gathered, o, p) && gathered <= later
    requires forall i :: 0 <= i < |more| ==> more[i].peer != o
    ensures LocalOk(relayed + more, later, o, p)
  {
  }

  lemma GoingOk(relayed: seq<Relayed>, gathered: nat, o: nat, p: Lifecycle, s: Sending)
    requires LocalOk(relayed, gathered, o, p)
    ensures Increasing(Going(p, s))
    ensures forall i :: 0 <= i < |Going(p, s)| ==> Going(p, s)[i].number < gathered && After(relayed, o, Going(p, s)[i].number)
  {
    MatchingIncreases(p, p.pendingLocal);
    var matching := Matching(p, p.pendingLocal);
    forall i | 0 <= i < |Going(p, s)|
      ensures Going(p, s)[i].number < gathered && After(relayed, o, Going(p, s)[i].number)
    {
      assert Going(p, s)[i] == matching[i] && matching[i] in p.pendingLocal;
    }
  }

  /** More is relayed for one connection, which changes. */
  lemma AppendKeepsRelay(w: World, o: nat, p: Lifecycle, more: seq<Relayed>, w': World)
    requires RelayInv(w) && o < |w.peers| && w' == SetPeer(w, o, p).(relayed := w.relayed + more)
    requires forall i :: 0 <= i < |more| ==> more[i].peer == o
    requires RelayedOk(w.relayed + more, w.gathered) && LocalOk(w.relayed + more, w.gathered, o, p)
    ensures RelayInv(w')
  {
  }

  lemma PublishKeepsRelay(w: World, o: nat, id: NegotiationId, s: Sending)
    requires RelayInv(w) && o < |w.peers| && w.peers[o].negotiationId == Some(id)
    ensures RelayInv(Publish(w, o, id, s))
  {
    var p := w.peers[o].(fragments := s.fragments);
    if s.open {
      var more := [Description(o, id)] + IceOf(o, id, Going(p, s));
      GoingOk(w.relayed, w.gathered, o, p, s);
      PublishedRelay(w.relayed, w.gathered, o, id, Going(p, s));
      AppendKeepsRelay(w, o, p.(published := true, pendingLocal := []), more, Publish(w, o, id, s));
    }
  }

  lemma GatherKeepsRelay(w: World, o: nat, fragment: Option<nat>, open: bool, reconnecting: bool)
    requires RelayInv(w)
    ensures RelayInv(GatherLocal(w, o, fragment, open, reconnecting))
  {
    var w' := GatherLocal(w, o, fragment, open, reconnecting);
    GatheredOne(w);
    if IsCurrentPeer(w, o) && open {
      var p := w.peers[o];
      if !p.published {
        QueueOne(w.relayed, w.gathered, o, p, LocalCandidate(w.gathered, fragment));
      } else if w'.relayed != w.relayed {
        var more := [Ice(o, p.negotiationId.value, w.gathered)];
        OneMoreIce(w.relayed, w.gathered, o, p.negotiationId.value, w.gathered);
        forall q: nat | q < |w.peers|
          ensures LocalOk(w.relayed + more, w.gathered + 1, q, w.peers[q])
        {
          if q != o {
            OthersUnconcerned(w.relayed, more, w.gathered, w.gathered + 1, q, w.peers[q]);
          }
        }
      }
    }
  }

  lemma GatheredOne(w: World)
    requires RelayInv(w)
    ensures RelayInv(w.(gathered := w.gathered + 1))
  {
  }

  lemma QueueOne(relayed: seq<Relayed>, gathered: nat, o: nat, p: Lifecycle, candidate: LocalCandidate)
    requires LocalOk(relayed, gathered, o, p) && !p.published && candidate.number == gathered
    requires RelayedOk(relayed, gathered)
    ensures LocalOk(relayed, gathered + 1, o, p.(pendingLocal := p.pendingLocal + [candidate]))
  {
  }

  // ----- which connection is the current one -----

  ghost predicate CurrentInv(w: World) {
    && (w.current.Some? ==> w.current.value + 1 == |w.peers| && !w.peers[w.current.value].closed)
    && (forall o: nat :: o < |w.peers| && !w.peers[o].closed ==> w.current == Some(o))
    && (forall t: nat :: t in w.tasks ==> t < w.nextTask && w.tasks[t].peer < |w.peers|)
  }

  ghost predicate SameIds(p: Lifecycle, q: Lifecycle) {
    && q.closed == p.closed && q.negotiationId == p.negotiationId && q.connectionAttempt == p.connectionAttempt
    && q.retired == p.retired && q.superseded == p.superseded
  }

  /** A continuation moves no connection, changes no id, and ends at most itself. */
  ghost predicate Continues(w: World, w': World) {
    && w'.current == w.current && w'.nextTask == w.nextTask && w'.gathered == w.gathered && |w'.peers| == |w.peers|
    && (forall o: nat :: o < |w.peers| ==> SameIds(w.peers[o], w'.peers[o]))
    && (forall t: nat :: t in w'.tasks ==> t in w.tasks && w'.tasks[t].peer == w.tasks[t].peer)
  }

  lemma ContinuingKeepsCurrent(w: World, w': World)
    requires CurrentInv(w) && Continues(w, w')
    ensures CurrentInv(w')
  {
  }

  lemma FlushContinues(w: World, t: nat, waiting: seq<RemoteCandidate>)
    requires t in w.tasks && w.tasks[t].peer < |w.peers|
    ensures Continues(w, ContinueFlush(w, t, waiting))
  {
  }

  lemma BeginFlushContinues(w: World, t: nat)
    requires t in w.tasks && w.tasks[t].peer < |w.peers|
    ensures Continues(w, BeginFlush(w, t))
  {
  }

  lemma ResumeOfferContinues(w: World, t: nat, ok: bool, s: Sending)
    requires t in w.tasks && w.tasks[t].OfferTask? && w.tasks[t].peer < |w.peers|
    ensures Continues(w, ResumeOffer(w, t, ok, s))
  {
  }

  lemma ResumeAnswerContinues(w: World, t: nat, ok: bool, s: Sending)
    requires t in w.tasks && w.tasks[t].AnswerTask? && w.tasks[t].peer < |w.peers|
    ensures Continues(w, ResumeAnswer(w, t, ok, s))
  {
    var task := w.tasks[t];
    match task.stage
    case Flushing(rest) => FlushContinues(w, t, rest);
    case SettingRemote =>
      BeginFlushContinues(w, t);
      EndAnswerContinues(w, t);
    case Creating => EndAnswerContinues(w, t);
    case SettingLocal =>
      EndAnswerContinues(w, t);
      PublishContinues(w, task.peer, task.id, s);
      EndAnswerContinues(Publish(w, task.peer, task.id, s), t);
  }

  lemma EndAnswerContinues(w: World, t: nat)
    requires t in w.tasks && w.tasks[t].peer < |w.peers|
    ensures Continues(w, EndAnswer(w, t))
  {
  }

  lemma PublishContinues(w: World, o: nat, id: NegotiationId, s: Sending)
    requires o < |w.peers|
    ensures Continues(w, Publish(w, o, id, s)) && Publish(w, o, id, s).tasks == w.tasks
  {
  }

  lemma HandlerContinues(w: World, t: nat, ok: bool, s: Sending)
    ensures Continues(w, Continue(w, t, ok, s))
  {
    if t in w.tasks && w.tasks[t].peer < |w.peers| {
      match w.tasks[t]
      case OfferTask(_, _, _) => ResumeOfferContinues(w, t, ok, s);
      case AnswerTask(_, _, _) => ResumeAnswerContinues(w, t, ok, s);
      case AnsweredTask(_, _, stage) =>
        BeginFlushContinues(w, t);
        FlushContinues(w, t, if stage.Flushing? then stage.rest else []);
    }
  }

  lemma MovesKeepCurrent(w: World, preserve: bool)
    requires CurrentInv(w)
    ensures CurrentInv(Ensure(w)) && CurrentInv(Replace(w, preserve))
  {
  }

  lemma EndingsKeepCurrent(w: World)
    requires CurrentInv(w)
    ensures CurrentInv(Cleanup(w)) && CurrentInv(FailPeer(w)) && CurrentInv(ResetPeer(w)) && CurrentInv(FinishRecovery(w))
  {
  }

  lemma ResumeKeepsCurrent(w: World, t: nat, ok: bool, s: Sending)
    requires CurrentInv(w)
    ensures CurrentInv(Resume(w, t, ok, s))
  {
    var w1 := Describe(w, t, ok);
    HandlerContinues(w1, t, ok, s);
    ContinuingKeepsCurrent(w1, Continue(w1, t, ok, s));
    EndingsKeepCurrent(Continue(w1, t, ok, s));
  }

  lemma StartOfferKeepsCurrent(w: World, id: NegotiationId, stable: bool)
    requires CurrentInv(w)
    ensures CurrentInv(StartOffer(w, id, stable))
  {
  }

  lemma ReceiveOfferKeepsCurrent(w: World, id: NegotiationId, failed: bool)
    requires CurrentInv(w)
    ensures CurrentInv(ReceiveOffer(w, id, failed))
  {
    MovesKeepCurrent(w, true);
    EndingsKeepCurrent(w);
    var w1 := if w.current.Some? && failed then Replace(w, true) else Ensure(w);
    var w' := ReceiveOffer(w, id, failed);
    if w' != w && w' != w1 && w' != FailPeer(w) {
      TakenKeepsCurrent(w1, w1.current.value, w'.peers[w1.current.value], AnswerTask(w1.current.value, id, SettingRemote));
    }
  }

  /** A handler starts on the current connection. */
  lemma TakenKeepsCurrent(w: World, o: nat, p: Lifecycle, task: Task)
    requires CurrentInv(w) && w.current == Some(o) && !p.closed && task.peer == o
    ensures CurrentInv(Suspend(SetPeer(w, o, p), task))
  {
  }

  lemma ReceiveIceKeepsCurrent(w: World, id: NegotiationId, number: nat, failed: bool)
    requires CurrentInv(w)
    ensures CurrentInv(ReceiveIce(w, id, number, failed))
  {
  }

  lemma NextKeepsCurrent(w: World, ev: Event)
    requires CurrentInv(w)
    ensures CurrentInv(Next(w, ev))
  {
    match ev
    case OfferStarts(id, stable) => StartOfferKeepsCurrent(w, id, stable);
    case OfferArrives(id, failed) => ReceiveOfferKeepsCurrent(w, id, failed && CanFail(w));
    case AnswerArrives(_, _) =>
    case IceArrives(id, number, failed) => ReceiveIceKeepsCurrent(w, id, number, failed && CanFail(w));
    case Gathers(_, _, _, _) =>
    case Resumes(t, ok, s) => ResumeKeepsCurrent(w, t, ok, s);
    case PeerReplaced(preserve) => MovesKeepCurrent(w, preserve);
    case PeerRecovered => EndingsKeepCurrent(w);
    case PeerFails => EndingsKeepCurrent(w);
    case PeerCleanedUp => EndingsKeepCurrent(w);
    case PeerReset => EndingsKeepCurrent(w);
  }

  // ----- relaying, over every step -----

  lemma ReplacingKeepsLocal(relayed: seq<Relayed>, gathered: nat, o: nat, p: Lifecycle, id: NegotiationId)
    requires LocalOk(relayed, gathered, o, p)
    ensures LocalOk(relayed, gathered, o, ReplaceNegotiationId(p, id))
    ensures LocalOk(relayed, gathered, o, Disposed(RetireCurrent(p)))
    ensures LocalOk(relayed, gathered, o, Disposed(p)) && LocalOk(relayed, gathered, o, ResetLocalDescription(p))
  {
  }

  lemma ReplaceKeepsRelay(w: World, preserve: bool)
    requires RelayInv(w)
    ensures RelayInv(Replace(w, preserve))
  {
  }

  lemma CleanupKeepsRelay(w: World)
    requires RelayInv(w)
    ensures RelayInv(Cleanup(w)) && RelayInv(FailPeer(w)) && RelayInv(ResetPeer(w)) && RelayInv(FinishRecovery(w))
  {
  }

  lemma StartOfferKeepsRelay(w: World, id: NegotiationId, stable: bool)
    requires RelayInv(w)
    ensures RelayInv(StartOffer(w, id, stable))
  {
  }

  /** Whatever is changed of a connection, as long as what it has to send is in order. */
  lemma SetKeepsRelay(w: World, o: nat, p: Lifecycle, w': World)
    requires RelayInv(w) && o < |w.peers| && LocalOk(w.relayed, w.gathered, o, p)
    requires w'.peers == w.peers[o := p] && w'.relayed == w.relayed && w'.gathered == w.gathered
    ensures RelayInv(w')
  {
  }

  lemma OfferTakenKeepsRelay(w: World, id: NegotiationId, w': World)
    requires RelayInv(w) && w.current.Some? && w.current.value < |w.peers|
    requires var o := w.current.value;
             var p := ReplaceNegotiationId(w.peers[o], id);
             w' == Suspend(SetPeer(w, o, p.(remoteOffers := p.remoteOffers + {id}, remoteDescriptionSet := false)),
                           AnswerTask(o, id, SettingRemote))
    ensures RelayInv(w')
  {
    var o := w.current.value;
    ReplacingKeepsLocal(w.relayed, w.gathered, o, w.peers[o], id);
    SetKeepsRelay(w, o, w'.peers[o], w');
  }

  lemma ReceiveOfferKeepsRelay(w: World, id: NegotiationId, failed: bool)
    requires RelayInv(w)
    ensures RelayInv(ReceiveOffer(w, id, failed))
  {
    var w1 := if w.current.Some? && failed then Replace(w, true) else Ensure(w);
    ReplaceKeepsRelay(w, true);
    CleanupKeepsRelay(w);
    EnsureKeepsRelay(w);
    var w' := ReceiveOffer(w, id, failed);
    if w' != w && w' != w1 && w' != FailPeer(w) {
      OfferTakenKeepsRelay(w1, id, w');
    }
  }

  lemma EnsureKeepsRelay(w: World)
    requires RelayInv(w)
    ensures RelayInv(Ensure(w))
  {
  }

  lemma ReceiveIceKeepsRelay(w: World, id: NegotiationId, number: nat, failed: bool)
    requires RelayInv(w)
    ensures RelayInv(ReceiveIce(w, id, number, failed))
  {
  }

  lemma EndsKeepRelay(w: World, t: nat)
    requires RelayInv(w) && t in w.tasks && w.tasks[t].peer < |w.peers|
    ensures RelayInv(EndOffer(w, t)) && RelayInv(EndAnswer(w, t))
  {
  }

  lemma FlushKeepsRelay(w: World, t: nat, waiting: seq<RemoteCandidate>)
    requires RelayInv(w) && t in w.tasks && w.tasks[t].peer < |w.peers|
    ensures RelayInv(ContinueFlush(w, t, waiting)) && RelayInv(BeginFlush(w, t))
  {
    var o := w.tasks[t].peer;
    SetKeepsRelay(w, o, w.peers[o], ContinueFlush(w, t, waiting));
    var w' := BeginFlush(w, t);
    assert w'.peers[o] == w.peers[o].(remoteDescriptionSet := true, pendingRemote := [], overflowWarned := false);
    SetKeepsRelay(w, o, w'.peers[o], w');
  }

  lemma ResumeOfferKeepsRelay(w: World, t: nat, ok: bool, s: Sending)
    requires RelayInv(w) && t in w.tasks && w.tasks[t].OfferTask? && w.tasks[t].peer < |w.peers|
    ensures RelayInv(ResumeOffer(w, t, ok, s))
  {
    var task := w.tasks[t];
    if !ok || !IsCurrentNegotiation(w, task.peer, task.id) {
      EndsKeepRelay(w, t);
    } else if !task.stage.Creating? {
      PublishKeepsRelay(w, task.peer, task.id, s);
      EndsKeepRelay(Publish(w, task.peer, task.id, s), t);
    }
  }

  lemma ResumeAnswerKeepsRelay(w: World, t: nat, ok: bool, s: Sending)
    requires RelayInv(w) && t in w.tasks && w.tasks[t].AnswerTask? && w.tasks[t].peer < |w.peers|
    ensures RelayInv(ResumeAnswer(w, t, ok, s))
  {
    var task := w.tasks[t];
    EndsKeepRelay(w, t);
    FlushKeepsRelay(w, t, if task.stage.Flushing? then task.stage.rest else []);
    ReplacingKeepsLocal(w.relayed, w.gathered, task.peer, w.peers[task.peer], 0);
    if task.stage.SettingLocal? && IsCurrentNegotiation(w, task.peer, task.id) {
      PublishKeepsRelay(w, task.peer, task.id, s);
      EndsKeepRelay(Publish(w, task.peer, task.id, s), t);
    }
  }

  lemma ContinueKeepsRelay(w: World, t: nat, ok: bool, s: Sending)
    requires RelayInv(w)
    ensures RelayInv(Continue(w, t, ok, s))
  {
    if t in w.tasks && w.tasks[t].peer < |w.peers| {
      match w.tasks[t]
      case OfferTask(_, _, _) => ResumeOfferKeepsRelay(w, t, ok, s);
      case AnswerTask(_, _, _) => ResumeAnswerKeepsRelay(w, t, ok, s);
      case AnsweredTask(_, _, stage) => FlushKeepsRelay(w, t, if stage.Flushing? then stage.rest else []);
    }
  }

  lemma ResumeKeepsRelay(w: World, t: nat, ok: bool, s: Sending)
    requires RelayInv(w)
    ensures RelayInv(Resume(w, t, ok, s))
  {
    var w1 := Describe(w, t, ok);
    ContinueKeepsRelay(w1, t, ok, s);
    CleanupKeepsRelay(Continue(w1, t, ok, s));
  }

  lemma NextKeepsRelay(w: World, ev: Event)
    requires RelayInv(w)
    ensures RelayInv(Next(w, ev))
  {
    match ev
    case OfferStarts(id, stable) => StartOfferKeepsRelay(w, id, stable);
    case OfferArrives(id, failed) => ReceiveOfferKeepsRelay(w, id, failed && CanFail(w));
    case AnswerArrives(_, _) =>
    case IceArrives(id, number, failed) => ReceiveIceKeepsRelay(w, id, number, failed && CanFail(w));
    case Gathers(o, fragment, open, reconnecting) => GatherKeepsRelay(w, o, fragment, open, reconnecting);
    case Resumes(t, ok, s) => ResumeKeepsRelay(w, t, ok, s);
    case PeerReplaced(preserve) => ReplaceKeepsRelay(w, preserve);
    case PeerRecovered => CleanupKeepsRelay(w);
    case PeerFails => CleanupKeepsRelay(w);
    case PeerCleanedUp => CleanupKeepsRelay(w);
    case PeerReset => CleanupKeepsRelay(w);
  }

  // ----- the other side's candidates -----

  ghost predicate CandidatesFor(candidates: seq<RemoteCandidate>, o: nat, id: NegotiationId) {
    forall i :: 0 <= i < |candidates| ==> candidates[i].id == id && candidates[i].connection == o
  }

  /** Candidates wait under the id they arrived with; what a replacement inherits waits for no id. */
  ghost predicate RemoteOk(o: nat, p: Lifecycle) {
    && (p.negotiationId.Some? ==> CandidatesFor(p.pendingRemote, o, p.negotiationId.value))
    && |p.pendingRemote| <= MAX_PENDING_REMOTE_ICE_CANDIDATES
  }

  ghost predicate RestOk(task: Task) {
    task.stage.Flushing? ==> CandidatesFor(task.stage.rest, task.peer, task.id)
  }

  /** A candidate is added to the connection it arrived at, under the id it arrived with. */
  ghost predicate AddedOk(a: Added) {
    a.id == Some(a.candidate.id) && a.candidate.connection == a.peer
  }

  ghost predicate RemoteInv(w: World) {
    && (forall o: nat :: o < |w.peers| ==> RemoteOk(o, w.peers[o]))
    && (forall t: nat :: t in w.tasks ==> RestOk(w.tasks[t]))
    && (forall i :: 0 <= i < |w.added| ==> AddedOk(w.added[i]))
  }

  lemma MovesKeepRemote(w: World, preserve: bool)
    requires RemoteInv(w)
    ensures RemoteInv(Ensure(w)) && RemoteInv(Replace(w, preserve))
  {
  }

  lemma EndingsKeepRemote(w: World)
    requires RemoteInv(w)
    ensures RemoteInv(Cleanup(w)) && RemoteInv(FailPeer(w)) && RemoteInv(ResetPeer(w)) && RemoteInv(FinishRecovery(w))
  {
  }

  lemma StartOfferKeepsRemote(w: World, id: NegotiationId, stable: bool)
    requires RemoteInv(w)
    ensures RemoteInv(StartOffer(w, id, stable))
  {
  }

  lemma ReceiveOfferKeepsRemote(w: World, id: NegotiationId, failed: bool)
    requires RemoteInv(w)
    ensures RemoteInv(ReceiveOffer(w, id, failed))
  {
  }

  lemma ReceiveIceKeepsRemote(w: World, id: NegotiationId, number: nat, failed: bool)
    requires RemoteInv(w)
    ensures RemoteInv(ReceiveIce(w, id, number, failed))
  {
  }

  lemma EndsKeepRemote(w: World, t: nat)
    requires RemoteInv(w) && t in w.tasks && w.tasks[t].peer < |w.peers|
    ensures RemoteInv(EndOffer(w, t)) && RemoteInv(EndAnswer(w, t))
  {
  }

  lemma PublishKeepsRemote(w: World, o: nat, id: NegotiationId, s: Sending)
    requires RemoteInv(w) && o < |w.peers|
    ensures RemoteInv(Publish(w, o, id, s))
  {
  }

  lemma FlushKeepsRemote(w: World, t: nat, waiting: seq<RemoteCandidate>)
    requires RemoteInv(w) && t in w.tasks && w.tasks[t].peer < |w.peers|
    requires CandidatesFor(waiting, w.tasks[t].peer, w.tasks[t].id)
    ensures RemoteInv(ContinueFlush(w, t, waiting))
  {
  }

  lemma BeginFlushKeepsRemote(w: World, t: nat)
    requires RemoteInv(w) && t in w.tasks && w.tasks[t].peer < |w.peers|
    requires w.peers[w.tasks[t].peer].negotiationId == Some(w.tasks[t].id)
    ensures RemoteInv(BeginFlush(w, t))
  {
    var p := w.peers[w.tasks[t].peer];
    var w1 := SetPeer(w, w.tasks[t].peer, p.(remoteDescriptionSet := true, pendingRemote := [], overflowWarned := false));
    assert RemoteOk(w.tasks[t].peer, p);
    FlushKeepsRemote(w1, t, p.pendingRemote);
  }

  lemma ResumeOfferKeepsRemote(w: World, t: nat, ok: bool, s: Sending)
    requires RemoteInv(w) && t in w.tasks && w.tasks[t].OfferTask? && w.tasks[t].peer < |w.peers|
    ensures RemoteInv(ResumeOffer(w, t, ok, s))
  {
  }

  lemma ResumeAnswerKeepsRemote(w: World, t: nat, ok: bool, s: Sending)
    requires RemoteInv(w) && t in w.tasks && w.tasks[t].AnswerTask? && w.tasks[t].peer < |w.peers|
    ensures RemoteInv(ResumeAnswer(w, t, ok, s))
  {
    var task := w.tasks[t];
    assert RestOk(task) && RemoteOk(task.peer, w.peers[task.peer]);
    EndsKeepRemote(w, t);
    match task.stage {
      case Flushing(rest) => FlushKeepsRemote(w, t, rest);
      case SettingRemote =>
        if IsCurrentNegotiation(w, task.peer, task.id) {
          BeginFlushKeepsRemote(w, t);
        }
      case Creating =>
      case SettingLocal =>
        PublishKeepsRemote(w, task.peer, task.id, s);
        EndsKeepRemote(Publish(w, task.peer, task.id, s), t);
    }
  }

  lemma ResumeAnsweredKeepsRemote(w: World, t: nat, ok: bool)
    requires RemoteInv(w) && t in w.tasks && w.tasks[t].AnsweredTask? && w.tasks[t].peer < |w.peers|
    ensures RemoteInv(ResumeAnswered(w, t, ok))
  {
    var task := w.tasks[t];
    assert RestOk(task);
    if task.stage.Flushing? {
      FlushKeepsRemote(w, t, task.stage.rest);
    } else if IsCurrentNegotiation(w, task.peer, task.id) {
      BeginFlushKeepsRemote(w, t);
    }
  }

  lemma ContinueKeepsRemote(w: World, t: nat, ok: bool, s: Sending)
    requires RemoteInv(w)
    ensures RemoteInv(Continue(w, t, ok, s))
  {
    if t in w.tasks && w.tasks[t].peer < |w.peers| {
      match w.tasks[t]
      case OfferTask(_, _, _) => ResumeOfferKeepsRemote(w, t, ok, s);
      case AnswerTask(_, _, _) => ResumeAnswerKeepsRemote(w, t, ok, s);
      case AnsweredTask(_, _, _) => ResumeAnsweredKeepsRemote(w, t, ok);
    }
  }

  lemma ResumeKeepsRemote(w: World, t: nat, ok: bool, s: Sending)
    requires RemoteInv(w)
    ensures RemoteInv(Resume(w, t, ok, s))
  {
    var w1 := Describe(w, t, ok);
    ContinueKeepsRemote(w1, t, ok, s);
    EndingsKeepRemote(Continue(w1, t, ok, s));
  }

  lemma NextKeepsRemote(w: World, ev: Event)
    requires RemoteInv(w)
    ensures RemoteInv(Next(w, ev))
  {
    match ev
    case OfferStarts(id, stable) => StartOfferKeepsRemote(w, id, stable);
    case OfferArrives(id, failed) => ReceiveOfferKeepsRemote(w, id, failed && CanFail(w));
    case AnswerArrives(_, _) =>
    case IceArrives(id, number, failed) => ReceiveIceKeepsRemote(w, id, number, failed && CanFail(w));
    case Gathers(_, _, _, _) =>
    case Resumes(t, ok, s) => ResumeKeepsRemote(w, t, ok, s);
    case PeerReplaced(preserve) => MovesKeepRemote(w, preserve);
    case PeerRecovered => EndingsKeepRemote(w);
    case PeerFails => EndingsKeepRemote(w);
    case PeerCleanedUp => EndingsKeepRemote(w);
    case PeerReset => EndingsKeepRemote(w);
  }
}
