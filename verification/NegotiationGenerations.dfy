/** The generations of negotiation ids: which are retired, and that the current one never is. */
module NegotiationGenerations {
  import opened Common
  import opened PeerConnectionLifecycle
  import opened PeerNegotiation
  import opened NegotiationSafety
  import opened NegotiationTasks

  // ----- the retired ids -----

  /** The retired ids of every connection are exact. */
  ghost predicate GenerationInv(w: World) {
    forall o: nat :: o < |w.peers| ==> RetiredExact(w.peers[o])
  }

  /** A step that changes no id. */
  ghost predicate SameGenerations(w: World, w': World) {
    |w'.peers| == |w.peers| && forall o: nat :: o < |w.peers| ==> SameIds(w.peers[o], w'.peers[o])
  }

  lemma SameKeepsGenerations(w: World, w': World)
    requires GenerationInv(w) && SameGenerations(w, w')
    ensures GenerationInv(w')
  {
  }

  lemma MovesKeepGenerations(w: World, preserve: bool)
    requires GenerationInv(w) && CurrentInv(w)
    ensures GenerationInv(Ensure(w)) && GenerationInv(Replace(w, preserve))
  {
    if w.current.Some? {
      RetiringKeepsExact(w.peers[w.current.value]);
    }
  }

  lemma EndingsKeepGenerations(w: World)
    requires GenerationInv(w)
    ensures GenerationInv(Cleanup(w)) && GenerationInv(FailPeer(w)) && GenerationInv(ResetPeer(w)) && GenerationInv(FinishRecovery(w))
  {
  }

  /** The current connection takes an id. */
  lemma NewIdKeepsGenerations(w: World, o: nat, p: Lifecycle, id: NegotiationId)
    requires GenerationInv(w) && w.current == Some(o) && o < |w.peers|
    requires var r := ReplaceNegotiationId(w.peers[o], id); p.retired == r.retired && p.superseded == r.superseded
    ensures GenerationInv(SetPeer(w, o, p))
  {
    RetiringKeepsExact(w.peers[o]);
  }

  lemma StartOfferKeepsGenerations(w: World, id: NegotiationId, stable: bool)
    requires GenerationInv(w) && CurrentInv(w)
    ensures GenerationInv(StartOffer(w, id, stable))
  {
    MovesKeepGenerations(w, true);
    MovesKeepCurrent(w, true);
    var w1 := Ensure(w);
    var o := w1.current.value;
    if StartOffer(w, id, stable) != w1 {
      NewIdKeepsGenerations(w1, o, ReplaceNegotiationId(w1.peers[o], id).(makingOffer := true, remoteDescriptionSet := false), id);
    }
  }

  lemma ReceiveIceKeepsGenerations(w: World, id: NegotiationId, number: nat, failed: bool)
    requires GenerationInv(w) && CurrentInv(w)
    ensures GenerationInv(ReceiveIce(w, id, number, failed))
  {
    MovesKeepGenerations(w, true);
    MovesKeepCurrent(w, true);
    var w1 := Ensure(w);
    var o := w1.current.value;
    if AdoptsOrMatches(w1.peers[o], id) {
      NewIdKeepsGenerations(w1, o, ReceiveIce(w, id, number, failed).peers[o], id);
    }
  }

  /** A failed connection is replaced by one that inherits its retired ids, its own included. */
  lemma ReplacementInherits(w: World, preserve: bool)
    requires GenerationInv(w) && CurrentInv(w) && w.current.Some?
    ensures var former := w.peers[w.current.value];
            var w' := Replace(w, preserve);
            && w'.current == Some(|w.peers|)
            && w'.peers[|w.peers|].retired == RetireCurrent(former).retired
            && w'.peers[|w.peers|].superseded == RetireCurrent(former).superseded
            && w'.peers[|w.peers|].negotiationId == None
            && (forall id: NegotiationId :: id in former.retired && |former.retired| < MAX_RETIRED_NEGOTIATION_IDS
                                            ==> id in w'.peers[|w.peers|].retired)
            && (former.negotiationId.Some? ==> former.negotiationId.value in w'.peers[|w.peers|].retired)
  {
    var former := w.peers[w.current.value];
    RetiringKeepsExact(former);
    NewestPlus(former.retired, if former.negotiationId.Some? then former.negotiationId.value else 0);
  }

  lemma ReceiveOfferKeepsGenerations(w: World, id: NegotiationId, failed: bool)
    requires GenerationInv(w) && CurrentInv(w)
    ensures GenerationInv(ReceiveOffer(w, id, failed))
  {
    MovesKeepGenerations(w, true);
    MovesKeepCurrent(w, true);
    EndingsKeepGenerations(w);
    var w1 := if w.current.Some? && failed then Replace(w, true) else Ensure(w);
    var w' := ReceiveOffer(w, id, failed);
    if w' != w && w' != w1 && w' != FailPeer(w) {
      NewIdKeepsGenerations(w1, w1.current.value, w'.peers[w1.current.value], id);
    }
  }

  lemma ResumeKeepsGenerations(w: World, t: nat, ok: bool, s: Sending)
    requires GenerationInv(w)
    ensures GenerationInv(Resume(w, t, ok, s))
  {
    var w1 := Describe(w, t, ok);
    HandlerContinues(w1, t, ok, s);
    SameKeepsGenerations(w1, Continue(w1, t, ok, s));
    EndingsKeepGenerations(Continue(w1, t, ok, s));
  }

  lemma NextKeepsGenerations(w: World, ev: Event)
    requires GenerationInv(w) && CurrentInv(w)
    ensures GenerationInv(Next(w, ev))
  {
    match ev
    case OfferStarts(id, stable) => StartOfferKeepsGenerations(w, id, stable);
    case OfferArrives(id, failed) => ReceiveOfferKeepsGenerations(w, id, failed && CanFail(w));
    case AnswerArrives(_, _) =>
    case IceArrives(id, number, failed) => ReceiveIceKeepsGenerations(w, id, number, failed && CanFail(w));
    case Gathers(_, _, _, _) => SameKeepsGenerations(w, Next(w, ev));
    case Resumes(t, ok, s) => ResumeKeepsGenerations(w, t, ok, s);
    case PeerReplaced(preserve) => MovesKeepGenerations(w, preserve);
    case PeerRecovered => EndingsKeepGenerations(w);
    case PeerFails => EndingsKeepGenerations(w);
    case PeerCleanedUp => EndingsKeepGenerations(w);
    case PeerReset => EndingsKeepGenerations(w);
  }

  // ----- the current id -----

  /** Nothing has been negotiated on a connection: it was never described, and no handler is about it. */
  ghost predicate Untouched(w: World, o: nat) {
    o !in w.described && forall t: nat :: t in w.tasks ==> w.tasks[t].peer != o
  }

  /**
   Where the current id of a connection stands: a local offer with an id this side made up, a remote
   offer that is being answered, a description on either side, or no more than a candidate.
   */
  ghost predicate IdOk(w: World, own: set<NegotiationId>, o: nat, p: Lifecycle) {
    match p.negotiationId
    case None => p.remoteOffers == {} && Untouched(w, o)
    case Some(id) =>
      && id !in p.retired
      && (id in own || id in p.remoteOffers || p.remoteDescriptionSet || p.published || Untouched(w, o))
  }

  /** `own` are the ids this side has made up for its offers. */
  ghost predicate AliveInv(w: World, own: set<NegotiationId>) {
    && (forall o: nat :: o in w.described ==> o < |w.peers|)
    && (w.current.Some? && w.current.value < |w.peers| ==> IdOk(w, own, w.current.value, w.peers[w.current.value]))
  }

  /**
   An offer that is accepted for a failed connection, although that already has its id: its
   replacement would retire the id and use it at once.
   */
  predicate OvertakenOffer(w: World, id: NegotiationId, failed: bool)
    requires w.current.Some? ==> w.current.value < |w.peers|
  {
    && failed && CanFail(w) && CanAcceptRemoteOffer(w.peers[w.current.value], id)
    && w.peers[w.current.value].negotiationId == Some(id)
  }

  /** A connection that has failed is done with its id: no offer with it is accepted any more. */
  lemma AliveIsNeverOvertaken(w: World, own: set<NegotiationId>, id: NegotiationId, failed: bool)
    requires CurrentInv(w) && AliveInv(w, own) && id !in own
    ensures !OvertakenOffer(w, id, failed)
  {
  }

  lemma MovesKeepAlive(w: World, own: set<NegotiationId>, preserve: bool)
    requires AliveInv(w, own) && CurrentInv(w)
    ensures AliveInv(Ensure(w), own) && AliveInv(Replace(w, preserve), own)
  {
  }

  lemma EndingsKeepAlive(w: World, own: set<NegotiationId>)
    requires AliveInv(w, own) && CurrentInv(w)
    ensures AliveInv(Cleanup(w), own) && AliveInv(FailPeer(w), own) && AliveInv(ResetPeer(w), own) && AliveInv(FinishRecovery(w), own)
  {
  }

  lemma FreshIdIsAlive(p: Lifecycle, id: NegotiationId)
    requires RetiredExact(p) && id !in p.retired
    ensures id !in ReplaceNegotiationId(p, id).retired
  {
    RetiringKeepsExact(p);
  }

  lemma StartOfferKeepsAlive(w: World, own: set<NegotiationId>, id: NegotiationId, stable: bool)
    requires AliveInv(w, own) && CurrentInv(w) && GenerationInv(w)
    ensures AliveInv(StartOffer(w, id, stable), own + {id})
  {
    MovesKeepAlive(w, own, true);
    MovesKeepCurrent(w, true);
    MovesKeepGenerations(w, true);
    var w1 := Ensure(w);
    if StartOffer(w, id, stable) != w1 {
      FreshIdIsAlive(w1.peers[w1.current.value], id);
    }
  }

  /** The offer is accepted by a connection in which its id is not retired. */
  lemma OfferTakenIsAlive(w: World, own: set<NegotiationId>, id: NegotiationId, w': World)
    requires AliveInv(w, own) && CurrentInv(w) && GenerationInv(w) && w.current.Some?
    requires id !in w.peers[w.current.value].retired
    requires var o := w.current.value;
             var p := ReplaceNegotiationId(w.peers[o], id);
             w' == Suspend(SetPeer(w, o, p.(remoteOffers := p.remoteOffers + {id}, remoteDescriptionSet := false)),
                           AnswerTask(o, id, SettingRemote))
    ensures AliveInv(w', own)
  {
    FreshIdIsAlive(w.peers[w.current.value], id);
  }

  lemma ReceiveOfferKeepsAlive(w: World, own: set<NegotiationId>, id: NegotiationId, failed: bool)
    requires AliveInv(w, own) && CurrentInv(w) && GenerationInv(w) && id !in own
    ensures AliveInv(ReceiveOffer(w, id, failed && CanFail(w)), own)
  {
    MovesKeepAlive(w, own, true);
    MovesKeepCurrent(w, true);
    MovesKeepGenerations(w, true);
    EndingsKeepAlive(w, own);
    AliveIsNeverOvertaken(w, own, id, failed);
    var w1 := if w.current.Some? && failed && CanFail(w) then Replace(w, true) else Ensure(w);
    var w' := ReceiveOffer(w, id, failed && CanFail(w));
    if w' != w && w' != w1 && w' != FailPeer(w) {
      if w.current.Some? {
        RetiringKeepsExact(w.peers[w.current.value]);
      }
      OfferTakenIsAlive(w1, own, id, w');
    }
  }

  lemma ReceiveIceKeepsAlive(w: World, own: set<NegotiationId>, id: NegotiationId, number: nat, failed: bool)
    requires AliveInv(w, own) && CurrentInv(w) && GenerationInv(w)
    ensures AliveInv(ReceiveIce(w, id, number, failed), own)
  {
    MovesKeepAlive(w, own, true);
    MovesKeepCurrent(w, true);
    MovesKeepGenerations(w, true);
    var w1 := Ensure(w);
    if AdoptsOrMatches(w1.peers[w1.current.value], id) {
      FreshIdIsAlive(w1.peers[w1.current.value], id);
    }
  }

  // ----- handlers that go on -----

  /** A handler is about a connection, so that this is not untouched, and its end leaves no more handlers than before. */
  ghost predicate Lessens(w: World, w': World) {
    && w'.current == w.current && w'.described == w.described && |w'.peers| == |w.peers|
    && forall t: nat :: t in w'.tasks ==> t in w.tasks && w'.tasks[t].peer == w.tasks[t].peer
  }

  /** What a connection knows about its current id has not become less. */
  ghost predicate StaysKnown(p: Lifecycle, q: Lifecycle) {
    && SameIds(p, q) && (p.negotiationId == None ==> q.remoteOffers <= p.remoteOffers)
    && (p.negotiationId.Some? && (p.negotiationId.value in p.remoteOffers || p.remoteDescriptionSet || p.published)
        ==> p.negotiationId.value in q.remoteOffers || q.remoteDescriptionSet || q.published)
  }

  lemma KnownKeepsAlive(w: World, own: set<NegotiationId>, w': World)
    requires AliveInv(w, own) && Lessens(w, w')
    requires w.current.Some? && w.current.value < |w.peers| ==> StaysKnown(w.peers[w.current.value], w'.peers[w.current.value])
    ensures AliveInv(w', own)
  {
  }

  lemma ContinueOfferStaysKnown(w: World, o: nat, t: nat, ok: bool, s: Sending)
    requires t in w.tasks && w.tasks[t].OfferTask? && w.tasks[t].peer < |w.peers| && o < |w.peers|
    ensures var w' := ResumeOffer(w, t, ok, s); Lessens(w, w') && StaysKnown(w.peers[o], w'.peers[o])
  {
  }

  lemma ContinueAnswerStaysKnown(w: World, o: nat, t: nat, ok: bool, s: Sending)
    requires CurrentInv(w) && TaskInv(w) && w.current == Some(o)
    requires t in w.tasks && w.tasks[t].AnswerTask? && !Throws(w, t, ok, s)
    ensures var w' := ResumeAnswer(w, t, ok, s); Lessens(w, w') && StaysKnown(w.peers[o], w'.peers[o])
  {
    var task := w.tasks[t];
    match task.stage
    case Flushing(_) => AnswerBeingFlushedStaysKnown(w, o, t, ok, s);
    case SettingRemote => BeginFlushStaysKnown(w, o, t);
    case Creating =>
    case SettingLocal => PublishedStaysKnown(w, o, t, ok, s);
  }

  lemma AnswerBeingFlushedStaysKnown(w: World, o: nat, t: nat, ok: bool, s: Sending)
    requires CurrentInv(w) && TaskInv(w) && w.current == Some(o)
    requires t in w.tasks && w.tasks[t].AnswerTask? && w.tasks[t].stage.Flushing?
    ensures var w' := ResumeAnswer(w, t, ok, s); Lessens(w, w') && StaysKnown(w.peers[o], w'.peers[o])
  {
    var task := w.tasks[t];
    if task.stage.rest != [] {
      FlushStaysKnown(w, o, t, task.stage.rest);
    } else if task.peer == o {
      assert Answers(w.tasks, o, task.id, t);
    }
  }

  lemma FlushStaysKnown(w: World, o: nat, t: nat, waiting: seq<RemoteCandidate>)
    requires t in w.tasks && w.tasks[t].peer < |w.peers| && o < |w.peers|
    ensures var w' := ContinueFlush(w, t, waiting); Lessens(w, w') && StaysKnown(w.peers[o], w'.peers[o])
  {
  }

  lemma BeginFlushStaysKnown(w: World, o: nat, t: nat)
    requires t in w.tasks && w.tasks[t].peer < |w.peers| && o < |w.peers|
    ensures var w' := BeginFlush(w, t); Lessens(w, w') && StaysKnown(w.peers[o], w'.peers[o])
  {
  }

  lemma PublishedStaysKnown(w: World, o: nat, t: nat, ok: bool, s: Sending)
    requires CurrentInv(w) && w.current == Some(o)
    requires t in w.tasks && w.tasks[t].AnswerTask? && w.tasks[t].stage.SettingLocal? && !Throws(w, t, ok, s)
    ensures var w' := ResumeAnswer(w, t, ok, s); Lessens(w, w') && StaysKnown(w.peers[o], w'.peers[o])
  {
  }

  lemma ContinueAnsweredStaysKnown(w: World, o: nat, t: nat, ok: bool)
    requires t in w.tasks && w.tasks[t].AnsweredTask? && w.tasks[t].peer < |w.peers| && o < |w.peers|
    ensures var w' := ResumeAnswered(w, t, ok); Lessens(w, w') && StaysKnown(w.peers[o], w'.peers[o])
  {
  }

  lemma ContinueKeepsAlive(w: World, own: set<NegotiationId>, t: nat, ok: bool, s: Sending)
    requires AliveInv(w, own) && CurrentInv(w) && TaskInv(w) && !Throws(w, t, ok, s)
    ensures AliveInv(Continue(w, t, ok, s), own)
  {
    if t in w.tasks && w.current.Some? {
      var o := w.current.value;
      match w.tasks[t] {
        case OfferTask(_, _, _) => ContinueOfferStaysKnown(w, o, t, ok, s);
        case AnswerTask(_, _, _) => ContinueAnswerStaysKnown(w, o, t, ok, s);
        case AnsweredTask(_, _, _) => ContinueAnsweredStaysKnown(w, o, t, ok);
      }
      KnownKeepsAlive(w, own, Continue(w, t, ok, s));
    }
  }

  /** A handler about a connection may describe it: it was not untouched before. */
  lemma DescribeKeepsAlive(w: World, own: set<NegotiationId>, t: nat, ok: bool)
    requires AliveInv(w, own) && CurrentInv(w)
    ensures AliveInv(Describe(w, t, ok), own)
  {
  }

  lemma ResumeKeepsAlive(w: World, own: set<NegotiationId>, t: nat, ok: bool, s: Sending)
    requires AliveInv(w, own) && CurrentInv(w) && TaskInv(w)
    ensures AliveInv(Resume(w, t, ok, s), own)
  {
    var w1 := Describe(w, t, ok);
    DescribeKeepsAlive(w, own, t, ok);
    if !Throws(w, t, ok, s) {
      ContinueKeepsAlive(w1, own, t, ok, s);
    } else {
      HandlerContinues(w1, t, ok, s);
      DescribedKept(w1, t, ok, s);
    }
  }

  lemma DescribedKept(w: World, t: nat, ok: bool, s: Sending)
    ensures Continue(w, t, ok, s).described == w.described
  {
  }

  /** The ids this side has made up by the event. */
  function OwnAfter(own: set<NegotiationId>, ev: Event): set<NegotiationId> {
    if ev.OfferStarts? then own + {ev.id} else own
  }

  /** Every step keeps the current id alive, unless the other side offers under an id that this side made up. */
  lemma NextKeepsAlive(w: World, own: set<NegotiationId>, ev: Event)
    requires AliveInv(w, own) && CurrentInv(w) && TaskInv(w) && GenerationInv(w)
    requires ev.OfferArrives? ==> ev.id !in own
    ensures AliveInv(Next(w, ev), OwnAfter(own, ev))
  {
    match ev
    case OfferStarts(id, stable) => StartOfferKeepsAlive(w, own, id, stable);
    case OfferArrives(id, failed) => ReceiveOfferKeepsAlive(w, own, id, failed);
    case AnswerArrives(_, _) =>
    case IceArrives(id, number, failed) => ReceiveIceKeepsAlive(w, own, id, number, failed && CanFail(w));
    case Gathers(_, _, _, _) =>
    case Resumes(t, ok, s) => ResumeKeepsAlive(w, own, t, ok, s);
    case PeerReplaced(preserve) => MovesKeepAlive(w, own, preserve);
    case PeerRecovered => EndingsKeepAlive(w, own);
    case PeerFails => EndingsKeepAlive(w, own);
    case PeerCleanedUp => EndingsKeepAlive(w, own);
    case PeerReset => EndingsKeepAlive(w, own);
  }
}
