/** The suspended handlers of a negotiation, and what a connection remembers of them. */
module NegotiationTasks {
  import opened Common
  import opened PeerConnectionLifecycle
  import opened PeerNegotiation
  import opened NegotiationSafety

  // ----- one local offer at a time -----

  ghost predicate Offers(tasks: map<nat, Task>, o: nat, t: nat) {
    t in tasks && tasks[t].OfferTask? && tasks[t].peer == o
  }

  ghost predicate Answers(tasks: map<nat, Task>, o: nat, id: NegotiationId, t: nat) {
    t in tasks && tasks[t].AnswerTask? && tasks[t].peer == o && tasks[t].id == id
  }

  /** The flag of a connection says exactly that one createOffer is under way. */
  ghost predicate OffersOk(w: World) {
    && (forall o: nat, t: nat :: Offers(w.tasks, o, t) ==> o < |w.peers| && w.peers[o].makingOffer)
    && (forall o: nat :: o < |w.peers| && w.peers[o].makingOffer ==> exists t: nat :: Offers(w.tasks, o, t))
    && (forall o: nat, t: nat, u: nat :: Offers(w.tasks, o, t) && Offers(w.tasks, o, u) ==> t == u)
  }

  /** An open connection remembers exactly the offers that are being answered, each by one handleOffer. */
  ghost predicate AnswersOk(w: World) {
    && (forall o: nat, id: NegotiationId, t: nat :: Answers(w.tasks, o, id, t) && o < |w.peers| && !w.peers[o].closed
                                                    ==> id in w.peers[o].remoteOffers)
    && (forall o: nat, id: NegotiationId :: o < |w.peers| && id in w.peers[o].remoteOffers
                                            ==> exists t: nat :: Answers(w.tasks, o, id, t))
    && (forall o: nat, id: NegotiationId, t: nat, u: nat ::
          Answers(w.tasks, o, id, t) && Answers(w.tasks, o, id, u) && o < |w.peers| && !w.peers[o].closed ==> t == u)
  }

  ghost predicate TaskInv(w: World) {
    OffersOk(w) && AnswersOk(w)
  }

  /** Nothing that concerns the handlers has changed. */
  ghost predicate SameTasks(w: World, w': World) {
    && (forall o: nat, t: nat :: Offers(w'.tasks, o, t) <==> Offers(w.tasks, o, t))
    && (forall o: nat, id: NegotiationId, t: nat :: Answers(w'.tasks, o, id, t) <==> Answers(w.tasks, o, id, t))
    && |w.peers| <= |w'.peers|
    && (forall o: nat :: o < |w.peers| ==>
          && w'.peers[o].makingOffer == w.peers[o].makingOffer
          && (w.peers[o].closed ==> w'.peers[o].closed)
          && (w'.peers[o].remoteOffers == w.peers[o].remoteOffers || (w'.peers[o].closed && w'.peers[o].remoteOffers == {})))
    && (forall o: nat :: |w.peers| <= o < |w'.peers| ==> !w'.peers[o].makingOffer && w'.peers[o].remoteOffers == {})
  }

  lemma SameKeepsOffers(w: World, w': World)
    requires OffersOk(w) && SameTasks(w, w')
    ensures OffersOk(w')
  {
  }

  lemma SameKeepsAnswers(w: World, w': World)
    requires AnswersOk(w) && SameTasks(w, w') && CurrentInv(w)
    ensures AnswersOk(w')
  {
  }

  lemma SameKeepsTasks(w: World, w': World)
    requires TaskInv(w) && SameTasks(w, w') && CurrentInv(w)
    ensures TaskInv(w')
  {
    SameKeepsOffers(w, w');
    SameKeepsAnswers(w, w');
  }

  lemma MovesKeepTasks(w: World, preserve: bool)
    requires TaskInv(w) && CurrentInv(w)
    ensures TaskInv(Ensure(w)) && TaskInv(Replace(w, preserve))
  {
    SameKeepsTasks(w, Ensure(w));
    SameKeepsTasks(w, Replace(w, preserve));
  }

  lemma EndingsKeepTasks(w: World)
    requires TaskInv(w) && CurrentInv(w)
    ensures TaskInv(Cleanup(w)) && TaskInv(FailPeer(w)) && TaskInv(ResetPeer(w)) && TaskInv(FinishRecovery(w))
  {
    SameKeepsTasks(w, Cleanup(w));
    SameKeepsTasks(w, FinishRecovery(w));
  }

  /** An offer starts on a connection that makes none. */
  lemma OfferBegins(w: World, o: nat, p: Lifecycle, id: NegotiationId)
    requires TaskInv(w) && CurrentInv(w) && o < |w.peers| && !w.peers[o].makingOffer
    requires p.makingOffer && p.remoteOffers == w.peers[o].remoteOffers && p.closed == w.peers[o].closed
    ensures TaskInv(Suspend(SetPeer(w, o, p), OfferTask(o, id, Creating)))
  {
    var w' := Suspend(SetPeer(w, o, p), OfferTask(o, id, Creating));
    forall q: nat, t: nat
      ensures Offers(w'.tasks, q, t) <==> Offers(w.tasks, q, t) || (q == o && t == w.nextTask)
    {
    }
    forall q: nat, i: NegotiationId, t: nat
      ensures Answers(w'.tasks, q, i, t) <==> Answers(w.tasks, q, i, t)
    {
    }
    forall q: nat | q < |w'.peers| && w'.peers[q].makingOffer
      ensures exists t: nat :: Offers(w'.tasks, q, t)
    {
      if q == o {
        assert Offers(w'.tasks, o, w.nextTask);
      } else {
        var t: nat :| Offers(w.tasks, q, t);
        assert Offers(w'.tasks, q, t);
      }
    }
    forall q: nat, i: NegotiationId | q < |w'.peers| && i in w'.peers[q].remoteOffers
      ensures exists t: nat :: Answers(w'.tasks, q, i, t)
    {
      var t: nat :| Answers(w.tasks, q, i, t);
      assert Answers(w'.tasks, q, i, t);
    }
  }

  /** An answer starts for an offer that is not being answered. */
  lemma AnswerBegins(w: World, o: nat, p: Lifecycle, id: NegotiationId)
    requires TaskInv(w) && CurrentInv(w) && o < |w.peers| && id !in w.peers[o].remoteOffers && !w.peers[o].closed
    requires p.makingOffer == w.peers[o].makingOffer && p.remoteOffers == w.peers[o].remoteOffers + {id} && !p.closed
    ensures TaskInv(Suspend(SetPeer(w, o, p), AnswerTask(o, id, SettingRemote)))
  {
    var w' := Suspend(SetPeer(w, o, p), AnswerTask(o, id, SettingRemote));
    forall q: nat, t: nat
      ensures Offers(w'.tasks, q, t) <==> Offers(w.tasks, q, t)
    {
    }
    forall q: nat, i: NegotiationId, t: nat
      ensures Answers(w'.tasks, q, i, t) <==> Answers(w.tasks, q, i, t) || (q == o && i == id && t == w.nextTask)
    {
    }
    forall q: nat | q < |w'.peers| && w'.peers[q].makingOffer
      ensures exists t: nat :: Offers(w'.tasks, q, t)
    {
      var t: nat :| Offers(w.tasks, q, t);
      assert Offers(w'.tasks, q, t);
    }
    forall q: nat, i: NegotiationId | q < |w'.peers| && i in w'.peers[q].remoteOffers
      ensures exists t: nat :: Answers(w'.tasks, q, i, t)
    {
      if q == o && i == id {
        assert Answers(w'.tasks, o, id, w.nextTask);
      } else {
        var t: nat :| Answers(w.tasks, q, i, t);
        assert Answers(w'.tasks, q, i, t);
      }
    }
  }

  lemma OfferEnds(w: World, t: nat)
    requires TaskInv(w) && CurrentInv(w) && t in w.tasks && w.tasks[t].OfferTask?
    ensures TaskInv(EndOffer(w, t))
  {
    var w' := EndOffer(w, t);
    var o := w.tasks[t].peer;
    assert Offers(w.tasks, o, t);
    forall q: nat, u: nat
      ensures Offers(w'.tasks, q, u) <==> Offers(w.tasks, q, u) && u != t
    {
    }
    forall q: nat, i: NegotiationId, u: nat
      ensures Answers(w'.tasks, q, i, u) <==> Answers(w.tasks, q, i, u)
    {
    }
    forall q: nat | q < |w'.peers| && w'.peers[q].makingOffer
      ensures exists u: nat :: Offers(w'.tasks, q, u)
    {
      var u: nat :| Offers(w.tasks, q, u);
      assert Offers(w'.tasks, q, u);
    }
    forall q: nat, i: NegotiationId | q < |w'.peers| && i in w'.peers[q].remoteOffers
      ensures exists u: nat :: Answers(w'.tasks, q, i, u)
    {
      var u: nat :| Answers(w.tasks, q, i, u);
      assert Answers(w'.tasks, q, i, u);
    }
  }

  lemma AnswerEnds(w: World, t: nat)
    requires TaskInv(w) && CurrentInv(w) && t in w.tasks && w.tasks[t].AnswerTask?
    ensures TaskInv(EndAnswer(w, t))
  {
    var w' := EndAnswer(w, t);
    var o := w.tasks[t].peer;
    var id := w.tasks[t].id;
    assert Answers(w.tasks, o, id, t);
    forall q: nat, u: nat
      ensures Offers(w'.tasks, q, u) <==> Offers(w.tasks, q, u)
    {
    }
    forall q: nat, i: NegotiationId, u: nat
      ensures Answers(w'.tasks, q, i, u) <==> Answers(w.tasks, q, i, u) && u != t
    {
    }
    forall q: nat | q < |w'.peers| && w'.peers[q].makingOffer
      ensures exists u: nat :: Offers(w'.tasks, q, u)
    {
      var u: nat :| Offers(w.tasks, q, u);
      assert Offers(w'.tasks, q, u);
    }
    forall q: nat, i: NegotiationId | q < |w'.peers| && i in w'.peers[q].remoteOffers
      ensures exists u: nat :: Answers(w'.tasks, q, i, u)
    {
      var u: nat :| Answers(w.tasks, q, i, u);
      assert Answers(w'.tasks, q, i, u);
    }
  }

  /** A step of a handler that goes on. */
  lemma StageKeepsTasks(w: World, w': World)
    requires TaskInv(w) && CurrentInv(w) && |w'.peers| == |w.peers|
    requires forall o: nat :: o < |w.peers| ==>
               && w'.peers[o].makingOffer == w.peers[o].makingOffer
               && w'.peers[o].closed == w.peers[o].closed && w'.peers[o].remoteOffers == w.peers[o].remoteOffers
    requires forall t: nat :: t in w'.tasks <==> t in w.tasks
    requires forall t: nat :: t in w.tasks ==> w'.tasks[t] == w.tasks[t].(stage := w'.tasks[t].stage)
    ensures TaskInv(w')
  {
    forall o: nat, t: nat
      ensures Offers(w'.tasks, o, t) <==> Offers(w.tasks, o, t)
    {
    }
    forall o: nat, id: NegotiationId, t: nat
      ensures Answers(w'.tasks, o, id, t) <==> Answers(w.tasks, o, id, t)
    {
    }
    SameKeepsTasks(w, w');
  }

  lemma FlushKeepsTasks(w: World, t: nat, waiting: seq<RemoteCandidate>)
    requires TaskInv(w) && CurrentInv(w) && t in w.tasks
    ensures TaskInv(ContinueFlush(w, t, waiting))
  {
    StageKeepsTasks(w, ContinueFlush(w, t, waiting));
  }

  lemma BeginFlushKeepsTasks(w: World, t: nat)
    requires TaskInv(w) && CurrentInv(w) && t in w.tasks
    ensures TaskInv(BeginFlush(w, t))
  {
    StageKeepsTasks(w, BeginFlush(w, t));
  }

  lemma PublishKeepsTasks(w: World, o: nat, id: NegotiationId, s: Sending)
    requires TaskInv(w) && CurrentInv(w) && o < |w.peers|
    ensures TaskInv(Publish(w, o, id, s)) && CurrentInv(Publish(w, o, id, s))
  {
    StageKeepsTasks(w, Publish(w, o, id, s));
  }

  lemma ResumeOfferKeepsTasks(w: World, t: nat, ok: bool, s: Sending)
    requires TaskInv(w) && CurrentInv(w) && t in w.tasks && w.tasks[t].OfferTask?
    ensures TaskInv(ResumeOffer(w, t, ok, s))
  {
    var task := w.tasks[t];
    if !ok || !IsCurrentNegotiation(w, task.peer, task.id) {
      OfferEnds(w, t);
    } else if task.stage.Creating? {
      StageKeepsTasks(w, ResumeOffer(w, t, ok, s));
    } else {
      PublishKeepsTasks(w, task.peer, task.id, s);
      OfferEnds(Publish(w, task.peer, task.id, s), t);
    }
  }

  lemma ResumeAnswerKeepsTasks(w: World, t: nat, ok: bool, s: Sending)
    requires TaskInv(w) && CurrentInv(w) && t in w.tasks && w.tasks[t].AnswerTask?
    ensures TaskInv(ResumeAnswer(w, t, ok, s))
  {
    var task := w.tasks[t];
    AnswerEnds(w, t);
    if task.stage.Flushing? && task.stage.rest != [] {
      FlushKeepsTasks(w, t, task.stage.rest);
    } else if IsCurrentNegotiation(w, task.peer, task.id) && (task.stage.Flushing? || ok) {
      match task.stage
      case Flushing(_) =>
        StageKeepsTasks(w, SetPeer(w, task.peer, ResetLocalDescription(w.peers[task.peer])).(tasks := w.tasks[t := task.(stage := Creating)]));
      case SettingRemote => BeginFlushKeepsTasks(w, t);
      case Creating => StageKeepsTasks(w, w.(tasks := w.tasks[t := task.(stage := SettingLocal)]));
      case SettingLocal =>
        PublishKeepsTasks(w, task.peer, task.id, s);
        AnswerEnds(Publish(w, task.peer, task.id, s), t);
    }
  }

  /** handleAnswer may be forgotten, as far as offers and their answers are concerned. */
  lemma AnsweredEnds(w: World, t: nat)
    requires TaskInv(w) && CurrentInv(w) && t in w.tasks && w.tasks[t].AnsweredTask?
    ensures TaskInv(w.(tasks := w.tasks - {t}))
  {
    SameKeepsTasks(w, w.(tasks := w.tasks - {t}));
  }

  lemma ResumeAnsweredKeepsTasks(w: World, t: nat, ok: bool)
    requires TaskInv(w) && CurrentInv(w) && t in w.tasks && w.tasks[t].AnsweredTask?
    ensures TaskInv(ResumeAnswered(w, t, ok))
  {
    AnsweredEnds(w, t);
    FlushKeepsTasks(w, t, if w.tasks[t].stage.Flushing? then w.tasks[t].stage.rest else []);
    BeginFlushKeepsTasks(w, t);
  }

  lemma StartOfferKeepsTasks(w: World, id: NegotiationId, stable: bool)
    requires TaskInv(w) && CurrentInv(w)
    ensures TaskInv(StartOffer(w, id, stable))
  {
    MovesKeepTasks(w, true);
    MovesKeepCurrent(w, true);
    var w1 := Ensure(w);
    var o := w1.current.value;
    if o < |w1.peers| && !w1.peers[o].makingOffer {
      OfferBegins(w1, o, ReplaceNegotiationId(w1.peers[o], id).(makingOffer := true, remoteDescriptionSet := false), id);
    }
  }

  lemma ReceiveOfferKeepsTasks(w: World, id: NegotiationId, failed: bool)
    requires TaskInv(w) && CurrentInv(w)
    ensures TaskInv(ReceiveOffer(w, id, failed))
  {
    MovesKeepTasks(w, true);
    MovesKeepCurrent(w, true);
    EndingsKeepTasks(w);
    var w1 := if w.current.Some? && failed then Replace(w, true) else Ensure(w);
    var w' := ReceiveOffer(w, id, failed);
    if w' != w && w' != w1 && w' != FailPeer(w) {
      OfferTakenKeepsTasks(w1, w1.current.value, id, w');
    }
  }

  lemma OfferTakenKeepsTasks(w: World, o: nat, id: NegotiationId, w': World)
    requires TaskInv(w) && CurrentInv(w) && w.current == Some(o) && id !in w.peers[o].remoteOffers
    requires var p := ReplaceNegotiationId(w.peers[o], id);
             w' == Suspend(SetPeer(w, o, p.(remoteOffers := p.remoteOffers + {id}, remoteDescriptionSet := false)),
                           AnswerTask(o, id, SettingRemote))
    ensures TaskInv(w')
  {
    AnswerBegins(w, o, w'.peers[o], id);
  }

  lemma ReceiveIceKeepsTasks(w: World, id: NegotiationId, number: nat, failed: bool)
    requires TaskInv(w) && CurrentInv(w)
    ensures TaskInv(ReceiveIce(w, id, number, failed))
  {
    MovesKeepTasks(w, true);
    MovesKeepCurrent(w, true);
    IceKeepsTasks(Ensure(w), ReceiveIce(w, id, number, failed), id, number, failed);
  }

  lemma IceKeepsTasks(w: World, w': World, id: NegotiationId, number: nat, failed: bool)
    requires TaskInv(w) && CurrentInv(w) && w.current.Some? && w' == ReceiveIce(w, id, number, failed)
    ensures TaskInv(w')
  {
    assert Ensure(w) == w && w'.tasks == w.tasks;
    SameKeepsTasks(w, w');
  }

  lemma ReceiveAnswerKeepsTasks(w: World, id: NegotiationId, haveLocalOffer: bool)
    requires TaskInv(w) && CurrentInv(w)
    ensures TaskInv(ReceiveAnswer(w, id, haveLocalOffer))
  {
    SameKeepsTasks(w, ReceiveAnswer(w, id, haveLocalOffer));
  }

  lemma ContinueKeepsTasks(w: World, t: nat, ok: bool, s: Sending)
    requires TaskInv(w) && CurrentInv(w)
    ensures TaskInv(Continue(w, t, ok, s))
  {
    if t in w.tasks {
      match w.tasks[t]
      case OfferTask(_, _, _) => ResumeOfferKeepsTasks(w, t, ok, s);
      case AnswerTask(_, _, _) => ResumeAnswerKeepsTasks(w, t, ok, s);
      case AnsweredTask(_, _, _) => ResumeAnsweredKeepsTasks(w, t, ok);
    }
  }

  lemma ResumeKeepsTasks(w: World, t: nat, ok: bool, s: Sending)
    requires TaskInv(w) && CurrentInv(w)
    ensures TaskInv(Resume(w, t, ok, s))
  {
    var w1 := Describe(w, t, ok);
    HandlerContinues(w1, t, ok, s);
    ContinuingKeepsCurrent(w1, Continue(w1, t, ok, s));
    ContinueKeepsTasks(w1, t, ok, s);
    EndingsKeepTasks(Continue(w1, t, ok, s));
  }

  lemma NextKeepsTasks(w: World, ev: Event)
    requires TaskInv(w) && CurrentInv(w)
    ensures TaskInv(Next(w, ev))
  {
    match ev
    case OfferStarts(id, stable) => StartOfferKeepsTasks(w, id, stable);
    case OfferArrives(id, failed) => ReceiveOfferKeepsTasks(w, id, failed && CanFail(w));
    case AnswerArrives(id, haveLocalOffer) => ReceiveAnswerKeepsTasks(w, id, haveLocalOffer);
    case IceArrives(id, number, failed) => ReceiveIceKeepsTasks(w, id, number, failed && CanFail(w));
    case Gathers(_, _, _, _) => StageKeepsTasks(w, Next(w, ev));
    case Resumes(t, ok, s) => ResumeKeepsTasks(w, t, ok, s);
    case PeerReplaced(preserve) => MovesKeepTasks(w, preserve);
    case PeerRecovered => EndingsKeepTasks(w);
    case PeerFails => EndingsKeepTasks(w);
    case PeerCleanedUp => EndingsKeepTasks(w);
    case PeerReset => EndingsKeepTasks(w);
  }
}
