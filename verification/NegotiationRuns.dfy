/** Safety of the negotiation with one participant, over every interleaving at the await points. */
module NegotiationRuns {
  import opened Common
  import opened PeerConnectionLifecycle
  import opened PeerNegotiation
  import opened NegotiationSafety
  import opened NegotiationTasks
  import opened NegotiationGenerations

  lemma {:induction false} RunSafe(events: seq<Event>)
    ensures CurrentInv(Run(events)) && RelayInv(Run(events)) && RemoteInv(Run(events))
    ensures TaskInv(Run(events)) && GenerationInv(Run(events))
  {
    if events != [] {
      var w, ev := Run(events[..|events| - 1]), events[|events| - 1];
      RunSafe(events[..|events| - 1]);
      NextKeepsCurrent(w, ev);
      NextKeepsRelay(w, ev);
      NextKeepsRemote(w, ev);
      NextKeepsTasks(w, ev);
      NextKeepsGenerations(w, ev);
    }
  }

  /** A candidate goes out only after an offer or answer with its id, and candidates in the order in which they were gathered. */
  lemma CandidatesFollowDescriptions(events: seq<Event>, i: nat)
    requires i < |Run(events).relayed| && Run(events).relayed[i].Ice?
    ensures var relayed := Run(events).relayed;
            && Description(relayed[i].peer, relayed[i].id) in relayed[..i]
            && forall j :: 0 <= j < i && relayed[j].Ice? && relayed[j].peer == relayed[i].peer
                           ==> relayed[j].number < relayed[i].number
  {
    RunSafe(events);
    assert Described(Run(events).relayed[..i], Run(events).relayed[i].peer, Run(events).relayed[i].id);
  }

  /** A handler whose connection or negotiation was superseded while it waited sends nothing and adds nothing. */
  lemma SupersededIsSilent(w: World, t: nat, ok: bool, s: Sending)
    requires t in w.tasks && w.tasks[t].peer < |w.peers| && !IsCurrentNegotiation(w, w.tasks[t].peer, w.tasks[t].id)
    ensures Resume(w, t, ok, s).relayed == w.relayed && Resume(w, t, ok, s).added == w.added
    ensures SameIds(w.peers[w.tasks[t].peer], Resume(w, t, ok, s).peers[w.tasks[t].peer])
  {
    var w1 := Describe(w, t, ok);
    HandlerContinues(w1, t, ok, s);
    match w.tasks[t]
    case OfferTask(_, _, _) =>
    case AnswerTask(_, _, _) => SupersededAnswer(w1, t, ok, s);
    case AnsweredTask(_, _, _) =>
  }

  lemma SupersededAnswer(w: World, t: nat, ok: bool, s: Sending)
    requires t in w.tasks && w.tasks[t].AnswerTask? && w.tasks[t].peer < |w.peers|
    requires !IsCurrentNegotiation(w, w.tasks[t].peer, w.tasks[t].id)
    ensures ResumeAnswer(w, t, ok, s).relayed == w.relayed && ResumeAnswer(w, t, ok, s).added == w.added
  {
  }

  /**
   A remote candidate is only ever added to the connection it arrived at, while that has the id the
   candidate arrived with. So none of the candidates a replacement inherits is ever added.
   */
  lemma CandidatesKeepTheirNegotiation(events: seq<Event>, i: nat)
    requires i < |Run(events).added|
    ensures var a := Run(events).added[i];
            a.id == Some(a.candidate.id) && a.candidate.connection == a.peer
  {
    RunSafe(events);
    assert AddedOk(Run(events).added[i]);
  }

  /** What a replacement inherits is thrown away with the first id it takes. */
  lemma InheritedCandidatesAreDropped(w: World, preserve: bool, id: NegotiationId)
    requires w.current.Some? && w.current.value < |w.peers|
    ensures ReplaceNegotiationId(Replace(w, preserve).peers[|w.peers|], id).pendingRemote == []
  {
  }

  /** A connection makes at most one local offer at a time, and none while it answers a remote one. */
  lemma OneLocalOffer(events: seq<Event>, o: nat, t: nat, u: nat)
    requires Offers(Run(events).tasks, o, t) && Offers(Run(events).tasks, o, u)
    ensures t == u && o < |Run(events).peers| && Run(events).peers[o].makingOffer
    ensures Run(events).current == Some(o) ==> forall id, stable :: StartOffer(Run(events), id, stable) == Run(events)
  {
    RunSafe(events);
  }

  lemma NoOfferDuringAnswer(events: seq<Event>, o: nat, id: NegotiationId, t: nat)
    requires Answers(Run(events).tasks, o, id, t) && Run(events).current == Some(o)
    ensures forall other, stable :: StartOffer(Run(events), other, stable) == Run(events)
  {
    RunSafe(events);
    assert id in Run(events).peers[o].remoteOffers;
  }

  /**
   The retired ids of a connection are exactly the newest eight of all ids it, and those it replaced,
   gave up, in order, each once. No signal with one of them is accepted.
   */
  lemma StaleGenerationsStayDead(events: seq<Event>, o: nat, id: NegotiationId)
    requires o < |Run(events).peers| && id in Run(events).peers[o].retired
    ensures var p := Run(events).peers[o];
            && p.retired == Newest(p.superseded) && NoDup(p.retired)
            && !CanAcceptRemoteOffer(p, id) && !MatchesNegotiation(p, id) && !AdoptsOrMatches(p, id)
  {
    RunSafe(events);
    RetiredIsRefused(Run(events).peers[o], id);
  }

  /** Whatever arrives for a retired id is ignored. */
  lemma StaleSignalsAreIgnored(w: World, o: nat, id: NegotiationId, failed: bool, haveLocalOffer: bool, number: nat)
    requires w.current == Some(o) && o < |w.peers| && id in w.peers[o].retired
    ensures ReceiveOffer(w, id, failed) == w && ReceiveAnswer(w, id, haveLocalOffer) == w && ReceiveIce(w, id, number, failed) == w
  {
    RetiredIsRefused(w.peers[o], id);
  }

  // ----- the current id -----

  /** The ids this side has made up for its offers. */
  function Own(events: seq<Event>): set<NegotiationId> {
    if events == [] then {} else OwnAfter(Own(events[..|events| - 1]), events[|events| - 1])
  }

  /** The other side does not offer under an id that this side has made up. */
  ghost predicate Foreign(events: seq<Event>) {
    forall i :: 0 <= i < |events| && events[i].OfferArrives? ==> events[i].id !in Own(events[..i])
  }

  lemma {:induction false} RunAlive(events: seq<Event>)
    requires Foreign(events)
    ensures AliveInv(Run(events), Own(events))
  {
    if events != [] {
      var before := events[..|events| - 1];
      assert forall i :: 0 <= i < |before| ==> before[..i] == events[..i];
      RunAlive(before);
      RunSafe(before);
      NextKeepsAlive(Run(before), Own(before), events[|events| - 1]);
    }
  }

  /** No offer that is accepted for a failed connection has the id that connection already has. */
  lemma NoOfferIsOvertaken(events: seq<Event>, id: NegotiationId, failed: bool)
    requires Foreign(events) && id !in Own(events)
    ensures var w := Run(events);
            && (w.current.Some? ==> w.current.value < |w.peers|)
            && !OvertakenOffer(w, id, failed)
  {
    RunSafe(events);
    RunAlive(events);
    AliveIsNeverOvertaken(Run(events), Own(events), id, failed);
  }

  /** The current id of an open connection is never retired: what arrives for it is accepted. */
  lemma CurrentIdIsAlive(events: seq<Event>, o: nat)
    requires Foreign(events)
    requires Run(events).current == Some(o) && o < |Run(events).peers| && Run(events).peers[o].negotiationId.Some?
    ensures var p := Run(events).peers[o]; MatchesNegotiation(p, p.negotiationId.value)
  {
    RunAlive(events);
  }

  /** handleOffer goes on to answer: the participant is not given up, and the offer is not stale. */
  predicate Accepted(w: World, id: NegotiationId, failed: bool) {
    && !w.exhausted
    && (w.current.Some? ==>
          && w.current.value < |w.peers| && CanAcceptRemoteOffer(w.peers[w.current.value], id)
          && !(failed && CanFail(w) && w.peers[w.current.value].connectionAttempt > 0))
  }

  /**
   An accepted offer is answered by a connection, a new one if the former has failed, and whatever
   candidate then comes for it waits for the description.
   */
  lemma AcceptedOfferIsHeard(events: seq<Event>, id: NegotiationId, failed: bool, w: World, w': World, number: nat, later: bool)
    requires Foreign(events) && id !in Own(events)
    requires w == Run(events) && Accepted(w, id, failed) && w' == Next(w, OfferArrives(id, failed))
    ensures w'.current.Some? && w'.current.value < |w'.peers|
    ensures w'.current == w.current <==> w.current.Some? && !(failed && CanFail(w))
    ensures IsCurrentNegotiation(w', w'.current.value, id)
    ensures Answers(w'.tasks, w'.current.value, id, w.nextTask)
    ensures var waiting := Next(w', IceArrives(id, number, later)).peers[w'.current.value].pendingRemote;
            waiting != [] && waiting[|waiting| - 1] == RemoteCandidate(number, id, w'.current.value)
  {
    RunSafe(events);
    NextKeepsCurrent(w, OfferArrives(id, failed));
    RunAlive(events);
    NextKeepsAlive(w, Own(events), OfferArrives(id, failed));
    OfferIsTaken(w, id, failed, w');
    IceIsHeard(w', id, number, later);
  }

  lemma OfferIsTaken(w: World, id: NegotiationId, failed: bool, w': World)
    requires CurrentInv(w) && Accepted(w, id, failed) && w' == Next(w, OfferArrives(id, failed))
    ensures w'.current.Some? && w'.current.value < |w'.peers| && !w'.exhausted
    ensures w'.current == w.current <==> w.current.Some? && !(failed && CanFail(w))
    ensures w'.peers[w'.current.value].negotiationId == Some(id) && !w'.peers[w'.current.value].remoteDescriptionSet
    ensures Answers(w'.tasks, w'.current.value, id, w.nextTask)
  {
  }

  lemma IceIsHeard(w: World, id: NegotiationId, number: nat, failed: bool)
    requires w.current.Some? && w.current.value < |w.peers| && !w.exhausted
    requires MatchesNegotiation(w.peers[w.current.value], id) && !w.peers[w.current.value].remoteDescriptionSet
    ensures var w' := Next(w, IceArrives(id, number, failed));
            && |w'.peers| == |w.peers|
            && var waiting := w'.peers[w.current.value].pendingRemote;
               waiting != [] && waiting[|waiting| - 1] == RemoteCandidate(number, id, w.current.value)
  {
  }

  // ----- a participant that is given up -----

  /** What handleOffer or handleAnswer throws closes the connection, and the participant is given up. */
  lemma ThrowingGivesUp(w: World, t: nat, ok: bool, s: Sending)
    requires CurrentInv(w) && Throws(w, t, ok, s)
    ensures var w' := Resume(w, t, ok, s);
            w'.exhausted && w'.current == None && forall o: nat :: o < |w'.peers| ==> w'.peers[o].closed
  {
    ResumeKeepsCurrent(w, t, ok, s);
  }

  /** Whatever happens then, nothing is sent or added until the participant is made anew or is offered to again. */
  lemma {:induction false} GivenUpIsSilent(events: seq<Event>, later: seq<Event>)
    requires Run(events).exhausted && Run(events).current == None
    requires forall ev :: ev in later ==> !ev.OfferStarts? && !ev.PeerReset?
    ensures var w, w' := Run(events), Run(events + later);
            w'.exhausted && w'.current == None && w'.relayed == w.relayed && w'.added == w.added
  {
    if later == [] {
      assert events + later == events;
    } else {
      var before, ev := later[..|later| - 1], later[|later| - 1];
      GivenUpIsSilent(events, before);
      assert (events + later)[..|events + later| - 1] == events + before;
      assert (events + later)[|events + later| - 1] == ev;
      RunSafe(events + before);
      GivenUpOnce(Run(events + before), ev);
    }
  }

  lemma GivenUpOnce(w: World, ev: Event)
    requires CurrentInv(w) && w.exhausted && w.current == None && !ev.OfferStarts? && !ev.PeerReset?
    ensures var w' := Next(w, ev); w'.exhausted && w'.current == None && w'.relayed == w.relayed && w'.added == w.added
  {
    if ev.Resumes? && ev.task in w.tasks {
      var w1 := Describe(w, ev.task, ev.ok);
      HandlerContinues(w1, ev.task, ev.ok, ev.sending);
      SupersededIsSilent(w, ev.task, ev.ok, ev.sending);
      ExhaustedKept(w1, ev.task, ev.ok, ev.sending);
    }
  }

  lemma ExhaustedKept(w: World, t: nat, ok: bool, s: Sending)
    ensures Continue(w, t, ok, s).exhausted == w.exhausted
  {
  }
}
