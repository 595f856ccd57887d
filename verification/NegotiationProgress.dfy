/** A negotiation that nothing disturbs is completed. */
module NegotiationProgress {
  import opened Common
  import opened PeerConnectionLifecycle
  import opened PeerNegotiation

  /** A current, idle connection that may use this id. */
  predicate Idle(w: World, o: nat, id: NegotiationId) {
    && IsCurrentPeer(w, o) && !w.peers[o].makingOffer && w.peers[o].remoteOffers == {}
    && w.peers[o].negotiationId != Some(id) && id !in w.peers[o].retired && w.nextTask !in w.tasks
  }

  /** An offer whose steps follow each other is published with its id, and the connection is idle again. */
  lemma OfferIsPublished(w: World, o: nat, id: NegotiationId, s: Sending, w1: World, w2: World, w3: World)
    requires Idle(w, o, id) && s.open
    requires w1 == StartOffer(w, id, true) && w2 == Resume(w1, w.nextTask, true, s) && w3 == Resume(w2, w.nextTask, true, s)
    ensures IsCurrentNegotiation(w3, o, id) && w3.peers[o].published && !w3.peers[o].makingOffer && w3.tasks == w.tasks
    ensures w3.relayed == w.relayed + [Description(o, id)]
  {
    assert w1.peers[o].pendingLocal == [];
    assert Going(w2.peers[o].(fragments := s.fragments), s) == [];
    assert w3.tasks == w.tasks;
  }

  function AddedAll(o: nat, id: NegotiationId, candidates: seq<RemoteCandidate>): (r: seq<Added>)
    ensures |r| == |candidates| && forall i :: 0 <= i < |r| ==> r[i] == Added(o, Some(id), candidates[i])
  {
    if candidates == [] then [] else [Added(o, Some(id), candidates[0])] + AddedAll(o, id, candidates[1..])
  }

  /** The candidates have been added, and the handler is through with its flush. */
  function Flushed(w: World, t: nat, task: Task, candidates: seq<RemoteCandidate>): World {
    w.(tasks := w.tasks[t := task.(stage := Flushing([]))], added := w.added + AddedAll(task.peer, task.id, candidates))
  }

  function ResumeTimes(w: World, t: nat, s: Sending, n: nat): World
    decreases n
  {
    if n == 0 then w else ResumeTimes(Resume(w, t, true, s), t, s, n - 1)
  }

  /** How often a flush has to go on before it is through. */
  function Rounds(waiting: seq<RemoteCandidate>): nat {
    if waiting == [] then 0 else |waiting| - 1
  }

  lemma OneAdded(w: World, t: nat, task: Task, waiting: seq<RemoteCandidate>)
    requires waiting != []
    ensures Flushed(w.(added := w.added + [Added(task.peer, Some(task.id), waiting[0])]), t, task, waiting[1..])
            == Flushed(w, t, task, waiting)
  {
  }

  /** The rounds after the first candidate are a flush of the others. */
  lemma NextRound(w: World, t: nat, task: Task, waiting: seq<RemoteCandidate>, s: Sending, w2: World)
    requires t in w.tasks && w.tasks[t] == task.(stage := w.tasks[t].stage) && !task.OfferTask?
    requires IsCurrentNegotiation(w, task.peer, task.id) && waiting != []
    requires w2 == w.(added := w.added + [Added(task.peer, Some(task.id), waiting[0])])
    ensures |waiting| > 1 ==> Resume(ContinueFlush(w, t, waiting), t, true, s) == ContinueFlush(w2, t, waiting[1..])
    ensures |waiting| == 1 ==> ContinueFlush(w, t, waiting) == Flushed(w2, t, task, [])
  {
    var w1 := ContinueFlush(w, t, waiting);
    assert w1 == w2.(tasks := w.tasks[t := task.(stage := Flushing(waiting[1..]))]);
    if |waiting| > 1 {
      assert Resume(w1, t, true, s) == ContinueFlush(w1, t, waiting[1..]);
    } else {
      assert waiting[1..] == [];
    }
  }

  /** A flush that nothing disturbs adds all waiting candidates, in order, under the id they wait for. */
  lemma {:induction false} FlushAddsAll(w: World, t: nat, task: Task, waiting: seq<RemoteCandidate>, s: Sending)
    requires t in w.tasks && w.tasks[t] == task.(stage := w.tasks[t].stage) && !task.OfferTask?
    requires IsCurrentNegotiation(w, task.peer, task.id)
    ensures ResumeTimes(ContinueFlush(w, t, waiting), t, s, Rounds(waiting)) == Flushed(w, t, task, waiting)
    decreases |waiting|
  {
    if waiting != [] {
      var w2 := w.(added := w.added + [Added(task.peer, Some(task.id), waiting[0])]);
      NextRound(w, t, task, waiting, s, w2);
      OneAdded(w, t, task, waiting);
      if |waiting| > 1 {
        FlushAddsAll(w2, t, task, waiting[1..], s);
      } else {
        assert waiting[1..] == [];
      }
    }
  }

  /** An accepted offer whose steps follow each other is answered with its id, after all candidates that waited for it were added. */
  lemma OfferIsAnswered(w: World, o: nat, id: NegotiationId, s: Sending, w1: World, w2: World, flushed: World, w3: World)
    requires IsCurrentPeer(w, o) && CanAcceptRemoteOffer(w.peers[o], id) && w.nextTask !in w.tasks && s.open
    requires w1 == ReceiveOffer(w, id, false) && w2 == Resume(w1, w.nextTask, true, s)
    requires flushed == ResumeTimes(w2, w.nextTask, s, Rounds(w1.peers[o].pendingRemote))
    requires w3 == ResumeTimes(flushed, w.nextTask, s, 3)
    ensures IsCurrentNegotiation(w3, o, id) && w3.peers[o].published && w3.peers[o].remoteDescriptionSet && w3.tasks == w.tasks
    ensures w3.relayed == w.relayed + [Description(o, id)]
    ensures w3.added == w.added + AddedAll(o, id, w1.peers[o].pendingRemote)
  {
    var t, waiting := w.nextTask, w1.peers[o].pendingRemote;
    var begun := Begun(w1, o);
    AnswerBegins(w, o, id, s, w1, begun);
    FlushAddsAll(begun, t, AnswerTask(o, id, SettingRemote), waiting, s);
    AnswerEnds(flushed, t, o, id, s, w3);
    assert w3.tasks == w.tasks;
  }

  /** The browser has taken the description, and the waiting candidates have been taken out. */
  function Begun(w: World, o: nat): World
    requires o < |w.peers|
  {
    SetPeer(w, o, w.peers[o].(remoteDescriptionSet := true, pendingRemote := [], overflowWarned := false)).(
      described := w.described + {o})
  }

  lemma AnswerBegins(w: World, o: nat, id: NegotiationId, s: Sending, w1: World, begun: World)
    requires IsCurrentPeer(w, o) && CanAcceptRemoteOffer(w.peers[o], id) && w.nextTask !in w.tasks
    requires w1 == ReceiveOffer(w, id, false) && |w1.peers| == |w.peers|
    requires begun == Begun(w1, o)
    ensures w1.tasks == w.tasks[w.nextTask := AnswerTask(o, id, SettingRemote)]
    ensures IsCurrentNegotiation(begun, o, id) && begun.tasks == w1.tasks && begun.relayed == w.relayed && begun.added == w.added
    ensures Resume(w1, w.nextTask, true, s) == ContinueFlush(begun, w.nextTask, w1.peers[o].pendingRemote)
  {
  }

  /** The rest of an answer: creating it, setting it, and sending it. */
  lemma AnswerEnds(w: World, t: nat, o: nat, id: NegotiationId, s: Sending, w': World)
    requires t in w.tasks && w.tasks[t] == AnswerTask(o, id, Flushing([])) && IsCurrentNegotiation(w, o, id) && s.open
    requires w' == ResumeTimes(w, t, s, 3)
    ensures IsCurrentNegotiation(w', o, id) && w'.peers[o].published
    ensures w'.peers[o].remoteDescriptionSet == w.peers[o].remoteDescriptionSet
    ensures w'.tasks == w.tasks - {t} && w'.added == w.added && w'.relayed == w.relayed + [Description(o, id)]
  {
    var reset := Resume(w, t, true, s);
    var created := Resume(reset, t, true, s);
    var sent := Resume(created, t, true, s);
    assert ResumeTimes(w, t, s, 3) == ResumeTimes(reset, t, s, 2) == ResumeTimes(created, t, s, 1) == sent;
    assert Going(created.peers[o].(fragments := s.fragments), s) == [];
    assert sent.tasks == w.tasks - {t};
  }
}
