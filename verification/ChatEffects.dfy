/** What sending, retrying, answering and disposing achieve, given that ledger and queues agree. */
module ChatEffects {
  import opened RoomChat
  import opened ChatDelivery

  // ----- sending and sending again -----

  /** Somebody can be reached, if there is anybody, and nobody's queue is full. */
  predicate CanSend(w: World) {
    && (w.participants == {} || exists p :: p in w.participants && p in w.queues)
    && forall p :: p in w.participants && p in w.queues ==> HasCapacity(w.queues[p])
  }

  lemma SendingIsPossible(w: World, targets: set<PeerId>)
    requires targets == set p | p in w.participants && p in w.queues
    ensures CanSend(w) <==> (w.participants == {} || targets != {}) && !exists p :: p in targets && !HasCapacity(w.queues[p])
  {
    if targets != {} {
      var p :| p in targets;
    }
    if p :| p in w.participants && p in w.queues {
      assert p in targets;
    }
  }

  lemma {:induction false} TrimmedStates(l: Ledger)
    ensures forall m :: m in Trim(l).states ==> m in l.states && Trim(l).states[m] == l.states[m]
    decreases |l.messages|
  {
    if |l.messages| > l.maxMessages {
      var shorter := l.(messages := l.messages[1..]);
      TrimmedStates(if l.messages[0].isLocal then RetireIfUnused(shorter, l.messages[0].id) else shorter);
    }
  }

  /**
   A new chat is sent if and only if that is possible. It is then awaited from exactly those who can
   be reached, and has failed for all others; otherwise nothing changes.
   */
  lemma SendingReaches(w: World, id: MessageId, self: PeerId, now: int, w': World)
    requires Inv(w) && id !in w.created && w' == SendChat(w, id, self, now)
    ensures id in w'.created <==> CanSend(w)
    ensures id !in w'.created ==> w' == w
    ensures id in w'.created ==> forall m, p ::
              AwaitedFrom(w'.ledger, m, p) <==> AwaitedFrom(w.ledger, m, p) || (m == id && p in w.participants && p in w.queues)
    ensures id in w'.created && id in w'.ledger.states ==> FailedRecipients(w'.ledger, id) == w.participants - w.queues.Keys
  {
    SendingIsPossible(w, set p | p in w.participants && p in w.queues);
    if CanSend(w) {
      var recipients := map p | p in w.participants :: if p in w.queues then Pending else Failed;
      SentIsNew(w, id);
      RecordOutgoingKeeps(w.ledger, id, self, recipients, now);
      var l := w.ledger;
      TrimmedStates(l.(states := l.states[id := recipients], deadlines := l.deadlines[id := now + RETRY_DEADLINE_MS],
                       messages := l.messages + [ChatMessage(id, self, true, Aggregate(recipients))]));
    }
  }

  /** Before its deadline a chat is sent again to exactly the failed recipients that are ready and have room. */
  lemma RetryingReaches(w: World, id: MessageId, ready: set<PeerId>, now: int, w': World)
    requires Inv(w) && w' == RetryChat(w, id, ready, now)
    ensures forall m, p :: AwaitedFrom(w'.ledger, m, p) <==>
              || AwaitedFrom(w.ledger, m, p)
              || (m == id && RetryCandidate(w.ledger, id, now) && p in FailedRecipients(w.ledger, id)
                  && p in ready && p in w.queues && HasCapacity(w.queues[p]))
  {
    var peers := RetryPeers(w, id, ready);
    if RetryCandidate(w.ledger, id, now) && id in w.ledger.states {
      PrepareRetryKeeps(w.ledger, id, peers);
    }
  }

  // ----- answers -----

  /** An acknowledgement settles exactly the chat it names, for exactly this recipient, if it was ever sent to it. */
  lemma AcknowledgementSettles(w: World, p: PeerId, id: MessageId, w': World)
    requires Inv(w) && p in w.queues && w' == Acknowledge(w, p, id)
    ensures forall m, q :: AwaitedFrom(w'.ledger, m, q) <==>
              AwaitedFrom(w.ledger, m, q) && !(m == id && q == p && Acknowledgeable(w.queues[p], id))
    ensures Acknowledgeable(w.queues[p], id) && id in w'.ledger.states
            ==> w'.ledger.states[id] == w.ledger.states[id][p := Acknowledged]
  {
    Settling(w, p, id, Acknowledged);
  }

  /** A timeout fails the chat for this recipient. */
  lemma TimeoutSettles(w: World, p: PeerId, id: MessageId, w': World)
    requires Inv(w) && p in w.queues && w' == Expire(w, p, id)
    ensures forall m, q :: AwaitedFrom(w'.ledger, m, q) <==>
              AwaitedFrom(w.ledger, m, q) && !(m == id && q == p && Queued(w.queues[p], id))
    ensures Queued(w.queues[p], id) && id in w'.ledger.states ==> w'.ledger.states[id] == w.ledger.states[id][p := Failed]
  {
    Settling(w, p, id, Failed);
  }

  lemma Settling(w: World, p: PeerId, id: MessageId, state: RecipientState)
    requires Inv(w) && p in w.queues && state != Pending
    ensures var l' := MarkLocalRecipient(w.ledger, id, p, state);
            && (forall m, q :: AwaitedFrom(l', m, q) <==> AwaitedFrom(w.ledger, m, q) && !(m == id && q == p))
            && (Queued(w.queues[p], id) && id in l'.states ==> id in w.ledger.states && l'.states[id] == w.ledger.states[id][p := state])
  {
    var l' := MarkLocalRecipient(w.ledger, id, p, state);
    MarkKeeps(w.ledger, id, p, state, l');
    if Queued(w.queues[p], id) {
      assert QueuedFor(w.queues, p, id) && AwaitedFrom(w.ledger, id, p);
      MarkedStates(w.ledger, id, p, state, w.ledger.states[id][p := state], l');
    }
  }

  /** Once a channel is disposed of, nothing is awaited from its participant, and from all others what was awaited before. */
  lemma DisposalSettles(w: World, p: PeerId)
    requires Inv(w) && p in w.queues
    ensures forall m, q :: AwaitedFrom(Dispose(w, p).ledger, m, q) <==> AwaitedFrom(w.ledger, m, q) && q != p
  {
    var w' := Dispose(w, p);
    DisposeKeeps(w, p);
    forall m, q
      ensures AwaitedFrom(w'.ledger, m, q) <==> AwaitedFrom(w.ledger, m, q) && q != p
    {
      assert AwaitedFrom(w'.ledger, m, q) <==> QueuedFor(w'.queues, q, m);
      assert AwaitedFrom(w.ledger, m, q) <==> QueuedFor(w.queues, q, m);
    }
  }

  // ----- at least once -----

  function CopyOfEach(queue: seq<PendingChat>, to: PeerId, now: int): (r: seq<Copy>)
    ensures |r| == |queue| && forall i :: 0 <= i < |r| ==> r[i] == Copy(queue[i].id, to, now)
  {
    if queue == [] then [] else [Copy(queue[0].id, to, now)] + CopyOfEach(queue[1..], to, now)
  }

  lemma {:induction false} NothingSentYet(queue: seq<PendingChat>, n: nat, to: PeerId, now: int)
    requires n >= |queue| && forall i :: 0 <= i < |queue| ==> !queue[i].sentOnCurrentChannel
    ensures CopiesOf(queue, n, to, now) == CopyOfEach(queue, to, now)
    ensures forall i :: 0 <= i < |queue| ==> Flushed(queue, n)[i] == queue[i].(sentOnCurrentChannel := true, everSent := true)
  {
    if queue != [] {
      NothingSentYet(queue[1..], n - 1, to, now);
    }
  }

  /**
   A new channel that takes everything is sent every chat that is still unanswered, in order, also those
   that were sent on the old one.
   */
  lemma NewChannelGetsEverything(w: World, p: PeerId, n: nat, now: int, w': World)
    requires p in w.queues && n >= |w.queues[p]|
    requires w' == Flush(Attach(w, p), p, n, now)
    ensures w'.copies == w.copies + CopyOfEach(w.queues[p], p, now)
    ensures |w'.queues[p]| == |w.queues[p]|
    ensures forall i :: 0 <= i < |w'.queues[p]| ==>
              w'.queues[p][i].id == w.queues[p][i].id && w'.queues[p][i].sentOnCurrentChannel && w'.queues[p][i].everSent
  {
    var attached := Attach(w, p);
    var queue := attached.queues[p];
    assert queue == Reattached(w.queues[p]);
    NothingSentYet(queue, n, p, now);
    assert CopyOfEach(queue, p, now) == CopyOfEach(w.queues[p], p, now);
  }
}
