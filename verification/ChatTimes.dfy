/**
 How late a copy of a chat can be sent. Every queued chat has a timer that takes it out of the queue;
 until that has run, whatever flushes the queue sends the chat. So the bound depends on how late the
 timers run, and on nothing else.
 */
module ChatTimes {
  import opened RoomChat
  import opened ChatDelivery

  /** Timers run not before they are due, and no chat is still queued more than `late` ms after that. */
  predicate OnTime(w: World, e: Event, late: nat) {
    match e
    case Flushes(p, _, now) =>
      p in w.queues ==> forall i :: 0 <= i < |w.queues[p]| ==> now <= w.queues[p][i].enqueuedAt + CHAT_ACK_TIMEOUT_MS + late
    case Expires(p, id, now) =>
      p in w.queues ==> forall i :: 0 <= i < |w.queues[p]| && w.queues[p][i].id == id
                                    ==> w.queues[p][i].enqueuedAt + CHAT_ACK_TIMEOUT_MS <= now
    case _ => true
  }

  function TimeOf(e: Event, before: int): int {
    match e
    case Sends(_, _, now) => now
    case Retries(_, _, now) => now
    case Flushes(_, _, now) => now
    case Expires(_, _, now) => now
    case _ => before
  }

  /** The clock does not go back, and timers run at most `late` ms late. */
  predicate Timely(maxMessages: nat, events: seq<Event>, late: nat, now: int)
    decreases |events|
  {
    events == []
    || (var front, e := events[..|events| - 1], events[|events| - 1];
        && TimeOf(e, now) <= now && Timely(maxMessages, front, late, TimeOf(e, now))
        && OnTime(Run(maxMessages, front), e, late))
  }

  /** The copy was sent after the chat was created, and before its retry deadline, one timeout and a delay had passed. */
  ghost predicate CopyInTime(created: map<MessageId, int>, copy: Copy, late: nat) {
    && copy.id in created
    && created[copy.id] <= copy.at < created[copy.id] + RETRY_DEADLINE_MS + CHAT_ACK_TIMEOUT_MS + late
  }

  ghost predicate AllInTime(created: map<MessageId, int>, copies: seq<Copy>, late: nat) {
    forall i :: 0 <= i < |copies| ==> CopyInTime(created, copies[i], late)
  }

  ghost predicate CreatedBy(created: map<MessageId, int>, now: int) {
    forall id :: id in created ==> created[id] <= now
  }

  lemma {:induction false} CopiesInTime(created: map<MessageId, int>, queue: seq<PendingChat>, n: nat, to: PeerId, now: int, late: nat)
    requires InTime(created, queue) && CreatedBy(created, now)
    requires forall i :: 0 <= i < |queue| ==> now <= queue[i].enqueuedAt + CHAT_ACK_TIMEOUT_MS + late
    ensures AllInTime(created, CopiesOf(queue, n, to, now), late)
    decreases |queue|
  {
    if queue != [] && n != 0 {
      CopiesInTime(created, queue[1..], if queue[0].sentOnCurrentChannel then n else n - 1, to, now, late);
      assert queue[0].enqueuedAt < created[queue[0].id] + RETRY_DEADLINE_MS;
    }
  }

  lemma NextInTime(w: World, e: Event, late: nat, now: int)
    requires Inv(w) && TimeOf(e, now) == now && OnTime(w, e, late)
    requires AllInTime(w.created, w.copies, late) && CreatedBy(w.created, now)
    ensures AllInTime(Next(w, e).created, Next(w, e).copies, late) && CreatedBy(Next(w, e).created, now)
  {
    match e
    case Sends(id, self, _) => SendKeepsCopies(w, id, self, now, late);
    case Flushes(p, n, _) =>
      if p in w.queues {
        assert InTime(w.created, w.queues[p]);
        CopiesInTime(w.created, w.queues[p], n, p, now, late);
      }
    case _ => assert Next(w, e).copies == w.copies && Next(w, e).created == w.created;
  }

  lemma SendKeepsCopies(w: World, id: MessageId, self: PeerId, now: int, late: nat)
    requires AllInTime(w.created, w.copies, late) && CreatedBy(w.created, now)
    ensures var w' := SendChat(w, id, self, now); AllInTime(w'.created, w'.copies, late) && CreatedBy(w'.created, now)
  {
    var w' := SendChat(w, id, self, now);
    forall i | 0 <= i < |w'.copies|
      ensures CopyInTime(w'.created, w'.copies[i], late)
    {
      assert CopyInTime(w.created, w.copies[i], late);
    }
  }

  lemma {:induction false} RunInTime(maxMessages: nat, events: seq<Event>, late: nat, now: int)
    requires Timely(maxMessages, events, late, now)
    ensures AllInTime(Run(maxMessages, events).created, Run(maxMessages, events).copies, late)
    ensures CreatedBy(Run(maxMessages, events).created, now)
    decreases |events|
  {
    if events != [] {
      var front, e := events[..|events| - 1], events[|events| - 1];
      RunInTime(maxMessages, front, late, TimeOf(e, now));
      RunKeeps(maxMessages, front);
      NextInTime(Run(maxMessages, front), e, late, TimeOf(e, now));
    }
  }

  /**
   If timers run at most `late` ms late, no copy of a chat is sent later than its retry deadline, one
   acknowledgement timeout and that delay.
   */
  lemma CopiesAreSentInTime(maxMessages: nat, events: seq<Event>, late: nat, now: int, i: nat)
    requires Timely(maxMessages, events, late, now) && i < |Run(maxMessages, events).copies|
    ensures var w := Run(maxMessages, events);
            && w.copies[i].id in w.created
            && w.created[w.copies[i].id] <= w.copies[i].at
            && w.copies[i].at < w.created[w.copies[i].id] + RETRY_DEADLINE_MS + CHAT_ACK_TIMEOUT_MS + late
  {
    RunInTime(maxMessages, events, late, now);
    assert CopyInTime(Run(maxMessages, events).created, Run(maxMessages, events).copies[i], late);
  }

  // ----- the bound is exact -----

  /** Whatever happens, as long as timers run at most `late` ms late, copies are sent within the margin. */
  ghost predicate AlwaysWithin(late: nat, margin: nat) {
    forall maxMessages, events, now, i: nat :: Timely(maxMessages, events, late, now) && i < |Run(maxMessages, events).copies|
                                               ==> CopyInTime(Run(maxMessages, events).created, Run(maxMessages, events).copies[i], margin)
  }

  lemma RunMore(maxMessages: nat, events: seq<Event>, e: Event, late: nat, before: int, now: int)
    requires Timely(maxMessages, events, late, before) && TimeOf(e, before) == now >= before
    requires OnTime(Run(maxMessages, events), e, late)
    ensures Run(maxMessages, events + [e]) == Next(Run(maxMessages, events), e)
    ensures Timely(maxMessages, events + [e], late, now)
  {
    assert (events + [e])[..|events|] == events;
    TimelyLater(maxMessages, events, late, before, now);
  }

  lemma {:induction false} TimelyLater(maxMessages: nat, events: seq<Event>, late: nat, now: int, later: int)
    requires Timely(maxMessages, events, late, now) && now <= later
    ensures Timely(maxMessages, events, late, later)
    decreases |events|
  {
    if events != [] {
      var e := events[|events| - 1];
      TimelyLater(maxMessages, events[..|events| - 1], late, TimeOf(e, now), TimeOf(e, later));
    }
  }

  /** One chat, created at 0, and one recipient: what is known of it, its queue, and the copies sent. */
  function OneChat(state: RecipientState, queue: seq<PendingChat>, copies: seq<Copy>): World {
    World({1}, map[1 := queue],
          Ledger(map[0 := map[1 := state]], [ChatMessage(0, 0, true, Aggregate(map[1 := state]))], map[0 := RETRY_DEADLINE_MS], 1),
          map[0 := 0], copies)
  }

  lemma FirstInQueue(now: int)
    ensures EnqueueFor(map[1 := []], {1}, 0, now) == map[1 := [PendingChat(0, now, false, false)]]
  {
    assert Enqueued([], 0, now) == [PendingChat(0, now, false, false)];
  }

  lemma FirstInLedger()
    ensures RecordOutgoing(NewLedger(1), 0, 0, map[1 := Pending], 0) == OneChat(Pending, [], []).ledger
  {
    var shown := ChatMessage(0, 0, true, Aggregate(map[1 := Pending]));
    assert NewLedger(1).messages + [shown] == [shown];
  }

  lemma ChatIsSent()
    ensures Next(Next(NewWorld(1), PeerCreated(1)), Sends(0, 0, 0)) == OneChat(Pending, [PendingChat(0, 0, false, false)], [])
  {
    var w := Next(NewWorld(1), PeerCreated(1));
    assert w == World({1}, map[1 := []], NewLedger(1), map[], []);
    var targets := set p | p in w.participants && p in w.queues;
    var recipients := map p | p in w.participants :: if p in w.queues then Pending else Failed;
    assert targets == {1} && HasCapacity(w.queues[1]) && recipients == map[1 := Pending];
    FirstInQueue(0);
    FirstInLedger();
    assert SendChat(w, 0, 0, 0) == w.(queues := EnqueueFor(w.queues, targets, 0, 0),
                                      ledger := RecordOutgoing(w.ledger, 0, 0, recipients, 0), created := w.created[0 := 0]);
  }

  lemma ChatTimesOut()
    ensures Next(OneChat(Pending, [PendingChat(0, 0, false, false)], []), Expires(1, 0, CHAT_ACK_TIMEOUT_MS)) == OneChat(Failed, [], [])
  {
    var w := OneChat(Pending, [PendingChat(0, 0, false, false)], []);
    assert w.queues[1][0].id == 0 && Queued(w.queues[1], 0);
    assert Removed(w.queues[1], 0) == [];
    var l, l' := w.ledger, MarkLocalRecipient(w.ledger, 0, 1, Failed);
    assert l.messages[0].isLocal && Local(l.messages, 0);
    assert map[1 := Pending][1 := Failed] == map[1 := Failed];
    assert WithDelivery(l.messages, 0, Aggregate(map[1 := Failed])) == [ChatMessage(0, 0, true, Aggregate(map[1 := Failed]))];
    assert l'.states == map[0 := map[1 := Failed]];
  }

  lemma ChatIsRetried(now: int)
    requires now < RETRY_DEADLINE_MS
    ensures Next(OneChat(Failed, [], []), Retries(0, {1}, now)) == OneChat(Pending, [PendingChat(0, now, false, false)], [])
  {
    var w := OneChat(Failed, [], []);
    assert w.ledger.messages[0].isLocal && Local(w.ledger.messages, 0);
    assert FailedRecipients(w.ledger, 0) == {1};
    assert RetryPeers(w, 0, {1}) == {1};
    assert PrepareRetry(w.ledger, 0, {1}).states[0] == map[1 := Pending];
    assert WithDelivery(w.ledger.messages, 0, Aggregate(map[1 := Pending])) == [ChatMessage(0, 0, true, Aggregate(map[1 := Pending]))];
    FirstInQueue(now);
  }

  lemma RetryIsFlushed(enqueuedAt: int, now: int)
    ensures Next(OneChat(Pending, [PendingChat(0, enqueuedAt, false, false)], []), Flushes(1, 1, now)).copies == [Copy(0, 1, now)]
    ensures Next(OneChat(Pending, [PendingChat(0, enqueuedAt, false, false)], []), Flushes(1, 1, now)).created == map[0 := 0]
  {
    assert CopiesOf([PendingChat(0, enqueuedAt, false, false)], 1, 1, now) == [Copy(0, 1, now)] + [];
  }

  /**
   A chat times out before it could be sent, is sent again in the last millisecond before its deadline,
   but its channel is under backpressure; its second timer runs `late` ms late, and just before that
   the channel has drained and is flushed.
   */
  lemma LateCopy(late: nat) returns (events: seq<Event>, now: int)
    ensures Timely(1, events, late, now)
    ensures Run(1, events).copies == [Copy(0, 1, RETRY_DEADLINE_MS - 1 + CHAT_ACK_TIMEOUT_MS + late)]
    ensures Run(1, events).created == map[0 := 0]
  {
    now := RETRY_DEADLINE_MS - 1 + CHAT_ACK_TIMEOUT_MS + late;
    ChatIsSent();
    ChatTimesOut();
    ChatIsRetried(RETRY_DEADLINE_MS - 1);
    RetryIsFlushed(RETRY_DEADLINE_MS - 1, now);
    var events0: seq<Event> := [];
    var events1 := events0 + [PeerCreated(1)];
    RunMore(1, events0, PeerCreated(1), late, 0, 0);
    var events2 := events1 + [Sends(0, 0, 0)];
    RunMore(1, events1, Sends(0, 0, 0), late, 0, 0);
    var events3 := events2 + [Expires(1, 0, CHAT_ACK_TIMEOUT_MS)];
    RunMore(1, events2, Expires(1, 0, CHAT_ACK_TIMEOUT_MS), late, 0, CHAT_ACK_TIMEOUT_MS);
    var events4 := events3 + [Retries(0, {1}, RETRY_DEADLINE_MS - 1)];
    RunMore(1, events3, Retries(0, {1}, RETRY_DEADLINE_MS - 1), late, CHAT_ACK_TIMEOUT_MS, RETRY_DEADLINE_MS - 1);
    events := events4 + [Flushes(1, 1, now)];
    RunMore(1, events4, Flushes(1, 1, now), late, RETRY_DEADLINE_MS - 1, now);
  }

  /** All copies are sent within a margin if and only if timers run no later than that. */
  lemma BoundIsExact(late: nat, margin: nat)
    ensures AlwaysWithin(late, margin) <==> late <= margin
  {
    if late <= margin {
      forall maxMessages, events, now, i: nat | Timely(maxMessages, events, late, now) && i < |Run(maxMessages, events).copies|
        ensures CopyInTime(Run(maxMessages, events).created, Run(maxMessages, events).copies[i], margin)
      {
        CopiesAreSentInTime(maxMessages, events, late, now, i);
      }
    } else {
      var events, now := LateCopy(late);
      assert !CopyInTime(Run(1, events).created, Run(1, events).copies[0], margin);
    }
  }
}
