/**
 The chat history of a room and, for every chat that was sent, what is known of each recipient
 (RoomChatLedger in room-chat.ts).
 */
module RoomChat {
  import opened Common

  const RETRY_DEADLINE_MS := 120_000

  type MessageId = nat

  type PeerId = nat

  datatype RecipientState = Pending | Acknowledged | Failed

  datatype DeliveryState = DeliveryPending | Sent | Partial | DeliveryFailed | Received

  datatype ChatMessage = ChatMessage(id: MessageId, sender: PeerId, isLocal: bool, delivery: DeliveryState)

  type Recipients = map<PeerId, RecipientState>

  datatype Ledger = Ledger(
    states: map<MessageId, Recipients>, messages: seq<ChatMessage>, deadlines: map<MessageId, int>, maxMessages: nat)

  function NewLedger(maxMessages: nat): Ledger {
    Ledger(map[], [], map[], maxMessages)
  }

  predicate Somebody(recipients: Recipients, state: RecipientState) {
    exists p :: p in recipients && recipients[p] == state
  }

  /** aggregateDeliveryState. */
  function Aggregate(recipients: Recipients): (d: DeliveryState)
    ensures d == DeliveryPending <==> Somebody(recipients, Pending)
    ensures d == Sent <==> forall p :: p in recipients ==> recipients[p] == Acknowledged
    ensures d != Received
  {
    if Somebody(recipients, Pending) then DeliveryPending
    else if !Somebody(recipients, Failed) then Sent
    else if Somebody(recipients, Acknowledged) then Partial
    else DeliveryFailed
  }

  predicate Local(messages: seq<ChatMessage>, id: MessageId) {
    exists m :: m in messages && m.isLocal && m.id == id
  }

  /** The message the user sent with this id, with another delivery state. */
  function WithDelivery(messages: seq<ChatMessage>, id: MessageId, delivery: DeliveryState): (r: seq<ChatMessage>)
    ensures |r| == |messages|
    ensures forall i :: 0 <= i < |r| ==> r[i].id == messages[i].id && r[i].isLocal == messages[i].isLocal
  {
    if messages == [] then []
    else if messages[0].isLocal && messages[0].id == id then [messages[0].(delivery := delivery)] + messages[1..]
    else [messages[0]] + WithDelivery(messages[1..], id, delivery)
  }

  /** retireLocalMessageIdIfUnused. */
  function RetireIfUnused(l: Ledger, id: MessageId): Ledger {
    if id !in l.states || Somebody(l.states[id], Pending) || Local(l.messages, id) then l
    else l.(states := l.states - {id}, deadlines := l.deadlines - {id})
  }

  /** The oldest messages are dropped while there are too many. */
  function Trim(l: Ledger): (r: Ledger)
    ensures r.maxMessages == l.maxMessages && |r.messages| <= Max(|l.messages|, l.maxMessages)
    ensures |r.messages| <= l.maxMessages
    decreases |l.messages|
  {
    if |l.messages| <= l.maxMessages then l
    else
      var removed := l.messages[0];
      var shorter := l.(messages := l.messages[1..]);
      Trim(if removed.isLocal then RetireIfUnused(shorter, removed.id) else shorter)
  }

  function RememberMessage(l: Ledger, m: ChatMessage): Ledger {
    Trim(l.(messages := l.messages + [m]))
  }

  function RecordOutgoing(l: Ledger, id: MessageId, sender: PeerId, recipients: Recipients, now: int): Ledger {
    RememberMessage(
      l.(states := l.states[id := recipients], deadlines := l.deadlines[id := now + RETRY_DEADLINE_MS]),
      ChatMessage(id, sender, true, Aggregate(recipients)))
  }

  function RecordReceived(l: Ledger, id: MessageId, sender: PeerId): Ledger {
    RememberMessage(l, ChatMessage(id, sender, false, Received))
  }

  /** Whether the message may be sent again: it is still in the history and its deadline has not passed. */
  predicate RetryCandidate(l: Ledger, id: MessageId, now: int) {
    id in l.deadlines && l.deadlines[id] > now && Local(l.messages, id)
  }

  function PrepareRetry(l: Ledger, id: MessageId, peers: set<PeerId>): Ledger
    requires id in l.states
  {
    var recipients := l.states[id] + map p | p in peers :: Pending;
    l.(states := l.states[id := recipients], messages := WithDelivery(l.messages, id, Aggregate(recipients)))
  }

  function FailedRecipients(l: Ledger, id: MessageId): set<PeerId> {
    if id in l.states then set p | p in l.states[id] && l.states[id][p] == Failed else {}
  }

  predicate AwaitedFrom(l: Ledger, id: MessageId, p: PeerId) {
    id in l.states && p in l.states[id] && l.states[id][p] == Pending
  }

  /** markLocalRecipient: only a pending recipient changes its state. */
  function MarkLocalRecipient(l: Ledger, id: MessageId, p: PeerId, state: RecipientState): Ledger {
    if !AwaitedFrom(l, id, p) then l
    else
      var recipients: Recipients := l.states[id][p := state];
      var delivery := Aggregate(recipients);
      var marked := l.(states := l.states[id := recipients]);
      var retired := if delivery != DeliveryPending then RetireIfUnused(marked, id) else marked;
      retired.(messages := WithDelivery(l.messages, id, delivery))
  }

  // ----- the ledger is consistent -----

  ghost predicate LocalsUnique(messages: seq<ChatMessage>) {
    forall i, j :: 0 <= i < j < |messages| && messages[i].isLocal && messages[j].isLocal ==> messages[i].id != messages[j].id
  }

  /** The delivery shown for a message is what is known of its recipients. */
  ghost predicate DeliveryShown(l: Ledger, i: nat)
    requires i < |l.messages|
  {
    l.messages[i].isLocal ==> l.messages[i].id in l.states && l.messages[i].delivery == Aggregate(l.states[l.messages[i].id])
  }

  /** An entry is kept for exactly the messages that are in the history or still awaited from somebody. */
  ghost predicate LedgerOk(l: Ledger) {
    && LocalsUnique(l.messages)
    && (forall i :: 0 <= i < |l.messages| ==> DeliveryShown(l, i))
    && (forall id :: id in l.states ==> Local(l.messages, id) || Somebody(l.states[id], Pending))
    && l.deadlines.Keys == l.states.Keys
    && |l.messages| <= l.maxMessages
  }

  lemma {:induction false} WithDeliveryOnly(messages: seq<ChatMessage>, id: MessageId, delivery: DeliveryState)
    requires LocalsUnique(messages)
    ensures var r := WithDelivery(messages, id, delivery);
            forall i :: 0 <= i < |r| ==>
              r[i] == if messages[i].isLocal && messages[i].id == id then messages[i].(delivery := delivery) else messages[i]
  {
    if messages != [] && !(messages[0].isLocal && messages[0].id == id) {
      WithDeliveryOnly(messages[1..], id, delivery);
    }
  }

  lemma WithDeliveryLocals(messages: seq<ChatMessage>, id: MessageId, delivery: DeliveryState, other: MessageId)
    ensures Local(WithDelivery(messages, id, delivery), other) <==> Local(messages, other)
  {
  }

  /** Retiring touches only what is neither shown nor awaited. */
  lemma RetireKeeps(l: Ledger, id: MessageId)
    ensures var r := RetireIfUnused(l, id);
            && r.messages == l.messages && r.maxMessages == l.maxMessages
            && (forall m :: m in r.states <==> m in l.states && (m != id || Somebody(l.states[m], Pending) || Local(l.messages, m)))
            && (forall m :: m in r.states ==> r.states[m] == l.states[m])
            && (l.deadlines.Keys == l.states.Keys ==> r.deadlines.Keys == r.states.Keys)
            && (forall m, p :: AwaitedFrom(r, m, p) <==> AwaitedFrom(l, m, p))
  {
  }

  /** Only the entry of the message that was just dropped may be in excess. */
  ghost predicate LedgerOkBut(l: Ledger, id: MessageId) {
    && LocalsUnique(l.messages)
    && (forall i :: 0 <= i < |l.messages| ==> DeliveryShown(l, i))
    && (forall m :: m in l.states && m != id ==> Local(l.messages, m) || Somebody(l.states[m], Pending))
    && l.deadlines.Keys == l.states.Keys
  }

  lemma DropOldest(l: Ledger, oldest: MessageId)
    requires l.messages != [] && LedgerOkBut(l, oldest) && (oldest in l.states ==> Local(l.messages, oldest) || Somebody(l.states[oldest], Pending))
    ensures LedgerOkBut(l.(messages := l.messages[1..]), l.messages[0].id)
    ensures !l.messages[0].isLocal ==>
              forall m :: m in l.states ==> Local(l.messages[1..], m) || Somebody(l.states[m], Pending)
  {
    var rest := l.messages[1..];
    forall m | Local(l.messages, m) && (m != l.messages[0].id || !l.messages[0].isLocal)
      ensures Local(rest, m)
    {
      var i :| 0 <= i < |l.messages| && l.messages[i].isLocal && l.messages[i].id == m;
      assert rest[i - 1] in rest;
    }
    forall i | 0 <= i < |rest|
      ensures DeliveryShown(l.(messages := rest), i)
    {
      assert DeliveryShown(l, i + 1);
    }
  }

  lemma {:induction false} TrimKeeps(l: Ledger)
    requires LocalsUnique(l.messages) && l.deadlines.Keys == l.states.Keys
    requires forall i :: 0 <= i < |l.messages| ==> DeliveryShown(l, i)
    requires forall m :: m in l.states ==> Local(l.messages, m) || Somebody(l.states[m], Pending)
    ensures LedgerOk(Trim(l))
    ensures forall m, p :: AwaitedFrom(Trim(l), m, p) <==> AwaitedFrom(l, m, p)
    ensures Trim(l).deadlines.Keys <= l.deadlines.Keys
    ensures forall m :: m in Trim(l).deadlines ==> Trim(l).deadlines[m] == l.deadlines[m]
    decreases |l.messages|
  {
    if |l.messages| > l.maxMessages {
      var removed := l.messages[0];
      var shorter := l.(messages := l.messages[1..]);
      DropOldest(l, removed.id);
      if removed.isLocal {
        RetireKeeps(shorter, removed.id);
        var retired := RetireIfUnused(shorter, removed.id);
        forall i | 0 <= i < |retired.messages|
          ensures DeliveryShown(retired, i)
        {
          assert DeliveryShown(shorter, i);
          assert retired.messages[i].isLocal ==> retired.messages[i] in retired.messages && Local(shorter.messages, retired.messages[i].id);
        }
        TrimKeeps(retired);
      } else {
        TrimKeeps(shorter);
      }
    }
  }

  /** Sending a message with an id that was never used. */
  lemma RecordOutgoingKeeps(l: Ledger, id: MessageId, sender: PeerId, recipients: Recipients, now: int)
    requires LedgerOk(l) && id !in l.states && !Local(l.messages, id)
    ensures var l' := RecordOutgoing(l, id, sender, recipients, now);
            && LedgerOk(l') && l'.maxMessages == l.maxMessages
            && (forall m, p :: AwaitedFrom(l', m, p)
                               <==> AwaitedFrom(l, m, p) || (m == id && p in recipients && recipients[p] == Pending))
            && (forall m :: m in l'.deadlines ==> if m == id then l'.deadlines[m] == now + RETRY_DEADLINE_MS
                                                  else m in l.deadlines && l'.deadlines[m] == l.deadlines[m])
  {
    var more := l.(states := l.states[id := recipients], deadlines := l.deadlines[id := now + RETRY_DEADLINE_MS],
                   messages := l.messages + [ChatMessage(id, sender, true, Aggregate(recipients))]);
    AppendKeeps(l, more, more.messages[|l.messages|]);
    TrimKeeps(more);
  }

  lemma AppendKeeps(l: Ledger, more: Ledger, m: ChatMessage)
    requires LedgerOk(l) && more.messages == l.messages + [m]
    requires m.isLocal ==> !Local(l.messages, m.id) && m.id !in l.states && m.id in more.states && m.delivery == Aggregate(more.states[m.id])
    requires forall k :: k in more.states <==> k in l.states || (m.isLocal && k == m.id)
    requires forall k :: k in l.states ==> more.states[k] == l.states[k]
    ensures LocalsUnique(more.messages)
    ensures forall i :: 0 <= i < |more.messages| ==> DeliveryShown(more, i)
    ensures forall k :: k in more.states ==> Local(more.messages, k) || Somebody(more.states[k], Pending)
  {
    forall i | 0 <= i < |more.messages|
      ensures DeliveryShown(more, i)
    {
      if i < |l.messages| {
        assert DeliveryShown(l, i);
      }
    }
    forall i | 0 <= i < |l.messages| && l.messages[i].isLocal && m.isLocal
      ensures l.messages[i].id != m.id
    {
      assert l.messages[i] in l.messages;
    }
    forall k | k in more.states
      ensures Local(more.messages, k) || Somebody(more.states[k], Pending)
    {
      if k in l.states {
        if Local(l.messages, k) {
          var x :| x in l.messages && x.isLocal && x.id == k;
          assert x in more.messages;
        }
      } else {
        assert m in more.messages;
      }
    }
  }

  lemma RecordReceivedKeeps(l: Ledger, id: MessageId, sender: PeerId)
    requires LedgerOk(l)
    ensures var l' := RecordReceived(l, id, sender);
            && LedgerOk(l') && l'.maxMessages == l.maxMessages
            && (forall m, p :: AwaitedFrom(l', m, p) <==> AwaitedFrom(l, m, p))
            && (forall m :: m in l'.deadlines ==> m in l.deadlines && l'.deadlines[m] == l.deadlines[m])
  {
    var m := ChatMessage(id, sender, false, Received);
    AppendKeeps(l, l.(messages := l.messages + [m]), m);
    TrimKeeps(l.(messages := l.messages + [m]));
  }

  /** Showing the delivery of one message again after its recipients have changed. */
  lemma ShownAgain(l: Ledger, id: MessageId, recipients: Recipients, l': Ledger)
    requires LedgerOk(l) && id in l.states
    requires l'.messages == WithDelivery(l.messages, id, Aggregate(recipients))
    requires forall m :: m in l.states && (m != id || Local(l.messages, id)) ==> m in l'.states
    requires forall m :: m in l'.states ==> l'.states[m] == if m == id then recipients else (if m in l.states then l.states[m] else map[])
    ensures LocalsUnique(l'.messages)
    ensures forall i :: 0 <= i < |l'.messages| ==> DeliveryShown(l', i)
  {
    WithDeliveryOnly(l.messages, id, Aggregate(recipients));
    forall i | 0 <= i < |l'.messages|
      ensures DeliveryShown(l', i)
    {
      assert DeliveryShown(l, i);
      if l.messages[i].isLocal && l.messages[i].id == id {
        assert l.messages[i] in l.messages;
      }
    }
  }

  /** What marking leaves in the ledger. */
  lemma MarkedStates(l: Ledger, id: MessageId, p: PeerId, state: RecipientState, recipients: Recipients, l': Ledger)
    requires AwaitedFrom(l, id, p) && recipients == l.states[id][p := state] && l' == MarkLocalRecipient(l, id, p, state)
    requires l.deadlines.Keys == l.states.Keys
    ensures l'.messages == WithDelivery(l.messages, id, Aggregate(recipients)) && l'.maxMessages == l.maxMessages
    ensures forall m :: m in l'.states <==> m in l.states && (m != id || Somebody(recipients, Pending) || Local(l.messages, id))
    ensures forall m :: m in l'.states ==> l'.states[m] == if m == id then recipients else l.states[m]
    ensures l'.deadlines.Keys == l'.states.Keys
    ensures forall m :: m in l'.deadlines ==> m in l.deadlines && l'.deadlines[m] == l.deadlines[m]
  {
    RetireKeeps(l.(states := l.states[id := recipients]), id);
  }

  /** A recipient's answer, or its failure, changes what is known of that recipient alone. */
  lemma MarkKeeps(l: Ledger, id: MessageId, p: PeerId, state: RecipientState, l': Ledger)
    requires LedgerOk(l) && state != Pending && l' == MarkLocalRecipient(l, id, p, state)
    ensures LedgerOk(l') && l'.maxMessages == l.maxMessages
    ensures forall m, q :: AwaitedFrom(l', m, q) <==> AwaitedFrom(l, m, q) && !(m == id && q == p)
    ensures forall m :: m in l'.deadlines ==> m in l.deadlines && l'.deadlines[m] == l.deadlines[m]
  {
    if AwaitedFrom(l, id, p) {
      var recipients: Recipients := l.states[id][p := state];
      MarkedStates(l, id, p, state, recipients, l');
      ShownAgain(l, id, recipients, l');
      forall m
        ensures Local(l'.messages, m) <==> Local(l.messages, m)
      {
        WithDeliveryLocals(l.messages, id, Aggregate(recipients), m);
      }
      MarkedAwaited(l, id, p, recipients, l');
    }
  }

  lemma MarkedAwaited(l: Ledger, id: MessageId, p: PeerId, recipients: Recipients, l': Ledger)
    requires AwaitedFrom(l, id, p) && p in recipients && recipients == l.states[id][p := recipients[p]] && recipients[p] != Pending
    requires forall m :: m in l'.states <==> m in l.states && (m != id || Somebody(recipients, Pending) || Local(l.messages, id))
    requires forall m :: m in l'.states ==> l'.states[m] == if m == id then recipients else l.states[m]
    ensures forall m, q :: AwaitedFrom(l', m, q) <==> AwaitedFrom(l, m, q) && !(m == id && q == p)
  {
    forall m, q | AwaitedFrom(l, m, q) && !(m == id && q == p)
      ensures AwaitedFrom(l', m, q)
    {
      if m == id {
        assert q in recipients && recipients[q] == Pending;
      }
    }
  }

  /** A retry makes failed recipients pending again. */
  lemma PrepareRetryKeeps(l: Ledger, id: MessageId, peers: set<PeerId>)
    requires LedgerOk(l) && Local(l.messages, id) && id in l.states
    ensures var l' := PrepareRetry(l, id, peers);
            && LedgerOk(l') && l'.maxMessages == l.maxMessages && l'.deadlines == l.deadlines
            && (forall m, q :: AwaitedFrom(l', m, q) <==> AwaitedFrom(l, m, q) || (m == id && q in peers))
  {
    var recipients := l.states[id] + map p | p in peers :: Pending;
    var l' := PrepareRetry(l, id, peers);
    ShownAgain(l, id, recipients, l');
    forall m
      ensures Local(l'.messages, m) <==> Local(l.messages, m)
    {
      WithDeliveryLocals(l.messages, id, Aggregate(recipients), m);
    }
  }
}
