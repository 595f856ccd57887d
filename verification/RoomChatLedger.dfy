/** The ledger object of the room client (RoomChatLedger in room-chat.ts). */
module RoomChatLedger {
  import opened Common
  import opened RoomChat
  import Receiving = ChatReceiving

  /** The position of the user's message decides what showing another delivery changes. */
  lemma {:induction false} FirstFound(messages: seq<ChatMessage>, id: MessageId, delivery: DeliveryState, k: nat)
    requires k <= |messages| && forall i :: 0 <= i < k ==> !(messages[i].isLocal && messages[i].id == id)
    requires k < |messages| ==> messages[k].isLocal && messages[k].id == id
    ensures WithDelivery(messages, id, delivery)
            == if k < |messages| then messages[k := messages[k].(delivery := delivery)] else messages
    decreases k
  {
    if k > 0 {
      FirstFound(messages[1..], id, delivery, k - 1);
    }
  }

  class RoomChatLedger {
    const maxMessages: nat
    var localRecipientStates: map<MessageId, Recipients>
    var messages: seq<ChatMessage>
    var retryDeadlines: map<MessageId, int>
    // The keys of received chats in the insertion order of the Set.
    var receivedIds: seq<Receiving.Key>

    ghost function Model(): Ledger
      reads this
    {
      Ledger(localRecipientStates, messages, retryDeadlines, maxMessages)
    }

    constructor (maxMessages: nat)
      ensures Model() == NewLedger(maxMessages) && receivedIds == []
    {
      this.maxMessages := maxMessages;
      localRecipientStates, messages, retryDeadlines, receivedIds := map[], [], map[], [];
    }

    static method AggregateDeliveryState(recipients: Recipients) returns (delivery: DeliveryState)
      ensures delivery == Aggregate(recipients)
    {
      var sentCount, failedCount := 0, 0;
      var unseen := recipients.Keys;
      while unseen != {}
        invariant unseen <= recipients.Keys && sentCount >= 0 && failedCount >= 0
        invariant forall p :: p in recipients && p !in unseen ==> recipients[p] != Pending
        invariant sentCount == 0 <==> forall p :: p in recipients && p !in unseen ==> recipients[p] != Acknowledged
        invariant failedCount == 0 <==> forall p :: p in recipients && p !in unseen ==> recipients[p] != Failed
        decreases |unseen|
      {
        var p :| p in unseen;
        unseen := unseen - {p};
        match recipients[p] {
          case Pending => return DeliveryPending;
          case Acknowledged => sentCount := sentCount + 1;
          case Failed => failedCount := failedCount + 1;
        }
      }
      if failedCount == 0 {
        return Sent;
      }
      return if sentCount == 0 then DeliveryFailed else Partial;
    }

    method RetireLocalMessageIdIfUnused(id: MessageId)
      modifies `localRecipientStates, `retryDeadlines
      ensures Model() == RetireIfUnused(old(Model()), id)
    {
      if id !in localRecipientStates || Somebody(localRecipientStates[id], Pending) || Local(messages, id) {
        return;
      }
      localRecipientStates := localRecipientStates - {id};
      retryDeadlines := retryDeadlines - {id};
    }

    method Remember(message: ChatMessage)
      modifies `messages, `localRecipientStates, `retryDeadlines
      ensures Model() == RememberMessage(old(Model()), message)
    {
      messages := messages + [message];
      while |messages| > maxMessages
        invariant Trim(Model()) == RememberMessage(old(Model()), message)
        decreases |messages|
      {
        var removed := messages[0];
        messages := messages[1..];
        if removed.isLocal {
          RetireLocalMessageIdIfUnused(removed.id);
        }
      }
    }

    method RecordOutgoingChat(id: MessageId, sender: PeerId, recipients: Recipients, now: int)
      modifies this
      ensures Model() == RecordOutgoing(old(Model()), id, sender, recipients, now)
      ensures receivedIds == old(receivedIds)
    {
      var delivery := AggregateDeliveryState(recipients);
      localRecipientStates := localRecipientStates[id := recipients];
      retryDeadlines := retryDeadlines[id := now + RETRY_DEADLINE_MS];
      Remember(ChatMessage(id, sender, true, delivery));
    }

    /** A chat that is not remembered is recorded, and the oldest keys are forgotten. */
    method RecordReceivedChat(id: MessageId, sender: PeerId)
      requires |receivedIds| <= Receiving.MAX_RECEIVED_KEYS
      modifies this
      ensures if Receiving.Key(sender, id) in old(receivedIds)
              then Model() == old(Model()) && receivedIds == old(receivedIds)
              else Model() == RecordReceived(old(Model()), id, sender)
                   && receivedIds == Receiving.Remembered(old(receivedIds), Receiving.Key(sender, id), Receiving.MAX_RECEIVED_KEYS)
    {
      var key := Receiving.Key(sender, id);
      if key in receivedIds {
        return;
      }
      receivedIds := receivedIds + [key];
      ghost var all := receivedIds;
      while |receivedIds| > Receiving.MAX_RECEIVED_KEYS
        invariant |receivedIds| <= |all| && receivedIds == all[|all| - |receivedIds|..]
        invariant |receivedIds| >= Min(|all|, Receiving.MAX_RECEIVED_KEYS)
        invariant Model() == old(Model())
        decreases |receivedIds|
      {
        receivedIds := receivedIds[1..];
      }
      Remember(ChatMessage(id, sender, false, Received));
    }

    /** The user's message in the history, with the delivery of its recipients. */
    method ShowDelivery(id: MessageId, delivery: DeliveryState)
      modifies `messages
      ensures messages == WithDelivery(old(messages), id, delivery)
    {
      var k := 0;
      while k < |messages| && !(messages[k].isLocal && messages[k].id == id)
        invariant 0 <= k <= |messages| && messages == old(messages)
        invariant forall i :: 0 <= i < k ==> !(messages[i].isLocal && messages[i].id == id)
      {
        k := k + 1;
      }
      FirstFound(messages, id, delivery, k);
      if k < |messages| {
        messages := messages[k := messages[k].(delivery := delivery)];
      }
    }

    method PrepareRetryOf(id: MessageId, peers: set<PeerId>)
      requires id in localRecipientStates
      modifies `messages, `localRecipientStates
      ensures Model() == PrepareRetry(old(Model()), id, peers)
    {
      var recipients := localRecipientStates[id] + map p | p in peers :: Pending;
      localRecipientStates := localRecipientStates[id := recipients];
      var delivery := AggregateDeliveryState(recipients);
      ShowDelivery(id, delivery);
    }

    /** The result is whether the history has changed. */
    method MarkRecipient(id: MessageId, p: PeerId, state: RecipientState) returns (changed: bool)
      modifies `messages, `localRecipientStates, `retryDeadlines
      ensures Model() == MarkLocalRecipient(old(Model()), id, p, state)
      ensures changed == (AwaitedFrom(old(Model()), id, p) && Local(old(messages), id))
    {
      if id !in localRecipientStates || p !in localRecipientStates[id] || localRecipientStates[id][p] != Pending {
        return false;
      }
      var recipients: Recipients := localRecipientStates[id][p := state];
      localRecipientStates := localRecipientStates[id := recipients];
      var delivery := AggregateDeliveryState(recipients);
      changed := Local(messages, id);
      if delivery != DeliveryPending {
        RetireLocalMessageIdIfUnused(id);
      }
      ShowDelivery(id, delivery);
    }
  }
}
