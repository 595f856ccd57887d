/** The data channel object of one participant (peer-data-channel.ts): its queue and its limits. */
module PeerDataChannel {
  import opened Common
  import opened FixedWindow
  import Chat = RoomChat
  import Delivery = ChatDelivery
  import Receiving = ChatReceiving

  /** The chats before the first one that has not been sent on this channel. */
  lemma FlushStep(queue: seq<Delivery.PendingChat>, k: nat, n: nat)
    requires k < |queue| && !queue[k].sentOnCurrentChannel && n > 0
    requires forall i :: 0 <= i < k ==> queue[i].sentOnCurrentChannel
    ensures Delivery.Flushed(queue, n)
            == Delivery.Flushed(queue[k := queue[k].(sentOnCurrentChannel := true, everSent := true)], n - 1)
    decreases k
  {
    var sent := queue[k].(sentOnCurrentChannel := true, everSent := true);
    if k > 0 {
      FlushStep(queue[1..], k - 1, n);
      assert queue[k := sent][1..] == queue[1..][k - 1 := sent];
      SentFirst(queue[k := sent], n - 1);
    } else {
      assert queue[k := sent][1..] == queue[1..];
      SentFirst(queue[k := sent], n - 1);
    }
  }

  lemma SentFirst(queue: seq<Delivery.PendingChat>, n: nat)
    requires queue != [] && queue[0].sentOnCurrentChannel
    ensures Delivery.Flushed(queue, n) == [queue[0]] + Delivery.Flushed(queue[1..], n)
  {
  }

  lemma {:induction false} AllSent(queue: seq<Delivery.PendingChat>, n: nat)
    requires forall i :: 0 <= i < |queue| ==> queue[i].sentOnCurrentChannel
    ensures Delivery.Flushed(queue, n) == queue
  {
    if queue != [] && n != 0 {
      AllSent(queue[1..], n);
    }
  }

  class PeerDataChannel {
    var pendingChatMessages: seq<Delivery.PendingChat>
    var receivedChatIds: seq<Receiving.ChatId>
    var inboundWindowStartedAt: Option<int>
    var inboundMessagesInWindow: int

    constructor ()
      ensures pendingChatMessages == [] && Inbound() == Receiving.Channel(Closed, [])
    {
      pendingChatMessages, receivedChatIds := [], [];
      inboundWindowStartedAt, inboundMessagesInWindow := None, 0;
    }

    ghost function Window(): Window
      reads this
    {
      if inboundWindowStartedAt == None then Closed else Open(inboundWindowStartedAt.value, inboundMessagesInWindow)
    }

    ghost function Inbound(): Receiving.Channel
      reads this
    {
      Receiving.Channel(Window(), receivedChatIds)
    }

    /** The flags of all pending chats when a channel is attached. */
    method ForgetSent()
      modifies `pendingChatMessages
      ensures pendingChatMessages == Delivery.Reattached(old(pendingChatMessages))
    {
      var i := 0;
      while i < |pendingChatMessages|
        invariant 0 <= i <= |pendingChatMessages| == |old(pendingChatMessages)|
        invariant forall k :: 0 <= k < i ==> pendingChatMessages[k] == old(pendingChatMessages)[k].(sentOnCurrentChannel := false)
        invariant forall k :: i <= k < |pendingChatMessages| ==> pendingChatMessages[k] == old(pendingChatMessages)[k]
      {
        pendingChatMessages := pendingChatMessages[i := pendingChatMessages[i].(sentOnCurrentChannel := false)];
        i := i + 1;
      }
    }

    method EnqueueChat(id: Chat.MessageId, now: int)
      modifies `pendingChatMessages
      ensures pendingChatMessages == Delivery.Enqueued(old(pendingChatMessages), id, now)
    {
      pendingChatMessages := pendingChatMessages + [Delivery.PendingChat(id, now, false, false)];
    }

    method FirstUnsent() returns (k: nat)
      ensures k <= |pendingChatMessages|
      ensures forall i :: 0 <= i < k ==> pendingChatMessages[i].sentOnCurrentChannel
      ensures k < |pendingChatMessages| ==> !pendingChatMessages[k].sentOnCurrentChannel
    {
      k := 0;
      while k < |pendingChatMessages| && pendingChatMessages[k].sentOnCurrentChannel
        invariant 0 <= k <= |pendingChatMessages|
        invariant forall i :: 0 <= i < k ==> pendingChatMessages[i].sentOnCurrentChannel
      {
        k := k + 1;
      }
    }

    /** The chat part of `flush`, on a channel that takes n more frames before it is full or fails. */
    method FlushChats(n: nat)
      modifies `pendingChatMessages
      ensures pendingChatMessages == Delivery.Flushed(old(pendingChatMessages), n)
    {
      var left := n;
      while true
        invariant 0 <= left
        invariant Delivery.Flushed(pendingChatMessages, left) == Delivery.Flushed(old(pendingChatMessages), n)
        decreases left
      {
        var k := FirstUnsent();
        if k == |pendingChatMessages| {
          AllSent(pendingChatMessages, left);
          return;
        }
        if left == 0 {
          return;
        }
        FlushStep(pendingChatMessages, k, left);
        pendingChatMessages := pendingChatMessages[k := pendingChatMessages[k].(sentOnCurrentChannel := true, everSent := true)];
        left := left - 1;
      }
    }

    /** acknowledgeChat: the chat with this id leaves the queue if it was ever sent. */
    method AcknowledgeChat(id: Chat.MessageId) returns (acknowledged: bool)
      requires Delivery.QueueOk(pendingChatMessages)
      modifies `pendingChatMessages
      ensures acknowledged == Delivery.Acknowledgeable(old(pendingChatMessages), id)
      ensures pendingChatMessages == if acknowledged then Delivery.Removed(old(pendingChatMessages), id) else old(pendingChatMessages)
    {
      var index := 0;
      while index < |pendingChatMessages| && !(pendingChatMessages[index].everSent && pendingChatMessages[index].id == id)
        invariant 0 <= index <= |pendingChatMessages|
        invariant forall i :: 0 <= i < index ==> !(pendingChatMessages[i].everSent && pendingChatMessages[i].id == id)
      {
        index := index + 1;
      }
      if index == |pendingChatMessages| {
        return false;
      }
      assert Delivery.IndexOf(pendingChatMessages, id) == index;
      pendingChatMessages := pendingChatMessages[..index] + pendingChatMessages[index + 1..];
      return true;
    }

    /** The room is left, or the participant is. */
    method Dispose() returns (failed: seq<Delivery.PendingChat>)
      modifies this
      ensures failed == old(pendingChatMessages)
      ensures pendingChatMessages == [] && Inbound() == Receiving.Channel(Closed, [])
    {
      failed := pendingChatMessages;
      pendingChatMessages, receivedChatIds := [], [];
      inboundWindowStartedAt, inboundMessagesInWindow := None, 0;
    }

    method ConsumeInboundBudget(now: int) returns (accepted: bool)
      modifies `inboundWindowStartedAt, `inboundMessagesInWindow
      ensures var budget := Receiving.Budget(old(Window()), now);
              && accepted == budget.Some?
              && Window() == if accepted then budget.value
                             else if Expired(old(Window()), Receiving.RATE_WINDOW_MS, now) then Open(now, 0) else old(Window())
    {
      if inboundWindowStartedAt == None || now - inboundWindowStartedAt.value >= Receiving.RATE_WINDOW_MS {
        inboundWindowStartedAt, inboundMessagesInWindow := Some(now), 0;
      }
      if inboundMessagesInWindow >= Receiving.MAX_MESSAGES_PER_WINDOW {
        return false;
      }
      inboundMessagesInWindow := inboundMessagesInWindow + 1;
      return true;
    }

    method RememberReceivedChatId(id: Receiving.ChatId)
      requires id !in receivedChatIds && |receivedChatIds| <= Receiving.MAX_RECEIVED_CHAT_IDS
      modifies `receivedChatIds
      ensures receivedChatIds == Receiving.Remembered(old(receivedChatIds), id, Receiving.MAX_RECEIVED_CHAT_IDS)
    {
      receivedChatIds := receivedChatIds + [id];
      ghost var all := receivedChatIds;
      while |receivedChatIds| > Receiving.MAX_RECEIVED_CHAT_IDS
        invariant |receivedChatIds| <= |all| && receivedChatIds == all[|all| - |receivedChatIds|..]
        invariant |receivedChatIds| >= Min(|all|, Receiving.MAX_RECEIVED_CHAT_IDS)
        decreases |receivedChatIds|
      {
        receivedChatIds := receivedChatIds[1..];
      }
    }
  }
}
