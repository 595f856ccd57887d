/** The raised hands of a room in the order they were raised (RoomHandQueue.java). */
module RoomHandQueue {
  import opened Common

  datatype HandQueue = HandQueue(queue: seq<nat>, revision: nat)

  const EMPTY_QUEUE := HandQueue([], 0)

  function Changes(q: HandQueue, peer: nat, raised: bool): bool {
    if raised then peer !in q.queue else peer in q.queue
  }

  function Update(q: HandQueue, peer: nat, raised: bool): HandQueue {
    if !Changes(q, peer, raised) then q
    else HandQueue(if raised then q.queue + [peer] else Without(q.queue, peer), q.revision + 1)
  }

  /** An update keeps the queue free of repetitions and moves nobody but the peer it names. */
  lemma UpdateKeepsOrder(q: HandQueue, peer: nat, raised: bool)
    requires NoDup(q.queue)
    ensures NoDup(Update(q, peer, raised).queue)
    ensures peer in Update(q, peer, raised).queue <==> raised
    ensures Without(Update(q, peer, raised).queue, peer) == Without(q.queue, peer)
  {
    WithoutNoDup(q.queue, peer);
    WithoutSum(q.queue, [peer], peer);
  }

  class RoomHandQueue {
    // The insertion order of the LinkedHashSet.
    var queue: seq<nat>
    var revision: nat

    ghost function Model(): HandQueue
      reads this
    {
      HandQueue(queue, revision)
    }

    constructor ()
      ensures Model() == EMPTY_QUEUE
    {
      queue, revision := [], 0;
    }

    method UpdateHand(peer: nat, raised: bool) returns (changed: bool)
      modifies this
      ensures changed <==> Changes(old(Model()), peer, raised)
      ensures Model() == Update(old(Model()), peer, raised)
    {
      changed := if raised then peer !in queue else peer in queue;
      if changed {
        queue := if raised then queue + [peer] else Without(queue, peer);
        revision := revision + 1;
      }
    }
  }
}
