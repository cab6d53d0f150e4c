/** The linked FIFO of pfind, refining the sequence that the step system uses as its queue. */
module PfindQueue {

  import opened Basics

  class QNode<K> {
    var key: K
    var next: QNode?<K>

    /** `newNode` */
    constructor (k: K)
      ensures key == k && next == null
    {
      key := k;
      next := null;
    }
  }

  class Queue<K> {
    var front: QNode?<K>
    var rear: QNode?<K>
    var emptyQueue: bool             // the global empty_queue
    ghost var nodes: seq<QNode<K>>   // the nodes from front to rear
    ghost var enqueued: seq<K>       // every key ever given to Enqueue
    ghost var dequeued: seq<K>       // every key ever returned by Dequeue

    /** The nodes form one chain from `front` to `rear`, both null together; keys returned followed by
        keys held are the keys given; the flag never claims an empty queue that is not. */
    ghost predicate Valid()
      reads this, nodes
    {
      && (front == null <==> nodes == []) && (rear == null <==> nodes == [])
      && (nodes != [] ==> front == nodes[0] && rear == nodes[|nodes| - 1])
      && (forall i :: 0 <= i < |nodes| - 1 ==> nodes[i].next == nodes[i + 1])
      && (nodes != [] ==> nodes[|nodes| - 1].next == null)
      && (forall i, j :: 0 <= i < j < |nodes| ==> nodes[i] != nodes[j])
      && dequeued + Contents() == enqueued
      && (emptyQueue ==> nodes == [])
    }

    ghost function Contents(): (s: seq<K>)
      reads this, nodes
      ensures |s| == |nodes|
    {
      seq(|nodes|, i requires 0 <= i < |nodes| reads this, nodes => nodes[i].key)
    }

    /** `createQueue` */
    constructor ()
      ensures Valid() && fresh(this) && Contents() == [] && enqueued == dequeued == []
    {
      front, rear, emptyQueue := null, null, true;
      nodes, enqueued, dequeued := [], [], [];
    }

    /** `enQueue` */
    method Enqueue(k: K)
      requires Valid()
      modifies this, rear
      ensures Valid() && Contents() == old(Contents()) + [k]
      ensures enqueued == old(enqueued) + [k] && dequeued == old(dequeued)
      ensures !emptyQueue
      ensures nodes[..|nodes| - 1] == old(nodes) && fresh(nodes[|nodes| - 1])
    {
      ghost var held := Contents();
      emptyQueue := false;
      var temp := new QNode(k);
      enqueued := enqueued + [k];
      nodes := nodes + [temp];
      if rear == null {
        front, rear := temp, temp;
        return;
      }
      rear.next := temp;
      rear := temp;
      assert Contents() == held + [k];
    }

    /** `deQueue`, None for NULL */
    method Dequeue() returns (k: Option<K>)
      requires Valid()
      modifies this
      ensures Valid() && enqueued == old(enqueued)
      ensures k.None? <==> old(Contents()) == []
      ensures k.None? ==> Contents() == [] && dequeued == old(dequeued) && emptyQueue
      ensures k.Some? ==> old(Contents()) == [k.value] + Contents() && dequeued == old(dequeued) + [k.value]
      ensures k.Some? ==> emptyQueue == old(emptyQueue)
    {
      if front == null {
        emptyQueue := true;
        return None;
      }
      ghost var held := Contents();
      k := Some(front.key);
      assert 1 < |nodes| ==> nodes[0].next == nodes[1];
      front := front.next;
      if front == null {
        rear := null;
      }
      dequeued := dequeued + [k.value];
      nodes := nodes[1..];
      assert held == [k.value] + Contents();
    }
  }
}
