/** The scheduler's task queue (RoundRobinQueue/queue.c): a singly linked FIFO
    with head and tail pointers whose nodes hold process pointers.

    The element type P stands for `struct process*`: the queue stores the pointer
    it is given and hands it back, and never looks inside it. The queue's mutex is
    initialised by the source but never taken, so the model is single-threaded and
    has no lock. */
module RoundRobinQueue {
  import opened QueueSpec

  class Node<P> {
    var proc: P
    var next: Node?<P>

    /** makeNode: a new node holding p and linked to nothing. */
    constructor MakeNode(p: P)
      ensures proc == p && next == null
    {
      proc := p;
      next := null;
    }
  }

  class Queue<P> {
    var head: Node?<P>
    var tail: Node?<P>

    /** The nodes from head to tail, the processes they hold, and the objects the
        queue owns. */
    ghost var Nodes: seq<Node<P>>
    ghost var Contents: seq<P>
    ghost var Repr: set<object>

    /** The list starting at head runs through Nodes, ends in a null link, and tail
        is its last node. An empty queue has a null head; its tail is left
        unconstrained, because removing the last node does not reset it. */
    ghost predicate Valid()
      reads this, Repr
    {
      this in Repr &&
      |Nodes| == |Contents| &&
      (forall i :: 0 <= i < |Nodes| ==> Nodes[i] in Repr && Nodes[i].proc == Contents[i]) &&
      (forall i, j :: 0 <= i < j < |Nodes| ==> Nodes[i] != Nodes[j]) &&
      (forall i :: 0 <= i < |Nodes| - 1 ==> Nodes[i].next == Nodes[i + 1]) &&
      (if Nodes == [] then head == null
       else head == Nodes[0] && tail == Nodes[|Nodes| - 1] && tail.next == null)
    }

    /** initQueue: allocates a queue and, when its mutex could be initialised
        (lockStatus is what pthread_mutex_init returned), makes it empty. On a
        failed mutex initialisation the status is -1 and nothing is promised
        about the queue's links. */
    static method InitQueue(lockStatus: int) returns (status: int, queue: Queue<P>)
      ensures status == (if lockStatus == 0 then 0 else -1)
      ensures status == 0 ==> queue.Valid() && fresh(queue.Repr)
      ensures status == 0 ==> queue.Contents == [] && queue.head == null && queue.tail == null
    {
      queue := new Queue<P>;
      if lockStatus != 0 {
        return -1, queue;
      }
      queue.head, queue.tail := null, null;
      queue.Nodes, queue.Contents, queue.Repr := [], [], {queue};
      return 0, queue;
    }

    /** enqueue: appends p in a new node that becomes the tail. */
    method Enqueue(p: P)
      requires Valid()
      modifies Repr
      ensures Valid() && fresh(Repr - old(Repr))
      ensures Contents == old(Contents) + [p]
      ensures tail != null && fresh(tail) && tail.proc == p && tail.next == null
      ensures tail == Nodes[|Nodes| - 1]
      ensures old(Contents) != [] ==> head == old(head)
    {
      var node := new Node.MakeNode(p);
      if head == null {
        head := node;
        tail := node;
      }
      tail.next := node;
      node.next := null;
      tail := node;
      Nodes := Nodes + [node];
      Contents := Contents + [p];
      Repr := Repr + {node};
    }

    /** dequeue: unlinks and returns the head node, or null when the queue is empty.
        The returned node keeps its link to the new head. The tail pointer is not
        touched, so after removing the last node it still refers to the node
        returned. */
    method Dequeue() returns (node: Node?<P>)
      requires Valid()
      modifies this
      ensures Valid()
      ensures tail == old(tail)
      ensures old(Contents) == [] ==> node == null && Contents == [] && Repr == old(Repr) && head == old(head)
      ensures old(Contents) != [] ==>
                node == old(head) && node != null && node.proc == old(Contents)[0] &&
                Contents == old(Contents)[1..] && Repr == old(Repr) - {node}
      ensures old(Contents) != [] ==> node != null && node.next == head
    {
      var empty := IsEmpty();
      if empty {
        return null;
      }
      node := head;
      head := head.next;
      Nodes := Nodes[1..];
      Contents := Contents[1..];
      Repr := Repr - {node};
    }

    /** isEmpty: whether the head pointer is null, which is exactly when the queue
        holds no process. */
    method IsEmpty() returns (empty: bool)
      requires Valid()
      ensures empty <==> head == null
      ensures empty <==> Contents == []
    {
      empty := head == null;
    }

    /** headToTail: moves the head process to the back. The old head node is
        dropped and enqueue allocates a new node for the process. Returns -1, and
        changes nothing, on an empty queue; 0 otherwise. */
    method HeadToTail() returns (status: int)
      requires Valid()
      modifies Repr
      ensures Valid() && fresh(Repr - old(Repr))
      ensures status == (if old(Contents) == [] then -1 else 0)
      ensures old(Contents) == [] ==> Contents == old(Contents) && Repr == old(Repr) && unchanged(this)
      ensures old(Contents) != [] ==> Contents == Rotated(old(Contents))
      ensures old(|Contents|) > 1 ==> head == old(head.next)
    {
      if head == null {
        return -1;
      }
      var dropped := head;
      var temp := head.proc;
      head := head.next;
      Nodes := Nodes[1..];
      Contents := Contents[1..];
      Repr := Repr - {dropped};
      Enqueue(temp);
      return 0;
    }
  }

  /** A new queue holding procs, enqueued in order. */
  method FromSeq<P>(procs: seq<P>) returns (queue: Queue<P>)
    ensures queue.Valid() && fresh(queue.Repr)
    ensures queue.Contents == procs
  {
    var status;
    status, queue := Queue<P>.InitQueue(0);
    for i := 0 to |procs|
      invariant queue.Valid() && fresh(queue.Repr)
      invariant queue.Contents == procs[..i]
    {
      queue.Enqueue(procs[i]);
    }
    assert procs[..|procs|] == procs;
  }

  /** Dequeues until the queue reports empty, collecting the processes in the
      order they came out. */
  method Drain<P>(queue: Queue<P>) returns (drained: seq<P>)
    requires queue.Valid()
    modifies queue
    ensures queue.Valid() && queue.Contents == []
    ensures drained == old(queue.Contents)
  {
    drained := [];
    var node := queue.Dequeue();
    while node != null
      invariant queue.Valid()
      invariant node == null ==> queue.Contents == []
      invariant if node == null then drained == old(queue.Contents)
                else drained + [node.proc] + queue.Contents == old(queue.Contents)
      decreases |queue.Contents| + (if node == null then 0 else 1)
    {
      drained := drained + [node.proc];
      node := queue.Dequeue();
    }
  }

  /** First in, first out: processes enqueued one after another into a new queue
      are dequeued in the order they arrived. */
  method DrainInArrivalOrder<P>(procs: seq<P>) returns (drained: seq<P>)
    ensures drained == procs
  {
    var queue := FromSeq(procs);
    drained := Drain(queue);
  }

  /** Round-robin order: after k head-to-tail rotations of a queue built from
      procs, draining it yields procs rotated k times. */
  method DrainAfterRotations<P>(procs: seq<P>, k: nat) returns (drained: seq<P>)
    ensures drained == RotatedTimes(procs, k)
  {
    var queue := FromSeq(procs);
    for i := 0 to k
      invariant queue.Valid() && fresh(queue.Repr)
      invariant queue.Contents == RotatedTimes(procs, i)
    {
      ghost var before := queue.Contents;
      var status := queue.HeadToTail();
      assert queue.Contents == if before == [] then before else Rotated(before);
    }
    drained := Drain(queue);
  }
}
