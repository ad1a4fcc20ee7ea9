/** The earlier task queue (queue.c): the same singly linked FIFO with head and
    tail pointers, but each node holds a copy of the process record rather than a
    pointer to it, and there is no dequeue or isEmpty. The mutex is initialised
    and never taken, so the model is single-threaded and has no lock. */
module Queue {
  import opened QueueSpec
  import opened Sched

  class Node {
    var proc: Process
    var next: Node?

    /** makeNode: a new node holding a copy of p and linked to nothing. */
    constructor MakeNode(p: Process)
      ensures proc == p && next == null
    {
      proc := p;
      next := null;
    }
  }

  /** The caller allocates the queue record; InitQueue gives it its links. */
  class Queue {
    var head: Node?
    var tail: Node?

    /** The nodes from head to tail, the records they hold, and the objects the
        queue owns. */
    ghost var Nodes: seq<Node>
    ghost var Contents: seq<Process>
    ghost var Repr: set<object>

    /** The list starting at head runs through Nodes, ends in a null link, and tail
        is its last node; an empty queue has a null head. */
    ghost predicate Valid()
      reads this, Repr
    {
      this in Repr &&
      |Nodes| == |Contents| &&
      (forall i :: 0 <= i < |Nodes| ==> Nodes[i] in Repr && Nodes[i].proc == Contents[i]) &&
      (forall i, j :: 0 <= i < j < |Nodes| ==> Nodes[i] != Nodes[j]) &&
      (forall i :: 0 <= i < |Nodes| - 1 ==> Nodes[i].next == Nodes[i + 1]) &&
      (if Nodes == [] then head == null
       else head == Nodes[0] && tail == Nodes[|Nodes| - 1] && tail.next == null)
    }

    /** initQueue: sets head and tail to null and returns 0. */
    method InitQueue() returns (status: int)
      modifies this
      ensures Valid() && Repr == {this}
      ensures Contents == [] && head == null && tail == null
      ensures status == 0
    {
      head, tail := null, null;
      Nodes, Contents, Repr := [], [], {this};
      return 0;
    }

    /** enqueue: appends a copy of p in a new node that becomes the tail. */
    method Enqueue(p: Process)
      requires Valid()
      modifies Repr
      ensures Valid() && fresh(Repr - old(Repr))
      ensures Contents == old(Contents) + [p]
      ensures tail != null && fresh(tail) && tail.proc == p && tail.next == null
      ensures tail == Nodes[|Nodes| - 1]
      ensures old(Contents) != [] ==> head == old(head)
    {
      var node := new Node.MakeNode(p);
      if head == null {
        head := node;
        tail := node;
      }
      tail.next := node;
      node.next := null;
      tail := node;
      Nodes := Nodes + [node];
      Contents := Contents + [p];
      Repr := Repr + {node};
    }

    /** headToTail: copies the head record into a new node at the back and unlinks
        the old head node. Returns -1, and changes nothing, on an empty queue; 0
        otherwise. */
    method HeadToTail() returns (status: int)
      requires Valid()
      modifies Repr
      ensures Valid() && fresh(Repr - old(Repr))
      ensures status == (if old(Contents) == [] then -1 else 0)
      ensures old(Contents) == [] ==> Contents == old(Contents) && Repr == old(Repr) && unchanged(this)
      ensures old(Contents) != [] ==> Contents == Rotated(old(Contents))
      ensures old(|Contents|) > 1 ==> head == old(head.next)
    {
      if head == null {
        return -1;
      }
      var dropped := head;
      var temp := head.proc;
      head := head.next;
      Nodes := Nodes[1..];
      Contents := Contents[1..];
      Repr := Repr - {dropped};
      Enqueue(temp);
      return 0;
    }
  }
}
