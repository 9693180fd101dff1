/** queue.c: the linked list with a front and a back pointer, as an object whose methods change
    nodes and pointers in place. */
module LinkedQueue {
  import opened Common

  /** queue_node_t. `live` is false once the node has been freed. */
  class Node<T> {
    var value: T
    var next: Node?<T>
    ghost var live: bool

    constructor (value: T)
      ensures this.value == value && next == null && live
    {
      this.value, next, live := value, null, true;
    }
  }

  /** queue_node_free: freeing twice is not allowed. */
  method Free<T>(node: Node<T>)
    requires node.live
    modifies node`live
    ensures !node.live
  {
    ghost var dead := false;
    node.live := dead;
  }

  class Queue<T> {
    var front: Node?<T>
    var back: Node?<T>
    var owning: bool              // a deleter was given to queue_init
    ghost var spine: seq<Node<T>> // the nodes from front to back

    static ghost function After(nodes: seq<Node<T>>, i: nat): Node?<T>
      requires i < |nodes|
    {
      if i + 1 < |nodes| then nodes[i + 1] else null
    }

    ghost predicate Linked(i: nat)
      requires i < |spine|
      reads this, spine
    {
      spine[i].live && spine[i].next == After(spine, i)
    }

    /** front is NULL iff back is NULL; back is the last node reached from front; the list ends
        there, never meets a node twice, and holds no freed node. */
    ghost predicate Valid()
      reads this, spine
    {
      && front == (if spine == [] then null else spine[0])
      && back == (if spine == [] then null else spine[|spine| - 1])
      && (forall i | 0 <= i < |spine| :: Linked(i))
      && (forall i, j | 0 <= i < j < |spine| :: spine[i] != spine[j])
    }

    ghost function Contents(): (c: seq<T>)
      reads this, spine
      ensures |c| == |spine|
    {
      seq(|spine|, i requires 0 <= i < |spine| reads this, spine => spine[i].value)
    }

    constructor (owning: bool)
      ensures Valid() && Contents() == [] && this.owning == owning && spine == []
    {
      front, back, spine := null, null, [];
      this.owning := owning;
    }

    /** queue_push: refuses NULL, and fails when no node can be allocated. */
    method Push(value: Option<T>, outOfMemory: bool) returns (code: int)
      requires Valid()
      modifies this, spine
      ensures Valid() && owning == old(owning)
      ensures code == if value.Some? && !outOfMemory then 0 else -1
      ensures Contents() == if code == 0 then old(Contents()) + [value.value] else old(Contents())
      ensures if code == 0 then |spine| == |old(spine)| + 1 && spine[..|old(spine)|] == old(spine)
                                && fresh(spine[|spine| - 1])
              else spine == old(spine)
    {
      if value.None? || outOfMemory {
        return -1;
      }
      var node := new Node(value.value);
      if back == null {
        front := node;
        back := node;
      } else {
        assert Linked(|spine| - 1);
        back.next := node;
        back := node;
      }
      spine := spine + [node];
      forall i | 0 <= i < |spine| ensures Linked(i) {
        assert i < |old(spine)| ==> old(Linked(i));
      }
      return 0;
    }

    /** queue_pop: takes the head out, or yields NULL. */
    method Pop() returns (value: Option<T>)
      requires Valid()
      modifies this, spine
      ensures Valid() && owning == old(owning)
      ensures value == if old(Contents()) == [] then None else Some(old(Contents())[0])
      ensures Contents() == if old(Contents()) == [] then [] else old(Contents())[1..]
      ensures spine == if old(spine) == [] then [] else old(spine)[1..]
      ensures old(spine) != [] ==> !old(spine[0]).live
    {
      var node := front;
      if node == null {
        return None;
      }
      assert Linked(0);
      if node.next == null {
        front := null;
        back := null;
      } else {
        front := node.next;
      }
      value := Some(node.value);
      Free(node);
      spine := spine[1..];
      forall i | 0 <= i < |spine| ensures Linked(i) {
        assert old(Linked(i + 1));
      }
    }

    /** queue_size: the number of nodes met from front on. */
    method Size() returns (size: nat)
      requires Valid()
      ensures size == |Contents()|
    {
      size := 0;
      var i := front;
      while i != null
        invariant size <= |spine| && i == if size < |spine| then spine[size] else null
        decreases |spine| - size
      {
        assert Linked(size);
        size := size + 1;
        i := i.next;
      }
    }

    /** queue_empty: true when there is nothing in the queue. It looks at back, queue_pop at front. */
    method IsEmpty() returns (empty: bool)
      requires Valid()
      ensures empty <==> Contents() == []
      ensures empty <==> front == null
    {
      empty := back == null;
    }

    /** The loop of queue_destroy: frees the nodes from `first` on. The C code tests for the deleter
        once, before the loop. */
    static method FreeFrom(first: Node?<T>, owning: bool, ghost nodes: seq<Node<T>>) returns (deleted: seq<T>)
      requires first == if nodes == [] then null else nodes[0]
      requires forall k | 0 <= k < |nodes| :: nodes[k].live
      requires forall k {:trigger After(nodes, k)} | 0 <= k < |nodes| :: nodes[k].next == After(nodes, k)
      requires forall k, l | 0 <= k < l < |nodes| :: nodes[k] != nodes[l]
      modifies set n | n in nodes :: n`live
      ensures |deleted| == if owning then |nodes| else 0
      ensures forall k | 0 <= k < |deleted| :: deleted[k] == nodes[k].value
      ensures forall k | 0 <= k < |nodes| :: !nodes[k].live
    {
      var i := first;
      ghost var n := 0;
      deleted := [];
      while i != null
        invariant n <= |nodes| && i == if n < |nodes| then nodes[n] else null
        invariant forall k | 0 <= k < n :: !nodes[k].live
        invariant forall k | n <= k < |nodes| :: nodes[k].live
        invariant |deleted| == if owning then n else 0
        invariant forall k | 0 <= k < |deleted| :: deleted[k] == nodes[k].value
        decreases |nodes| - n
      {
        var j := i.next;
        assert i == nodes[n] && i in nodes && j == After(nodes, n);
        if owning {
          deleted := deleted + [i.value];
        }
        Free(i);
        i := j;
        n := n + 1;
      }
    }

    /** queue_destroy: every node is freed, and the deleter, if there is one, is called once for
        every value left, first in first out. */
    method Destroy() returns (deleted: seq<T>)
      requires Valid()
      modifies this, spine
      ensures Valid() && owning == old(owning) && Contents() == []
      ensures deleted == if owning then old(Contents()) else []
      ensures forall i | 0 <= i < |old(spine)| :: !old(spine)[i].live
    {
      forall k | 0 <= k < |spine| ensures spine[k].live && spine[k].next == After(spine, k) {
        assert Linked(k);
      }
      deleted := FreeFrom(front, owning, spine);
      front := null;
      back := null;
      spine := [];
    }
  }
}
