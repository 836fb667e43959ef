/** The deque under the send queue and the object pool: a ring of nodes with values, and a
    free list of nodes without. */
module ObjectLists {
  import opened Counting
  import opened Rings

  datatype Code = OK | NODATA | NOMEMORY

  class ObjectList<T(0)> {
    const cacheNodes_: nat
    const nodesCount_: nat := 0          // initialised and never updated
    var nodesCircle_: Node?<T>
    var nodesFree_: Node?<T>
    /** What a caller sees. */
    ghost var contents: seq<T>
    ghost var ring: seq<Node<T>>
    ghost var free: seq<Node<T>>
    /** Every node ever allocated. */
    ghost var nodes: set<Node<T>>
    /** How many lots of nodes there are: the embedded one and one per ExtendMemory. */
    ghost var lots: nat

    ghost predicate Valid()
      reads this, ring, free
    {
      && Ring(nodesCircle_, ring) && Chain(nodesFree_, free) && Holds(ring, contents)
      && Apart(ring, free)
      && nodes == Elements(ring) + Elements(free)
    }

    /** All nodes are on the ring or free. */
    ghost predicate Counted()
      reads this
    {
      lots > 0 && |ring| + |free| == Span(cacheNodes_, lots)
    }

    constructor (cacheNodes: nat)
      ensures Valid() && Counted() && contents == [] && fresh(nodes)
      ensures cacheNodes_ == cacheNodes && |free| == cacheNodes && lots == 1
    {
      cacheNodes_ := cacheNodes;
      nodesCircle_, nodesFree_ := null, null;
      ring, free, nodes, contents, lots := [], [], {}, [], 1;
      new;
      AddFreeNodes();
      assert Span(cacheNodes_, 1) == Span(cacheNodes_, 0) + cacheNodes_;
    }

    /** The loops of the constructor and of ExtendMemory. */
    method AddFreeNodes()
      requires Valid()
      modifies this`nodesFree_, this`free, this`nodes
      ensures Valid() && |free| == |old(free)| + cacheNodes_ && free[cacheNodes_..] == old(free)
      ensures fresh(nodes - old(nodes)) && forall k :: 0 <= k < cacheNodes_ ==> fresh(free[k])
    {
      for i := 0 to cacheNodes_
        invariant Valid() && |free| == |old(free)| + i && free[i..] == old(free)
        invariant fresh(nodes - old(nodes)) && forall k :: 0 <= k < i ==> fresh(free[k])
      {
        AddFreeNode();
      }
    }

    method AddFreeNode()
      requires Valid()
      modifies this`nodesFree_, this`free, this`nodes
      ensures Valid() && free != [] && free[1..] == old(free) && fresh(free[0]) && nodes == old(nodes) + {free[0]}
    {
      var node := new Node<T>();
      node.prev, node.next := null, nodesFree_;
      nodesFree_ := node;
      WithOneMore(node, free);
      free, nodes := [node] + free, nodes + {node};
    }

    /** A node in hand: in neither list, but counted. */
    ghost predicate InHand(node: Node<T>)
      reads this, ring, free
    {
      && Ring(nodesCircle_, ring) && Chain(nodesFree_, free) && Holds(ring, contents) && Apart(ring, free)
      && node !in ring && node !in free && nodes == Elements(ring) + Elements(free) + {node}
    }

    /** A node off the free list, after extending an empty one if memory allows. */
    method TakeNode(memory: bool) returns (node: Node?<T>)
      requires Valid() && Counted()
      modifies this`nodesFree_, this`free, this`nodes, this`lots
      ensures node == null <==> old(free) == [] && (!memory || cacheNodes_ == 0)
      ensures node == null ==> Valid() && Counted() && free == []
      ensures node != null ==> InHand(node) && (node in old(free) || fresh(node))
      ensures node != null ==> lots > 0 && |ring| + |free| + 1 == Span(cacheNodes_, lots)
      ensures fresh(nodes - old(nodes))
    {
      if nodesFree_ == null {
        if memory {
          AddFreeNodes();
          lots := lots + 1;
        }
      }
      node := nodesFree_;
      if node != null {
        PickNode(node);
      }
    }

    method PickNode(node: Node<T>)
      requires Valid() && free != [] && node == free[0]
      modifies this`nodesFree_, this`free
      ensures InHand(node) && |free| == |old(free)| - 1
    {
      WithoutFirst(free);
      assert |free| > 1 ==> free[0].next == free[1];
      nodesFree_ := node.next;
      free := free[1..];
    }

    /** Linking a node in front of the entry, which makes it the entry. */
    method LinkFront(node: Node<T>, item: T)
      requires InHand(node)
      modifies this`nodesCircle_, this`ring, this`contents, node, ring
      ensures Valid() && contents == [item] + old(contents) && |ring| == |old(ring)| + 1
    {
      WithOneMore(node, ring);
      Link(node, nodesCircle_, item, ring, contents);
      assert Chain(nodesFree_, free);
      nodesCircle_ := node;
      ring, contents := [node] + ring, [item] + contents;
    }

    /** Linking a node in front of the entry, which stays where it is. */
    method LinkBack(node: Node<T>, item: T)
      requires InHand(node)
      modifies this`nodesCircle_, this`ring, this`contents, node, ring
      ensures Valid() && contents == old(contents) + [item] && |ring| == |old(ring)| + 1
    {
      WithOneMore(node, ring);
      Link(node, nodesCircle_, item, ring, contents);
      AtTheBack(node, ring, item, contents);
      assert Chain(nodesFree_, free);
      if nodesCircle_ == null {
        nodesCircle_ := node;
      }
      ring, contents := ring + [node], contents + [item];
    }

    method PushFront(item: T, memory: bool) returns (code: Code)
      requires Valid() && Counted()
      modifies this, ring, free
      ensures Valid() && Counted() && fresh(nodes - old(nodes))
      ensures code == if old(free) == [] && (!memory || cacheNodes_ == 0) then NOMEMORY else OK
      ensures code == NOMEMORY ==> |contents| == Span(cacheNodes_, lots)
      ensures contents == if code == OK then [item] + old(contents) else old(contents)
    {
      var node := TakeNode(memory);
      if node == null {
        return NOMEMORY;
      }
      LinkFront(node, item);
      code := OK;
    }

    method PushBack(item: T, memory: bool) returns (code: Code)
      requires Valid() && Counted()
      modifies this, ring, free
      ensures Valid() && Counted() && fresh(nodes - old(nodes))
      ensures code == if old(free) == [] && (!memory || cacheNodes_ == 0) then NOMEMORY else OK
      ensures code == NOMEMORY ==> |contents| == Span(cacheNodes_, lots)
      ensures contents == if code == OK then old(contents) + [item] else old(contents)
    {
      var node := TakeNode(memory);
      if node == null {
        return NOMEMORY;
      }
      LinkBack(node, item);
      code := OK;
    }

    /** The end of both pops: the node goes back to the free list. */
    method FreeNode(node: Node<T>)
      requires InHand(node)
      modifies this`nodesFree_, this`free, node
      ensures Valid() && node.item == old(node.item) && |free| == |old(free)| + 1
    {
      node.prev := null;
      node.next := nodesFree_;
      nodesFree_ := node;
      WithOneMore(node, free);
      free := [node] + free;
    }

    method LeaveFront(node: Node<T>)
      requires Valid() && ring != [] && node == ring[0]
      modifies this`nodesCircle_, this`ring, this`contents, ring
      ensures InHand(node) && contents == old(contents)[1..] && node.item == old(contents)[0]
      ensures |ring| == |old(ring)| - 1
    {
      WithoutFirst(ring);
      nodesCircle_ := DropFirst(node, ring, contents);
      assert Chain(nodesFree_, free);
      ring, contents := ring[1..], contents[1..];
    }

    method LeaveBack(node: Node<T>)
      requires Valid() && ring != [] && node == ring[|ring| - 1]
      modifies this`nodesCircle_, this`ring, this`contents, ring
      ensures InHand(node) && |ring| == |old(ring)| - 1
      ensures contents == old(contents)[..|old(contents)| - 1] && node.item == old(contents)[|old(contents)| - 1]
    {
      WithoutLast(ring);
      nodesCircle_ := DropLast(node, nodesCircle_, ring, contents);
      assert Chain(nodesFree_, free);
      ring, contents := ring[..|ring| - 1], contents[..|contents| - 1];
    }

    /** `item` is the caller's variable, left alone when there is no data. */
    method PopFront(item: T) returns (code: Code, out: T)
      requires Valid() && Counted()
      modifies this, ring
      ensures Valid() && Counted() && nodes == old(nodes)
      ensures code == if old(contents) == [] then NODATA else OK
      ensures code == NODATA ==> out == item && contents == old(contents)
      ensures code == OK ==> [out] + contents == old(contents)
    {
      if nodesCircle_ == null {
        return NODATA, item;
      }
      var node := nodesCircle_;
      LeaveFront(node);
      out := node.item;
      FreeNode(node);
      code := OK;
    }

    method PopBack(item: T) returns (code: Code, out: T)
      requires Valid() && Counted()
      modifies this, ring
      ensures Valid() && Counted() && nodes == old(nodes)
      ensures code == if old(contents) == [] then NODATA else OK
      ensures code == NODATA ==> out == item && contents == old(contents)
      ensures code == OK ==> contents + [out] == old(contents)
    {
      if nodesCircle_ == null {
        return NODATA, item;
      }
      var node := nodesCircle_.prev;
      LeaveBack(node);
      out := node.item;
      FreeNode(node);
      code := OK;
    }

    /** count() and IsEmpty() read nodes_count_, which nothing updates: they are right exactly
        for the empty list. */
    method Count() returns (count: nat, isEmpty: bool)
      requires Valid()
      ensures count == |contents| <==> contents == []
      ensures (isEmpty <==> contents == []) <==> contents == []
    {
      count := nodesCount_;
      isEmpty := count == 0;
    }
  }
}
