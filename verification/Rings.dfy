/** Circular doubly linked lists, as ObjectList and SockReactor keep them. */
module Rings {

  class Node<T(0)> {
    var prev: Node?<T>
    var next: Node?<T>
    var item: T

    constructor () {
    }
  }

  ghost predicate Distinct<T>(xs: seq<T>) {
    forall i, j :: 0 <= i < j < |xs| ==> xs[i] != xs[j]
  }

  ghost predicate Apart<T>(xs: seq<T>, ys: seq<T>) {
    forall i, j :: 0 <= i < |xs| && 0 <= j < |ys| ==> xs[i] != ys[j]
  }

  ghost function Elements<T>(xs: seq<T>): set<T> {
    set x | x in xs
  }

  /** `nodes` is the ring entered at `circle`. */
  ghost predicate Ring<T(0)>(circle: Node?<T>, nodes: seq<Node<T>>)
    reads nodes`prev, nodes`next
  {
    && Distinct(nodes)
    && (circle == if nodes == [] then null else nodes[0])
    && (forall i :: 0 <= i < |nodes| - 1 ==> nodes[i].next == nodes[i + 1] && nodes[i + 1].prev == nodes[i])
    && (nodes != [] ==> nodes[|nodes| - 1].next == nodes[0] && nodes[0].prev == nodes[|nodes| - 1])
  }

  /** `nodes` is the list entered at `head`, linked by next alone. */
  ghost predicate Chain<T(0)>(head: Node?<T>, nodes: seq<Node<T>>)
    reads nodes`next
  {
    && Distinct(nodes)
    && (head == if nodes == [] then null else nodes[0])
    && (forall i :: 0 <= i < |nodes| - 1 ==> nodes[i].next == nodes[i + 1])
    && (nodes != [] ==> nodes[|nodes| - 1].next == null)
  }

  /** The nodes hold these values. */
  ghost predicate Holds<T(0)>(nodes: seq<Node<T>>, items: seq<T>)
    reads nodes`item
  {
    |nodes| == |items| && forall i :: 0 <= i < |nodes| ==> nodes[i].item == items[i]
  }

  /** The statements that PushFront, PushBack and Bind share: a node becomes a ring of its own
      or goes between the entry of the ring and its predecessor, and gets its value. */
  method Link<T(0)>(node: Node<T>, circle: Node?<T>, item: T, ghost nodes: seq<Node<T>>, ghost items: seq<T>)
    requires Ring(circle, nodes) && node !in nodes && Holds(nodes, items)
    modifies node, nodes
    ensures Ring(node, [node] + nodes) && Holds([node] + nodes, [item] + items)
  {
    if circle == null {
      node.next := node;
      node.prev := node;
    } else {
      node.next := circle;
      node.prev := circle.prev;
      node.prev.next := node;
      node.next.prev := node;
    }
    node.item := item;
  }

  /** PopFront's statements: the entry leaves the ring. */
  method DropFirst<T(0)>(node: Node<T>, ghost nodes: seq<Node<T>>, ghost items: seq<T>) returns (circle: Node?<T>)
    requires nodes != [] && Ring(node, nodes) && Holds(nodes, items)
    modifies nodes
    ensures Ring(circle, nodes[1..])
    ensures Holds(nodes, items)
  {
    assert |nodes| > 1 ==> nodes[0].next == nodes[1];
    if node.next == node {
      circle := null;
    } else {
      circle := node.next;
      circle.prev := node.prev;
      circle.prev.next := circle;
    }
  }

  /** PopBack's statements: the entry's predecessor leaves the ring. */
  method DropLast<T(0)>(node: Node<T>, entry: Node<T>, ghost nodes: seq<Node<T>>, ghost items: seq<T>)
    returns (circle: Node?<T>)
    requires nodes != [] && Ring(entry, nodes) && node == nodes[|nodes| - 1] && Holds(nodes, items)
    modifies nodes
    ensures Ring(circle, nodes[..|nodes| - 1])
    ensures Holds(nodes, items)
  {
    assert |nodes| > 1 ==> nodes[|nodes| - 1].prev == nodes[|nodes| - 2];
    if node.prev == node {
      circle := null;
    } else {
      entry.prev := node.prev;
      entry.prev.next := entry;
      circle := entry;
    }
  }

  /** What stands after the entry first, the entry last. */
  function Turned<T>(xs: seq<T>): seq<T> {
    if xs == [] then [] else xs[1..] + [xs[0]]
  }

  /** The ring without its k-th node; when the entry leaves, its predecessor becomes the entry. */
  ghost function Without<T>(xs: seq<T>, k: nat): seq<T>
    requires k < |xs|
  {
    if k > 0 then xs[..k] + xs[k + 1..]
    else if |xs| == 1 then []
    else [xs[|xs| - 1]] + xs[1..|xs| - 1]
  }

  /** Taking the first or the last of distinct elements away. */
  lemma WithoutFirst<T>(xs: seq<T>)
    requires Distinct(xs) && xs != []
    ensures xs[0] !in xs[1..] && Elements(xs) == {xs[0]} + Elements(xs[1..])
    ensures forall x :: x in xs[1..] ==> x in xs
  {
    assert forall x :: x in xs <==> x == xs[0] || x in xs[1..];
  }

  lemma WithoutLast<T>(xs: seq<T>)
    requires Distinct(xs) && xs != []
    ensures xs[|xs| - 1] !in xs[..|xs| - 1] && Elements(xs) == {xs[|xs| - 1]} + Elements(xs[..|xs| - 1])
    ensures forall x :: x in xs[..|xs| - 1] ==> x in xs
  {
    assert forall x :: x in xs <==> x == xs[|xs| - 1] || x in xs[..|xs| - 1];
  }

  lemma WithOneMore<T>(x: T, xs: seq<T>)
    ensures Elements([x] + xs) == {x} + Elements(xs)
    ensures Elements(xs + [x]) == {x} + Elements(xs)
  {
    assert forall y :: y in [x] + xs <==> y == x || y in xs;
    assert forall y :: y in xs + [x] <==> y == x || y in xs;
  }

  /** The new node at the back: the ring entered behind it. */
  lemma AtTheBack<T(0)>(node: Node<T>, nodes: seq<Node<T>>, item: T, items: seq<T>)
    requires Ring(node, [node] + nodes) && Holds([node] + nodes, [item] + items)
    ensures Ring(if nodes == [] then node else nodes[0], nodes + [node]) && Holds(nodes + [node], items + [item])
  {
    var all := [node] + nodes;
    if nodes == [] {
      assert nodes + [node] == all;
    } else {
      Rotated(node, all, 1);
      assert all[1..] + all[..1] == nodes + [node];
    }
    assert all[1..] == nodes && ([item] + items)[1..] == items;
    assert forall i :: 0 <= i < |nodes| ==> nodes[i] == all[i + 1] && items[i] == ([item] + items)[i + 1];
  }

  /** A ring may be entered anywhere. */
  lemma Rotated<T(0)>(circle: Node?<T>, nodes: seq<Node<T>>, k: nat)
    requires Ring(circle, nodes) && k < |nodes|
    ensures Ring(nodes[k], nodes[k..] + nodes[..k])
  {
  }

  /** Seen from its predecessor, a ring whose first node left has lost its last node. */
  lemma RotatedWithout<T(0)>(nodes: seq<Node<T>>, k: nat)
    requires 1 < |nodes| && k < |nodes|
    requires var rest := (nodes[k..] + nodes[..k])[1..]; Ring(rest[0], rest)
    ensures Ring(Without(nodes, k)[0], Without(nodes, k))
  {
    var rest := (nodes[k..] + nodes[..k])[1..];
    var j := if k == 0 then |nodes| - 2 else |nodes| - 1 - k;
    Rotated(rest[0], rest, j);
    assert rest[j..] + rest[..j] == Without(nodes, k);
  }

  /** UnBind's statements, in the ring seen from the leaving node. */
  method Leave<T(0)>(node: Node<T>, ghost nodes: seq<Node<T>>) returns (prev: Node?<T>)
    requires nodes != [] && Ring(node, nodes)
    modifies nodes`prev, nodes`next
    ensures |nodes| == 1 ==> prev == null
    ensures |nodes| > 1 ==> prev == nodes[|nodes| - 1] && Ring(nodes[1], nodes[1..])
  {
    assert |nodes| > 1 ==> nodes[0].next == nodes[1];
    if node.prev == node {
      prev := null;
    } else {
      prev := node.prev;
      prev.next := node.next;
      prev.next.prev := prev;
      node.prev := null;
      node.next := null;
    }
  }

  /** What the remaining nodes hold. */
  lemma StillHolds<T(0)>(nodes: seq<Node<T>>, items: seq<T>, k: nat)
    requires Distinct(nodes) && Holds(nodes, items) && k < |nodes|
    ensures Holds(Without(nodes, k), Without(items, k)) && nodes[k] !in Without(nodes, k)
  {
  }

  /** UnBind's statements: any node leaves the ring. */
  method LeaveAt<T(0)>(node: Node<T>, entry: Node<T>, ghost nodes: seq<Node<T>>, ghost k: nat)
    returns (circle: Node?<T>)
    requires k < |nodes| && Ring(entry, nodes) && node == nodes[k]
    modifies nodes`prev, nodes`next
    ensures Ring(circle, Without(nodes, k))
  {
    ghost var seen := nodes[k..] + nodes[..k];
    Rotated(entry, nodes, k);
    circle := Leave(node, seen);
    if |nodes| > 1 {
      assert seen[1..][0] == seen[1];
      RotatedWithout(nodes, k);
    }
    if circle != null && entry != node {
      circle := entry;
    }
  }
}
