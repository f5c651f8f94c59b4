// A queue of waiting threads, linked through nodes that the threads own.
module WaitQueues {

  class Node {
    var next: Node?

    constructor ()
    {
      next := null;
    }
  }

  class WaitQueue {
    var head: Node?
    var tail: Node?
    ghost var nodes: seq<Node>

    ghost predicate Valid()
      reads this, nodes
    {
      && (nodes == [] <==> head == null) && (nodes == [] <==> tail == null)
      && (nodes != [] ==> head == nodes[0] && tail == nodes[|nodes| - 1] && tail.next == null)
      && (forall i :: 0 <= i < |nodes| - 1 ==> nodes[i].next == nodes[i + 1])
      && (forall i, j :: 0 <= i < j < |nodes| ==> nodes[i] != nodes[j])
    }

    constructor ()
      ensures Valid() && nodes == []
    {
      head, tail, nodes := null, null, [];
    }

    lemma Ends()
      requires Valid()
      ensures head == if nodes == [] then null else nodes[0]
      ensures tail == if nodes == [] then null else nodes[|nodes| - 1]
    {
    }

    method Queue(node: Node)
      requires Valid() && node !in nodes
      modifies this, node, tail
      ensures Valid() && nodes == old(nodes) + [node]
    {
      node.next := null;
      if tail != null {
        tail.next := node;
      } else {
        head := node;
      }
      tail := node;
      nodes := nodes + [node];
    }

    // remove the head; the result is the new one
    method Unqueue() returns (newHead: Node?)
      requires Valid() && nodes != []
      modifies this
      ensures Valid() && nodes == old(nodes)[1..] && old(nodes)[0] !in nodes
      ensures newHead == if nodes == [] then null else nodes[0]
    {
      assert |nodes| > 1 ==> nodes[0].next == nodes[1];
      head := head.next;
      nodes := nodes[1..];
      if head == null {
        tail := null;
      }
      newHead := head;
    }

    method Second() returns (second: Node?)
      requires Valid() && nodes != []
      ensures second == if |nodes| == 1 then null else nodes[1]
    {
      assert |nodes| > 1 ==> nodes[0].next == nodes[1];
      second := head.next;
    }
  }
}
