/** The two-lock queue's list in place, one call at a time: nodes on the heap, `head_`
    owning the first and `tail_` pointing at the dummy. TwoLockQueue has the same calls
    interleaved step by step. */
module LinkedQueue {
  import opened Wrappers

  class Node {
    var data: Option<int>
    var next: Node?

    constructor ()
      ensures data.None? && next == null
    {
      data, next := None, null;
    }
  }

  class LinkedQueue {
    var head: Node?
    var tail: Node
    /** The nodes of the list, in order. */
    ghost var nodes: seq<Node>

    /** The list has no cycle and ends in the dummy, which is empty. */
    ghost predicate Valid()
      reads this, nodes
    {
      var n := |nodes|;
      && n > 0 && head == nodes[0] && tail == nodes[n - 1]
      && (forall i, j :: 0 <= i < j < n ==> nodes[i] != nodes[j])
      && (forall i :: 0 <= i < n - 1 ==> nodes[i].data.Some? && nodes[i].next == nodes[i + 1])
      && tail.data.None? && tail.next == null
    }

    /** The values before the dummy. */
    ghost function Contents(): (values: seq<int>)
      requires Valid()
      reads this, nodes
      ensures |values| == |nodes| - 1
    {
      seq(|nodes| - 1, i requires 0 <= i < |nodes| - 1 reads this, nodes =>
        if nodes[i].data.Some? then nodes[i].data.value else 0)
    }

    constructor ()
      ensures Valid() && Contents() == [] && fresh(nodes)
    {
      var dummy := new Node();
      head, tail := dummy, dummy;
      nodes := [dummy];
    }

    /** `push`: fills the dummy and hangs a new one behind it. */
    method Push(v: int)
      requires Valid()
      modifies this, tail
      ensures Valid() && Contents() == old(Contents()) + [v]
      ensures nodes[..|nodes| - 1] == old(nodes) && fresh(tail)
    {
      var p := new Node();
      tail.data := Some(v);
      tail.next := p;
      tail := p;
      nodes := nodes + [p];
    }

    method Empty() returns (isEmpty: bool)
      requires Valid()
      ensures isEmpty <==> Contents() == []
    {
      isEmpty := head == tail;
      assert head == tail ==> |nodes| == 1;
    }

    /** `pop_head`: takes the first node off, leaving it linked to nothing. */
    method PopHead() returns (oldHead: Node)
      requires Valid() && Contents() != []
      modifies this, head
      ensures Valid() && Contents() == old(Contents())[1..] && nodes == old(nodes)[1..]
      ensures oldHead == old(head) && oldHead !in nodes
      ensures oldHead.data == Some(old(Contents())[0]) && oldHead.next == null
    {
      oldHead := head;
      head := oldHead.next;
      oldHead.next := null;
      nodes := nodes[1..];
    }

    /** `try_pop`. */
    method TryPop() returns (r: Option<int>)
      requires Valid()
      modifies this, head
      ensures Valid()
      ensures old(Contents()) == [] ==> r.None? && Contents() == []
      ensures old(Contents()) != [] ==> r == Some(old(Contents())[0]) && Contents() == old(Contents())[1..]
    {
      var isEmpty := Empty();
      if isEmpty {
        r := None;
      } else {
        var oldHead := PopHead();
        r := oldHead.data;
      }
    }
  }
}
