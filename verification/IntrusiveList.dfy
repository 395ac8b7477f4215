/**
 The circular intrusive list of src/list.h: a sentinel, nodes that carry their
 own links, and a head that can be read without the lock.
 */
module IntrusiveList {

  /** ntt_node_t; a node whose `next` is null is unlinked. */
  class Node {
    var next: Node?
    var prev: Node?

    /** ntt_node_init. */
    constructor ()
      ensures next == null
    {
      next, prev := null, null;
    }
  }

  /** `b` follows `a`. */
  ghost predicate Joined(a: Node, b: Node)
    reads a, b
  {
    a.next == b && b.prev == a
  }

  class List {
    const sentinel: Node
    ghost var nodes: seq<Node>

    /** The ring: the sentinel, then the nodes in order. */
    ghost function Ring(): seq<Node>
      reads this
    {
      [sentinel] + nodes
    }

    ghost predicate Valid()
      reads this, sentinel, nodes
    {
      && sentinel !in nodes
      && (forall i, j | 0 <= i < j < |nodes| :: nodes[i] != nodes[j])
      && (forall i | 0 <= i < |nodes| :: Joined(Ring()[i], Ring()[i + 1]))
      && Joined(Ring()[|nodes|], sentinel)
    }

    /** ntt_list_init. */
    constructor ()
      ensures Valid() && nodes == [] && fresh(sentinel)
    {
      var s := new Node();
      sentinel := s;
      nodes := [];
      new;
      sentinel.next := sentinel;
      sentinel.prev := sentinel;
    }

    /** ntt_list_empty, from the head alone. */
    method Empty() returns (empty: bool)
      requires Valid()
      ensures empty <==> nodes == []
    {
      if nodes != [] {
        assert Joined(Ring()[0], Ring()[1]);
      }
      empty := sentinel.next == sentinel;
    }

    /** A linked node never looks unlinked. */
    lemma LinkedNode(node: Node)
      requires Valid() && node in nodes
      ensures node.next != null
    {
      var i :| 0 <= i < |nodes| && nodes[i] == node;
      assert Ring()[i + 1] == node;
      if i + 1 < |nodes| {
        assert Joined(Ring()[i + 1], Ring()[i + 2]);
      }
    }

    /** ntt_list_push_back: the node becomes the last one. */
    method PushBack(node: Node) returns (wasEmpty: bool)
      requires Valid() && node.next == null && node != sentinel
      modifies this`nodes, sentinel, nodes, node
      ensures Valid() && nodes == old(nodes) + [node] && wasEmpty == (old(nodes) == [])
    {
      if node in nodes {
        LinkedNode(node);
      }
      wasEmpty := Empty();
      var last := sentinel.prev;
      assert last == Ring()[|nodes|];
      node.next := sentinel;
      node.prev := last;
      last.next := node;
      sentinel.prev := node;
      nodes := nodes + [node];
      forall i | 0 <= i < |nodes| ensures Joined(Ring()[i], Ring()[i + 1]) {
        assert i < |old(nodes)| ==> old(Joined(Ring()[i], Ring()[i + 1]));
        assert Ring()[i] == old(Ring())[i];
      }
    }

    /** ntt_list_front. */
    method Front() returns (node: Node)
      requires Valid() && nodes != []
      ensures node == nodes[0]
    {
      assert Joined(Ring()[0], Ring()[1]);
      node := sentinel.next;
    }

    /** ntt_list_next: the head goes, unlinked, and the new head or null comes back. */
    method Next() returns (node: Node?)
      requires Valid() && nodes != []
      modifies this`nodes, sentinel, nodes
      ensures Valid() && nodes == old(nodes[1..]) && old(nodes[0]).next == null
      ensures node == if nodes == [] then null else nodes[0]
    {
      assert Joined(Ring()[0], Ring()[1]);
      var head := sentinel.next;
      var next := head.next;
      assert next == if |nodes| > 1 then Ring()[2] else sentinel by {
        if |nodes| > 1 {
          assert Joined(Ring()[1], Ring()[2]);
        }
      }
      sentinel.next := next;
      next.prev := sentinel;
      head.next := null;
      nodes := nodes[1..];
      forall i | 0 <= i < |nodes| ensures Joined(Ring()[i], Ring()[i + 1]) {
        assert old(Joined(Ring()[i + 1], Ring()[i + 2]));
        assert Ring()[i + 1] == old(Ring())[i + 2] && (i > 0 ==> Ring()[i] == old(Ring())[i + 1]);
      }
      node := if next != sentinel then next else null;
    }
  }
}
