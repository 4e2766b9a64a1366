/** The doubly linked list of list.c, holding process ids between two sentinel nodes. */
module PidList {

  /** What a node's data pointer leads to; the sentinels point nowhere. */
  datatype Datum = Nothing | Pid(pid: int)

  class Node {
    const data: Datum
    var prev: Node?
    var next: Node?

    constructor (data: Datum)
      ensures this.data == data
    {
      this.data := data;
    }
  }

  /** compare_pidt */
  function ComparePid(lhs: int, rhs: int): (r: int)
    ensures r == 0 <==> lhs == rhs
    ensures r < 0 <==> lhs < rhs
  {
    if lhs < rhs then -1 else if lhs > rhs then 1 else 0
  }

  ghost function Following(chain: seq<Node>, i: nat): Node? {
    if i + 1 < |chain| then chain[i + 1] else null
  }

  ghost function Preceding(chain: seq<Node>, i: nat): Node?
    requires i <= |chain|
  {
    if i > 0 then chain[i - 1] else null
  }

  ghost function Without(chain: seq<Node>, k: nat): seq<Node>
    requires k < |chain|
  {
    chain[..k] + chain[k + 1..]
  }

  function IndexOf(pids: seq<int>, pid: int): (k: nat)
    ensures k <= |pids| && (k < |pids| <==> pid in pids)
    ensures k < |pids| ==> pids[k] == pid
    ensures forall i | 0 <= i < k :: pids[i] != pid
  {
    if pids == [] then 0 else if pids[0] == pid then 0 else 1 + IndexOf(pids[1..], pid)
  }

  /** The sequence without the first occurrence of a pid. */
  function RemoveFirst(pids: seq<int>, pid: int): seq<int> {
    var k := IndexOf(pids, pid);
    if k < |pids| then pids[..k] + pids[k + 1..] else pids
  }

  /** Whatever stands around the first occurrence stays, and where there is none everything does. */
  lemma RemovesFirst(a: seq<int>, pid: int, b: seq<int>)
    requires pid !in a
    ensures RemoveFirst(a + [pid] + b, pid) == a + b && RemoveFirst(a, pid) == a
  {
    var all := a + [pid] + b;
    assert all[|a|] == pid;
    assert IndexOf(all, pid) == |a|;
    assert all[..|a|] == a && all[|a| + 1..] == b;
  }

  ghost function Insert(chain: seq<Node>, k: nat, node: Node): seq<Node>
    requires k <= |chain|
  {
    chain[..k] + [node] + chain[k..]
  }

  /** The nodes are linked in this order, forward and backward, with null at both ends. */
  ghost predicate Linked(chain: seq<Node>)
    reads chain
  {
    && (forall i {:trigger chain[i].next} | 0 <= i < |chain| :: chain[i].next == Following(chain, i))
    && (forall i {:trigger chain[i].prev} | 0 <= i < |chain| :: chain[i].prev == Preceding(chain, i))
  }

  /** A linked chain cannot run into itself. */
  lemma {:induction false} NoCycle(chain: seq<Node>, i: nat, j: nat)
    requires Linked(chain) && i < j < |chain|
    ensures chain[i] != chain[j]
    decreases i
  {
    if i > 0 {
      NoCycle(chain, i - 1, j - 1);
      assert chain[i].prev == Preceding(chain, i) && chain[j].prev == Preceding(chain, j);
    } else {
      assert chain[0].prev == Preceding(chain, 0) && chain[j].prev == Preceding(chain, j);
    }
  }

  lemma Apart(chain: seq<Node>, k: nat)
    requires Linked(chain) && k < |chain|
    ensures forall i | 0 <= i < |chain| && i != k :: chain[i] != chain[k]
  {
    forall i | 0 <= i < |chain| && i != k ensures chain[i] != chain[k] {
      if i < k { NoCycle(chain, i, k); } else { NoCycle(chain, k, i); }
    }
  }

  /** Linked but for the forward link of one node and the backward link of another. */
  ghost predicate LinkedBut(chain: seq<Node>, noNext: nat, noPrev: nat)
    reads chain
  {
    && (forall i {:trigger chain[i].next} | 0 <= i < |chain| && i != noNext :: chain[i].next == Following(chain, i))
    && (forall i {:trigger chain[i].prev} | 0 <= i < |chain| && i != noPrev :: chain[i].prev == Preceding(chain, i))
  }

  lemma LinkedWithout(chain: seq<Node>, k: nat)
    requires 0 < k < |chain| - 1 && LinkedBut(chain, k - 1, k + 1)
    requires chain[k - 1].next == chain[k + 1] && chain[k + 1].prev == chain[k - 1]
    ensures Linked(Without(chain, k))
  {
    var shorter := Without(chain, k);
    forall i | 0 <= i < |shorter|
      ensures shorter[i].next == Following(shorter, i) && shorter[i].prev == Preceding(shorter, i)
    {
      if i < k { assert shorter[i] == chain[i]; } else { assert shorter[i] == chain[i + 1]; }
    }
  }

  lemma LinkedInsert(chain: seq<Node>, k: nat, node: Node)
    requires 0 < k < |chain| && LinkedBut(chain, k - 1, k)
    requires chain[k - 1].next == node && node.prev == chain[k - 1] && node.next == chain[k] && chain[k].prev == node
    ensures Linked(Insert(chain, k, node))
  {
    var longer := Insert(chain, k, node);
    forall i | 0 <= i < |longer|
      ensures longer[i].next == Following(longer, i) && longer[i].prev == Preceding(longer, i)
    {
      if i < k { assert longer[i] == chain[i]; } else if i > k { assert longer[i] == chain[i - 1]; }
    }
  }

  /** Every node is one of these, and those between the sentinels hold the pids, in order. */
  ghost predicate Holds(chain: seq<Node>, pids: seq<int>, repr: set<Node>) {
    && |chain| == |pids| + 2
    && (forall i | 0 <= i < |chain| :: chain[i] in repr)
    && (forall i {:trigger chain[i].data} | 0 < i <= |pids| :: chain[i].data == Pid(pids[i - 1]))
  }

  ghost function DropAt(pids: seq<int>, k: nat): seq<int>
    requires k < |pids|
  {
    pids[..k] + pids[k + 1..]
  }

  ghost function PutAt(pids: seq<int>, k: nat, pid: int): seq<int>
    requires k <= |pids|
  {
    pids[..k] + [pid] + pids[k..]
  }

  lemma HoldsWithout(chain: seq<Node>, pids: seq<int>, k: nat, repr: set<Node>)
    requires Holds(chain, pids, repr) && 0 < k <= |pids|
    ensures Holds(Without(chain, k), DropAt(pids, k - 1), repr)
  {
    var shorter, fewer := Without(chain, k), DropAt(pids, k - 1);
    forall i | 0 <= i < |shorter| ensures shorter[i] == chain[if i < k then i else i + 1] {}
    forall i | 0 < i <= |fewer| ensures shorter[i].data == Pid(fewer[i - 1]) {
      assert shorter[i].data == chain[if i < k then i else i + 1].data;
    }
  }

  lemma HoldsInsert(chain: seq<Node>, pids: seq<int>, k: nat, node: Node, repr: set<Node>)
    requires Holds(chain, pids, repr) && 0 < k < |chain| && node.data.Pid?
    ensures Holds(Insert(chain, k, node), PutAt(pids, k - 1, node.data.pid), repr + {node})
  {
    var longer, more := Insert(chain, k, node), PutAt(pids, k - 1, node.data.pid);
    forall i | 0 <= i < |longer| && i != k ensures longer[i] == chain[if i < k then i else i - 1] {}
    forall i | 0 < i <= |more| ensures longer[i].data == Pid(more[i - 1]) {
      if i != k { assert longer[i].data == chain[if i < k then i else i - 1].data; }
    }
  }

  /** The pointer work of both pushes: a node between two neighbours. */
  method LinkBetween(node: Node, p: Node, r: Node, ghost chain: seq<Node>, ghost k: nat)
    requires Linked(chain) && 0 < k < |chain| && p == chain[k - 1] && r == chain[k] && node !in chain
    modifies node, p, r
    ensures Linked(Insert(chain, k, node))
  {
    Apart(chain, k - 1);
    Apart(chain, k);
    p.next := node;
    node.prev := p;
    node.next := r;
    r.prev := node;
    LinkedInsert(chain, k, node);
  }

  /** The pointer work of all removals: two nodes become neighbours. */
  method Join(q: Node, r: Node, ghost chain: seq<Node>, ghost k: nat)
    requires Linked(chain) && 0 < k < |chain| - 1 && q == chain[k - 1] && r == chain[k + 1]
    modifies q, r
    ensures Linked(Without(chain, k)) && chain[k].next == chain[k + 1]
  {
    assert chain[k].next == Following(chain, k);
    Apart(chain, k - 1);
    Apart(chain, k + 1);
    q.next := r;
    r.prev := q;
    LinkedWithout(chain, k);
  }

  /** struct list. `chain` lists all nodes from the head sentinel to the tail sentinel, `repr` every node ever
      linked, and `pids` is the sequence that the list stands for. */
  class List {
    var head: Node
    var tail: Node
    var logicalLength: int
    ghost var chain: seq<Node>
    ghost var pids: seq<int>
    ghost var repr: set<Node>

    ghost predicate Valid()
      reads this, repr
    {
      && Holds(chain, pids, repr) && Linked(chain)
      && head == chain[0] && tail == chain[|chain| - 1]
      && logicalLength == |pids|
    }

    /** list_init */
    constructor ()
      ensures Valid() && fresh(repr) && pids == []
    {
      head := new Node(Nothing);
      tail := new Node(Nothing);
      logicalLength := 0;
      new;
      head.next := tail;
      head.prev := null;
      tail.next := null;
      tail.prev := head;
      chain, pids, repr := [head, tail], [], {head, tail};
    }

    /** list_front: the first node, which is the tail sentinel when the list is empty. */
    method Front() returns (p: Node)
      requires Valid()
      ensures p == chain[1]
    {
      assert chain[0].next == Following(chain, 0);
      p := head.next;
    }

    /** list_back: the last node, which is the head sentinel when the list is empty. */
    method Back() returns (p: Node)
      requires Valid()
      ensures p == chain[|chain| - 2]
    {
      assert chain[|chain| - 1].prev == Preceding(chain, |chain| - 1);
      p := tail.prev;
    }

    /** The common part of the pushes: link a new node in at position k and count it. */
    method LinkIn(node: Node, p: Node, r: Node, ghost k: nat)
      requires Valid() && 0 < k < |chain| && p == chain[k - 1] && r == chain[k] && node !in repr && node.data.Pid?
      modifies this, node, p, r
      ensures Valid() && repr == old(repr) + {node} && chain == Insert(old(chain), k, node)
      ensures pids == PutAt(old(pids), k - 1, node.data.pid)
    {
      HoldsInsert(chain, pids, k, node, repr);
      LinkBetween(node, p, r, chain, k);
      logicalLength := logicalLength + 1;
      chain, pids, repr := Insert(chain, k, node), PutAt(pids, k - 1, node.data.pid), repr + {node};
    }

    /** The common part of the removals: unlink the node at position k and count it out. */
    method Unlink(q: Node, r: Node, ghost k: nat)
      requires Valid() && 0 < k < |chain| - 1 && q == chain[k - 1] && r == chain[k + 1]
      modifies this, q, r
      ensures Valid() && repr == old(repr) && chain == Without(old(chain), k) && pids == DropAt(old(pids), k - 1)
      ensures old(chain)[k].next == old(chain)[k + 1]
    {
      HoldsWithout(chain, pids, k, repr);
      Join(q, r, chain, k);
      logicalLength := logicalLength - 1;
      chain, pids := Without(chain, k), DropAt(pids, k - 1);
    }

    /** list_push_front */
    method PushFront(pid: int)
      requires Valid()
      modifies this, repr
      ensures Valid() && fresh(repr - old(repr)) && pids == [pid] + old(pids)
    {
      var node := new Node(Pid(pid));
      assert chain[0].next == Following(chain, 0);
      LinkIn(node, head, head.next, 1);
    }

    /** list_push_back */
    method PushBack(pid: int)
      requires Valid()
      modifies this, repr
      ensures Valid() && fresh(repr - old(repr)) && pids == old(pids) + [pid]
    {
      var node := new Node(Pid(pid));
      assert chain[|chain| - 1].prev == Preceding(chain, |chain| - 1);
      LinkIn(node, tail.prev, tail, |chain| - 1);
    }

    /** list_pop_front; an empty list is reported and left alone. */
    method PopFront()
      requires Valid()
      modifies this, repr
      ensures Valid() && repr == old(repr)
      ensures pids == if old(pids) == [] then [] else old(pids)[1..]
    {
      assert chain[0].next == Following(chain, 0) && chain[1].next == Following(chain, 1);
      Apart(chain, |chain| - 1);
      if head.next != tail {
        Unlink(head, head.next.next, 1);
      }
    }

    /** list_pop_back */
    method PopBack()
      requires Valid()
      modifies this, repr
      ensures Valid() && repr == old(repr)
      ensures pids == if old(pids) == [] then [] else old(pids)[..|old(pids)| - 1]
    {
      ghost var last := |chain| - 1;
      assert chain[last].prev == Preceding(chain, last) && chain[last - 1].prev == Preceding(chain, last - 1);
      Apart(chain, 0);
      if tail.prev != head {
        Unlink(tail.prev.prev, tail, last - 1);
      }
    }

    /** list_remove_node, with the position of the node as ghost argument. The sentinels cannot be removed. The removed
        node keeps its own links. */
    method RemoveNode(p: Node, ghost k: nat)
      requires Valid() && k < |chain| && p == chain[k]
      modifies this, repr
      ensures Valid() && repr == old(repr)
      ensures chain == if k == 0 || k == |old(chain)| - 1 then old(chain) else Without(old(chain), k)
      ensures pids == if k == 0 || k == |old(chain)| - 1 then old(pids) else DropAt(old(pids), k - 1)
      ensures p.next == Following(old(chain), k)
    {
      assert chain[k].next == Following(chain, k) && chain[k].prev == Preceding(chain, k);
      Apart(chain, k);
      if p != head && p != tail {
        Unlink(p.prev, p.next, k);
      }
    }

    /** list_remove_pid: unlinks the first node holding the pid, if there is one. */
    method RemovePid(pid: int)
      requires Valid()
      modifies this, repr
      ensures Valid() && repr == old(repr)
      ensures pids == RemoveFirst(old(pids), pid)
      ensures var k := IndexOf(old(pids), pid);
              chain == if k < |old(pids)| then Without(old(chain), k + 1) else old(chain)
      ensures var k := IndexOf(old(pids), pid);
              k < |old(pids)| ==> old(chain)[k + 1].next == Following(old(chain), k + 1)
    {
      var p := Front();
      ghost var k := 1;
      while p.next != null
        invariant 1 <= k < |chain| && p == chain[k]
        invariant forall i | 0 <= i < k - 1 :: pids[i] != pid
        decreases |chain| - k
      {
        assert chain[k].next == Following(chain, k);
        if p.data.pid == pid {
          assert pids[k - 1] == pid;
          assert IndexOf(pids, pid) == k - 1;
          RemoveNode(p, k);
          return;
        }
        p := p.next;
        k := k + 1;
      }
      assert chain[k].next == Following(chain, k);
    }

    /** list_contains */
    method Contains(pid: int) returns (result: bool)
      requires Valid()
      ensures result <==> pid in pids
    {
      result := false;
      assert chain[0].next == Following(chain, 0);
      var p := head.next;
      ghost var k := 1;
      while p.next != null
        invariant 1 <= k < |chain| && p == chain[k]
        invariant forall i | 0 <= i < k - 1 :: pids[i] != pid
        decreases |chain| - k
      {
        assert chain[k].next == Following(chain, k);
        if ComparePid(p.data.pid, pid) == 0 {
          assert pids[k - 1] == pid;
          result := true;
          return;
        }
        p := p.next;
        k := k + 1;
      }
      assert chain[k].next == Following(chain, k);
    }
  }
}
