/** The intrusive queue of queue_utils.c: the links live in the queued elements themselves. */
module ElementQueue {

  class QueueElement {
    const pathName: string
    var next: QueueElement?

    /** malloc and the copy of the name; the link is left for insert_element to set. */
    constructor (pathName: string)
      ensures this.pathName == pathName
    {
      this.pathName := pathName;
    }
  }

  ghost function Successor(items: seq<QueueElement>, i: nat): QueueElement? {
    if i + 1 < |items| then items[i + 1] else null
  }

  ghost function PathsOf(items: seq<QueueElement>): seq<string> {
    seq(|items|, i requires 0 <= i < |items| => items[i].pathName)
  }

  lemma PathsAppend(items: seq<QueueElement>, element: QueueElement)
    ensures PathsOf(items + [element]) == PathsOf(items) + [element.pathName]
  {
  }

  /** queue_t. `items` is the FIFO sequence the links represent, `repr` every element that was ever queued. An empty
      queue keeps a stale tail. */
  class Queue {
    var head: QueueElement?
    var tail: QueueElement?
    ghost var items: seq<QueueElement>
    ghost var repr: set<QueueElement>

    ghost predicate Valid()
      reads this, repr
    {
      && (forall i | 0 <= i < |items| :: items[i] in repr)
      && (head == null <==> |items| == 0)
      && (|items| > 0 ==> head == items[0] && tail == items[|items| - 1])
      && (forall i {:trigger items[i].next} | 0 <= i < |items| :: items[i].next == Successor(items, i))
      && (forall i, j | 0 <= i < j < |items| :: items[i] != items[j])
    }

    /** create_queue */
    constructor ()
      ensures Valid() && items == [] && repr == {}
    {
      head, tail, items, repr := null, null, [], {};
    }

    /** insert_element */
    method Insert(element: QueueElement)
      requires Valid() && element !in items
      modifies this, repr, element
      ensures Valid() && items == old(items) + [element] && repr == old(repr) + {element}
    {
      element.next := null;
      if head == null {
        head := element;
        tail := element;
      } else {
        tail.next := element;
        tail := tail.next;
      }
      items, repr := items + [element], repr + {element};
    }

    /** remove_element; null when there is nothing to remove. The removed element keeps its link. */
    method Remove() returns (element: QueueElement?)
      requires Valid()
      modifies this
      ensures Valid() && repr == old(repr)
      ensures old(items) == [] ==> element == null && items == []
      ensures old(items) != [] ==> element == old(items)[0] && items == old(items)[1..]
    {
      element := null;
      if head != null {
        element := head;
        head := head.next;
        items := items[1..];
      }
    }

    /** num_elements */
    method NumElements() returns (count: nat)
      requires Valid()
      ensures count == |items|
    {
      var current := head;
      count := 0;
      while current != null
        invariant count <= |items| && current == if count < |items| then items[count] else null
        decreases |items| - count
      {
        count := count + 1;
        current := current.next;
      }
    }
  }
}
