/** Which items go through the buffer, and who takes them. */
module BufferItems {
  import opened BoundedBuffer
  import opened BufferInvariant
  import opened BufferSafety

  // ---------------------------------------------------------------- what is drawn is what is produced

  /** The work items that produce_work_item returns in a run: one whenever the producer begins another of its rounds. */
  function Drawn(s: State, schedule: seq<Action>): seq<int>
    requires Runs(s, schedule)
    decreases |schedule|
  {
    if schedule == [] then []
    else
      var a := schedule[0];
      (if a.ProducerStep? && s.ppc.PNextItem? && s.i < s.items then [a.item] else []) + Drawn(Next(s, a), schedule[1..])
  }

  /** The item drawn and not yet counted into the buffer. */
  function InHand(s: State): seq<int> {
    if s.ppc.PLock? || s.ppc.PTestFull? || s.ppc.PSetFull? || s.ppc.PUnlockFull? || s.ppc.PWaitConsumer? || s.ppc.PRelock?
       || s.ppc.PWrite? || s.ppc.PSetOut? || s.ppc.PIncIn?
    then [s.item] else []
  }

  lemma ProducerDraws(s: State, item: int)
    requires ProducerEnabled(s)
    ensures var t := ProducerNext(s, item);
            ProducedItems(t.history) + InHand(t) ==
              ProducedItems(s.history) + InHand(s) + (if s.ppc.PNextItem? && s.i < s.items then [item] else [])
  {
    if s.ppc.PIncIn? { ItemsAfter(s.history, Produced(s.item)); } else { QuietlyDraws(s, item); }
  }

  lemma QuietlyDraws(s: State, item: int)
    requires ProducerEnabled(s) && !s.ppc.PIncIn?
    ensures var t := ProducerNext(s, item);
            t.history == s.history && InHand(t) == InHand(s) + (if s.ppc.PNextItem? && s.i < s.items then [item] else [])
  {
  }

  lemma ConsumerDraws(s: State, c: nat, outside: int)
    requires ConsumerEnabled(s, c)
    ensures var t := ConsumerNext(s, c, outside);
            ProducedItems(t.history) == ProducedItems(s.history) && InHand(t) == InHand(s)
  {
    var t := ConsumerNext(s, c, outside);
    assert t.ppc == s.ppc && t.item == s.item;
    if s.consumers[c].pc.CDecIn? {
      ItemsAfter(s.history, Consumed(c, s.consumers[c].pc.value));
    } else {
      assert t.history == s.history;
    }
  }

  lemma {:induction false} RunDraws(s: State, schedule: seq<Action>)
    requires Runs(s, schedule)
    ensures var t := After(s, schedule);
            ProducedItems(t.history) + InHand(t) == ProducedItems(s.history) + InHand(s) + Drawn(s, schedule)
    decreases |schedule|
  {
    if schedule == [] {
    } else {
      var a := schedule[0];
      match a {
        case ProducerStep(item) => ProducerDraws(s, item);
        case ConsumerStep(c, outside) => ConsumerDraws(s, c, outside);
      }
      RunDraws(Next(s, a), schedule[1..]);
    }
  }

  /** In every run the items counted into the buffer, followed by the one in the producer's hands, are exactly the items
      drawn, in order. */
  lemma ProducedAsDrawn(s: State, schedule: seq<Action>)
    requires Init(s) && Runs(s, schedule)
    ensures ProducedItems(After(s, schedule).history) + InHand(After(s, schedule)) == Drawn(s, schedule)
  {
    RunDraws(s, schedule);
  }

  // ---------------------------------------------------------------- each consumer counts its own

  function TakenBy(history: seq<Event>, c: nat): nat {
    if history == [] then 0
    else
      var last := history[|history| - 1];
      TakenBy(history[..|history| - 1], c) + if last.Consumed? && last.consumer == c then 1 else 0
  }

  lemma TakenAfter(history: seq<Event>, e: Event, c: nat)
    ensures TakenBy(history + [e], c) == TakenBy(history, c) + if e.Consumed? && e.consumer == c then 1 else 0
  {
    assert (history + [e])[..|history|] == history;
  }

  ghost predicate CountsOwn(cs: seq<Consumer>, history: seq<Event>) {
    forall c: nat | c < |cs| :: cs[c].consumed == TakenBy(history, c)
  }

  lemma ProducerKeepsCounts(s: State, item: int)
    requires ProducerEnabled(s) && CountsOwn(s.consumers, s.history)
    ensures CountsOwn(ProducerNext(s, item).consumers, ProducerNext(s, item).history)
  {
    forall c: nat | c < |s.consumers| && s.ppc.PIncIn?
      ensures TakenBy(s.history + [Produced(s.item)], c) == TakenBy(s.history, c)
    {
      TakenAfter(s.history, Produced(s.item), c);
    }
  }

  /** A step that takes nothing. */
  lemma MovedCounts(cs: seq<Consumer>, history: seq<Event>, d: nat, x: Consumer)
    requires CountsOwn(cs, history) && d < |cs| && x.consumed == cs[d].consumed
    ensures CountsOwn(cs[d := x], history)
  {
  }

  /** A step that takes an item. */
  lemma TakingCounts(cs: seq<Consumer>, history: seq<Event>, d: nat, x: Consumer, value: int)
    requires CountsOwn(cs, history) && d < |cs| && x.consumed == cs[d].consumed + 1
    ensures CountsOwn(cs[d := x], history + [Consumed(d, value)])
  {
    forall c: nat | c < |cs| ensures cs[d := x][c].consumed == TakenBy(history + [Consumed(d, value)], c) {
      TakenAfter(history, Consumed(d, value), c);
    }
  }

  lemma ConsumerKeepsCounts(s: State, d: nat, outside: int)
    requires ConsumerEnabled(s, d) && CountsOwn(s.consumers, s.history)
    ensures CountsOwn(ConsumerNext(s, d, outside).consumers, ConsumerNext(s, d, outside).history)
  {
    var t := ConsumerNext(s, d, outside);
    if s.consumers[d].pc.CDecIn? {
      TakingCounts(s.consumers, s.history, d, t.consumers[d], s.consumers[d].pc.value);
    } else {
      MovedCounts(s.consumers, s.history, d, t.consumers[d]);
    }
  }

  lemma {:induction false} RunCounts(s: State, schedule: seq<Action>)
    requires CountsOwn(s.consumers, s.history) && Runs(s, schedule)
    ensures CountsOwn(After(s, schedule).consumers, After(s, schedule).history)
    decreases |schedule|
  {
    if schedule == [] {
    } else {
      match schedule[0] {
        case ProducerStep(item) => ProducerKeepsCounts(s, item);
        case ConsumerStep(c, outside) => ConsumerKeepsCounts(s, c, outside);
      }
      RunCounts(Next(s, schedule[0]), schedule[1..]);
    }
  }

  /** num_items_consumed of each consumer is the number of items that this consumer took, in every reachable state. */
  lemma CountersExact(s: State, c: nat)
    requires Reachable(s) && c < |s.consumers|
    ensures s.consumers[c].consumed == TakenBy(s.history, c)
  {
    var s0, schedule :| Init(s0) && Runs(s0, schedule) && After(s0, schedule) == s;
    RunCounts(s0, schedule);
  }
}
