/**
 The shared memory of pe_3 and the two programs working on it, step by step and in place. Each method performs one
 step of the transition system; the invariant makes every array access safe without a check.
 */
module SharedBuffer {
  import opened BoundedBuffer
  import opened BufferInvariant

  class SharedMemory {
    // struct buffer and the three semaphores
    const work: array<int>
    var inIndex: int
    var outIndex: int
    var isFull: bool
    var isFinished: bool
    var sem1: nat
    var sem2: nat
    var sem3: nat

    // the processes: the producer's locals and position, the consumers
    var items: int
    var i: int
    var item: int
    var ppc: ProducerPc
    var consumers: seq<Consumer>

    ghost var history: seq<Event>
    ghost var fullSets: nat
    ghost var fullPosts: nat
    ghost var finishedAt: nat
    ghost var stranded: nat

    ghost function View(): State
      reads this, work
    {
      State(items, i, item, ppc, consumers, work[..], inIndex, outIndex, isFull, isFinished, sem1, sem2, sem3,
        history, fullSets, fullPosts, finishedAt, stranded)
    }

    /** initialize_shared_mem, initialize_sems and initialize_buffer; the contents of `work` are left as they are. */
    constructor (numItems: int, numConsumers: nat)
      ensures Init(View()) && Inv(View()) && fresh(work)
      ensures items == numItems && i == 0 && ppc == PNextItem && work.Length == 25
      ensures inIndex == 0 && outIndex == 0 && !isFull && !isFinished && sem1 == 0 && sem2 == 0 && sem3 == 1 && history == []
      ensures |consumers| == numConsumers && forall c | 0 <= c < numConsumers :: consumers[c] == Consumer(CCheckLock, 0)
    {
      work := new int[BUF_SIZE];
      inIndex, outIndex, isFull, isFinished := 0, 0, false, false;
      sem1, sem2, sem3 := 0, 0, 1;
      items, i, item, ppc := numItems, 0, 0, PNextItem;
      consumers := seq(numConsumers, k => Consumer(CCheckLock, 0));
      history, fullSets, fullPosts, finishedAt, stranded := [], 0, 0, 0, 0;
      new;
      InitInv(View());
    }

    // ------------------------------------------------------------ producer.c

    /** lock_shared_mem, unlock_shared_mem, wait_for_consumer and signal_consumer. */
    method ProducerSemaphore(ghost nextItem: int)
      requires ProducerEnabled(View())
      requires ppc.PLock? || ppc.PUnlockFull? || ppc.PWaitConsumer? || ppc.PRelock? || ppc.PSignal? || ppc.PUnlock?
               || ppc.PPollLock? || ppc.PPollUnlock? || ppc.PPostTokens? || ppc.PLastUnlock?
      modifies this`sem1, this`sem2, this`sem3, this`i, this`ppc
      ensures View() == ProducerNext(old(View()), nextItem)
    {
      match ppc {
        case PLock => sem3, ppc := sem3 - 1, PTestFull;
        case PUnlockFull => sem3, ppc := sem3 + 1, PWaitConsumer;
        case PWaitConsumer => sem1, ppc := sem1 - 1, PRelock;
        case PRelock => sem3, ppc := sem3 - 1, PWrite;
        case PSignal => sem2, ppc := sem2 + 1, PUnlock;
        case PUnlock => sem3, i, ppc := sem3 + 1, i + 1, PNextItem;
        case PPollLock => sem3, ppc := sem3 - 1, PPollTest;
        case PPollUnlock => sem3, ppc := sem3 + 1, PPollLock;
        case PPostTokens(n) =>
          if n < MAX_NUM_CONSUMERS { sem2, ppc := sem2 + 1, PPostTokens(n + 1); } else { ppc := PLastUnlock; }
        case PLastUnlock => sem3, ppc := sem3 + 1, PExited;
      }
    }

    /** The statements between the semaphore calls. */
    method ProducerAccess(nextItem: int)
      requires ppc.PNextItem? || ppc.PTestFull? || ppc.PSetFull? || ppc.PSetOut? || ppc.PIncIn? || ppc.PPollTest?
      modifies this`item, this`ppc, this`isFull, this`fullSets, this`inIndex, this`outIndex, this`history
      ensures View() == ProducerNext(old(View()), nextItem)
    {
      match ppc {
        case PNextItem =>
          if i < items { item, ppc := nextItem, PLock; } else { ppc := PPollLock; }
        case PTestFull => ppc := if inIndex == BUF_SIZE then PSetFull else PWrite;
        case PSetFull => isFull, fullSets, ppc := true, fullSets + 1, PUnlockFull;
        case PSetOut => outIndex, ppc := inIndex, PIncIn;
        case PIncIn => inIndex, history, ppc := inIndex + 1, history + [Produced(item)], PSignal;
        case PPollTest => ppc := if inIndex == 0 then PFinish else PPollUnlock;
      }
    }

    method ProducerFinish(ghost nextItem: int)
      requires ppc.PFinish?
      modifies this`isFinished, this`ppc, this`finishedAt, this`stranded
      ensures View() == ProducerNext(old(View()), nextItem)
    {
      isFinished, ppc := true, PPostTokens(0);
      finishedAt, stranded := |history|, Count(consumers, ReadFalse);
    }

    method ProducerWrite(ghost nextItem: int)
      requires ppc.PWrite? && 0 <= inIndex < work.Length
      modifies this`ppc, work
      ensures View() == ProducerNext(old(View()), nextItem)
    {
      work[inIndex] := item;
      ppc := PSetOut;
      assert work[..] == old(work[..])[inIndex := item];
    }

    /** Whatever the producer does next. The write needs no test of the index: the invariant bounds it. Until is_finished
        is set the slots below `in` are the stack of unconsumed items, on which only the increment of `in` pushes. */
    method Producer(nextItem: int)
      requires Inv(View()) && ProducerEnabled(View())
      modifies this, work
      ensures View() == ProducerNext(old(View()), nextItem) && Inv(View())
      ensures old(ppc).PNextItem? && old(i) < old(items) ==> item == nextItem
      ensures !old(isFinished) ==> 0 <= old(inIndex) <= inIndex <= work.Length
      ensures !old(isFinished) ==>
                work[..inIndex] == old(work[..inIndex]) + (if old(ppc).PIncIn? then [old(item)] else [])
      ensures !isFinished ==> Replay(history) == Stack(work[..inIndex])
    {
      ProducerKeeps(View(), nextItem);
      if !isFinished { ProducerPushes(View(), nextItem); }
      if ppc.PWrite? {
        WritesInside(View());
        ProducerWrite(nextItem);
      } else if ppc.PFinish? {
        ProducerFinish(nextItem);
      } else if ppc.PNextItem? || ppc.PTestFull? || ppc.PSetFull? || ppc.PSetOut? || ppc.PIncIn? || ppc.PPollTest? {
        ProducerAccess(nextItem);
      } else {
        ProducerSemaphore(nextItem);
      }
    }

    // ------------------------------------------------------------ consumer.c

    method GoTo(c: nat, pc: ConsumerPc)
      requires c < |consumers|
      modifies this`consumers
      ensures consumers == old(consumers)[c := old(consumers)[c].(pc := pc)]
    {
      consumers := consumers[c := consumers[c].(pc := pc)];
    }

    /** lock_shared_mem, unlock_shared_mem, wait_for_producer and signal_producer. */
    method ConsumerSemaphore(c: nat, ghost outside: int)
      requires ConsumerEnabled(View(), c)
      requires var pc := consumers[c].pc;
               pc.CCheckLock? || pc.CCheckUnlock? || pc.CWaitProducer? || pc.CTakeLock? || pc.CSignal? || pc.CTakeUnlock?
      modifies this`sem1, this`sem2, this`sem3, this`consumers, this`fullPosts
      ensures View() == ConsumerNext(old(View()), c, outside)
    {
      match consumers[c].pc {
        case CCheckLock => sem3 := sem3 - 1; GoTo(c, CCheckRead);
        case CCheckUnlock(finished) => sem3 := sem3 + 1; GoTo(c, if finished then CExited else CWaitProducer);
        case CWaitProducer => sem2 := sem2 - 1; GoTo(c, CTakeLock);
        case CTakeLock => sem3 := sem3 - 1; GoTo(c, CTakeRead);
        case CSignal => sem1, fullPosts := sem1 + 1, fullPosts + 1; GoTo(c, CTakeUnlock);
        case CTakeUnlock => sem3 := sem3 + 1; GoTo(c, CCheckLock);
      }
    }

    /** The statements between the semaphore calls. */
    method ConsumerAccess(c: nat, ghost outside: int)
      requires c < |consumers|
      requires var pc := consumers[c].pc;
               pc.CCheckRead? || pc.CDecOut? || pc.CDecIn? || pc.CTestFull? || pc.CClearFull?
      modifies this`inIndex, this`outIndex, this`isFull, this`consumers, this`history
      ensures View() == ConsumerNext(old(View()), c, outside)
    {
      match consumers[c].pc {
        case CCheckRead => GoTo(c, CCheckUnlock(isFinished));
        case CDecOut(v) => outIndex := outIndex - 1; GoTo(c, CDecIn(v));
        case CDecIn(v) =>
          inIndex := inIndex - 1;
          consumers := consumers[c := Consumer(CTestFull, consumers[c].consumed + 1)];
          history := history + [Consumed(c, v)];
        case CTestFull => GoTo(c, if isFull then CClearFull else CTakeUnlock);
        case CClearFull => isFull := false; GoTo(c, CSignal);
      }
    }

    method ConsumerRead(c: nat, outside: int)
      requires c < |consumers| && consumers[c].pc.CTakeRead?
      requires !isFinished ==> 0 <= outIndex < work.Length
      modifies this`consumers
      ensures View() == ConsumerNext(old(View()), c, outside)
    {
      var value := outside;
      if !isFinished {
        value := work[outIndex];
      } else if 0 <= outIndex < work.Length {
        value := work[outIndex];
      }
      GoTo(c, CDecOut(value));
    }

    method ConsumerAny(c: nat, outside: int)
      requires Inv(View()) && ConsumerEnabled(View(), c)
      modifies this
      ensures View() == ConsumerNext(old(View()), c, outside)
    {
      var pc := consumers[c].pc;
      if pc.CTakeRead? {
        if !isFinished { ReadsTop(View(), c); }
        ConsumerRead(c, outside);
      } else if pc.CCheckRead? || pc.CDecOut? || pc.CDecIn? || pc.CTestFull? || pc.CClearFull? {
        ConsumerAccess(c, outside);
      } else {
        ConsumerSemaphore(c, outside);
      }
    }

    /** Whatever consumer c does next. Until is_finished is set its read needs no test of the index either, what it reads is
        the newest unconsumed item, and the decrement of `in` pops that very item. */
    method Consume(c: nat, outside: int)
      requires Inv(View()) && ConsumerEnabled(View(), c)
      modifies this
      ensures View() == ConsumerNext(old(View()), c, outside) && Inv(View())
      ensures !isFinished ==> 0 <= inIndex <= old(inIndex) <= work.Length
      ensures !isFinished && old(consumers[c].pc).CTakeRead? ==>
                inIndex > 0 && consumers[c].pc == CDecOut(work[inIndex - 1])
      ensures !isFinished ==>
                old(work[..inIndex]) ==
                  work[..inIndex] + (if old(consumers[c].pc).CDecIn? then [old(consumers[c].pc.value)] else [])
      ensures !isFinished ==> Replay(history) == Stack(work[..inIndex])
    {
      ConsumerKeeps(View(), c, outside);
      if !isFinished { ConsumerPops(View(), c, outside); }
      ConsumerAny(c, outside);
    }
  }

  lemma WritesInside(s: State)
    requires Inv(s) && s.ppc.PWrite?
    ensures 0 <= s.inIndex < |s.work|
  {
  }

  /** Only the increment of `in` changes the slots below it, and it adds the item. */
  lemma ProducerPushes(s: State, item: int)
    requires Inv(s) && ProducerEnabled(s) && !s.isFinished
    ensures var t := ProducerNext(s, item);
            && 0 <= s.inIndex <= t.inIndex <= |t.work| && |s.work| == |t.work|
            && t.work[..t.inIndex] == s.work[..s.inIndex] + (if s.ppc.PIncIn? then [s.item] else [])
  {
    if s.ppc.PIncIn? { assert s.work[..s.inIndex + 1] == s.work[..s.inIndex] + [s.work[s.inIndex]]; }
  }

  /** The read finds the last slot below `in`, and only the decrement of `in` changes those slots: it drops what was read. */
  lemma ConsumerPops(s: State, c: nat, outside: int)
    requires Inv(s) && ConsumerEnabled(s, c) && !s.isFinished
    ensures var t := ConsumerNext(s, c, outside);
            && 0 <= t.inIndex <= s.inIndex <= |t.work| && t.work == s.work
            && (s.consumers[c].pc.CTakeRead? ==> t.inIndex > 0 && t.consumers[c].pc == CDecOut(t.work[t.inIndex - 1]))
            && s.work[..s.inIndex] == t.work[..t.inIndex] + (if s.consumers[c].pc.CDecIn? then [s.consumers[c].pc.value] else [])
  {
    if s.consumers[c].pc.CTakeRead? { ReadsTop(s, c); }
    if s.consumers[c].pc.CDecIn? { assert s.work[..s.inIndex] == s.work[..s.inIndex - 1] + [s.work[s.inIndex - 1]]; }
  }
}
