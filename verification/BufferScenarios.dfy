/**
 Runs that do happen, for every number of items: all consumers stranded at shutdown, more of them than there are
 shutdown tokens, and a read outside the array.
 */
module BufferScenarios {
  import opened BoundedBuffer
  import opened BufferInvariant
  import opened BufferSafety
  import opened BufferProgress

  lemma ReachableStep(s: State, a: Action)
    requires Reachable(s) && Enabled(s, a)
    ensures Reachable(Next(s, a))
  {
    var s0, schedule :| Init(s0) && Runs(s0, schedule) && After(s0, schedule) == s;
    RunsSnoc(s0, schedule, a);
    assert After(s0, schedule + [a]) == Next(s, a);
  }

  lemma ReachableRun(s: State, more: seq<Action>)
    requires Reachable(s) && Runs(s, more)
    ensures Reachable(After(s, more))
  {
    var s0, schedule :| Init(s0) && Runs(s0, schedule) && After(s0, schedule) == s;
    RunsAppend(s0, schedule, more);
    assert After(s0, schedule + more) == After(s, more);
  }

  // ---------------------------------------------------------------- everybody waits

  /** The first n consumers have read is_finished as false and are waiting; nothing else has happened. */
  function Waiting(s: State, n: nat): State {
    s.(consumers := seq(|s.consumers|, k requires 0 <= k => Consumer(if k < n then CWaitProducer else CCheckLock, 0)))
  }

  lemma {:induction false} AllWait(s: State, n: nat) returns (schedule: seq<Action>)
    requires Init(s) && n <= |s.consumers|
    ensures Runs(s, schedule) && After(s, schedule) == Waiting(s, n)
  {
    if n == 0 {
      schedule := [];
      assert s.consumers == Waiting(s, 0).consumers;
    } else {
      var first := AllWait(s, n - 1);
      var a := ConsumerStep(n - 1, 0);
      RunsSnoc(s, first, a);
      RunsSnoc(s, first + [a], a);
      RunsSnoc(s, first + [a] + [a], a);
      schedule := first + [a] + [a] + [a];
      assert After(s, schedule).consumers == Waiting(s, n).consumers;
    }
  }

  predicate AllWaiting(cs: seq<Consumer>) { forall c | 0 <= c < |cs| :: cs[c].pc.CWaitProducer? }

  /** Between two items: the buffer is empty, all consumers wait, the mutex is free. */
  ghost predicate AtRest(s: State) {
    Reachable(s) && s.ppc == PNextItem && s.inIndex == 0 && AllWaiting(s.consumers)
  }

  lemma RestIsQuiet(s: State)
    requires AtRest(s)
    ensures s.sem3 == 1 && s.sem2 == 0 && !s.isFull && !s.isFinished && Count(s.consumers, ReadFalse) == |s.consumers|
  {
    ReachableInv(s);
    CountNone(s.consumers, InCritical);
    CountNone(s.consumers, HoldsToken);
    CountAll(s.consumers, ReadFalse);
  }

  /** The producer puts one item into the empty buffer. */
  lemma OneProduced(s: State) returns (t: State)
    requires AtRest(s) && s.i < s.items
    ensures Reachable(t) && t.ppc == PNextItem && t.i == s.i + 1 && t.items == s.items && t.consumers == s.consumers
    ensures t.inIndex == 1 && t.sem2 == 1 && t.sem3 == 1 && !t.isFull && !t.isFinished
  {
    RestIsQuiet(s);
    t := FindsRoom(s);
    t := PutsIn(t);
  }

  lemma FindsRoom(s: State) returns (t: State)
    requires AtRest(s) && s.i < s.items && s.sem3 == 1
    ensures Reachable(t) && t == s.(item := 0, ppc := PWrite, sem3 := 0)
  {
    var p := ProducerStep(0);
    ReachableStep(s, p);
    t := Next(s, p);
    ReachableStep(t, p);
    t := Next(t, p);
    ReachableStep(t, p);
    t := Next(t, p);
  }

  lemma PutsIn(s: State) returns (t: State)
    requires Reachable(s) && s.ppc == PWrite
    ensures Reachable(t) && t.ppc == PNextItem && t.i == s.i + 1 && t.items == s.items && t.consumers == s.consumers
    ensures t.inIndex == s.inIndex + 1 && t.sem2 == s.sem2 + 1 && t.sem3 == s.sem3 + 1
    ensures t.isFull == s.isFull && t.isFinished == s.isFinished
  {
    var p := ProducerStep(0);
    ReachableStep(s, p);
    t := Next(s, p);
    ReachableStep(t, p);
    t := Next(t, p);
    assert t == s.(ppc := PIncIn, work := t.work, outIndex := s.inIndex);
    t := Announces(t);
  }

  lemma Announces(s: State) returns (t: State)
    requires Reachable(s) && s.ppc == PIncIn
    ensures Reachable(t) && t.ppc == PNextItem && t.i == s.i + 1 && t.items == s.items && t.consumers == s.consumers
    ensures t.inIndex == s.inIndex + 1 && t.sem2 == s.sem2 + 1 && t.sem3 == s.sem3 + 1
    ensures t.isFull == s.isFull && t.isFinished == s.isFinished
  {
    var p := ProducerStep(0);
    ReachableStep(s, p);
    t := Next(s, p);
    ReachableStep(t, p);
    t := Next(t, p);
    ReachableStep(t, p);
    t := Next(t, p);
  }

  /** A waiting consumer takes a token and the mutex. */
  lemma GoesToRead(s: State, c: nat) returns (t: State)
    requires Reachable(s) && c < |s.consumers| && s.consumers[c].pc.CWaitProducer? && s.sem2 > 0 && s.sem3 > 0
    ensures Reachable(t) && t.items == s.items && |t.consumers| == |s.consumers| && t.isFinished == s.isFinished
    ensures t.ppc == s.ppc && t.i == s.i
    ensures t.consumers == s.consumers[c := t.consumers[c]] && t.consumers[c].pc == CTakeRead
    ensures t.sem2 == s.sem2 - 1 && t.sem3 == s.sem3 - 1 && t.inIndex == s.inIndex && t.isFull == s.isFull
  {
    var a := ConsumerStep(c, 0);
    ReachableStep(s, a);
    t := Next(s, a);
    ReachableStep(t, a);
    t := Next(t, a);
  }

  /** Having read, it counts the item out. */
  lemma CountsOut(s: State, c: nat) returns (t: State)
    requires Reachable(s) && c < |s.consumers| && s.consumers[c].pc == CTakeRead
    ensures Reachable(t) && t.items == s.items && |t.consumers| == |s.consumers| && t.isFinished == s.isFinished
    ensures t.ppc == s.ppc && t.i == s.i
    ensures t.consumers == s.consumers[c := t.consumers[c]] && t.consumers[c].pc == CTestFull
    ensures t.sem2 == s.sem2 && t.sem3 == s.sem3 && t.inIndex == s.inIndex - 1 && t.isFull == s.isFull
  {
    var a := ConsumerStep(c, 0);
    ReachableStep(s, a);
    t := Next(s, a);
    ReachableStep(t, a);
    t := Next(t, a);
    assert t.consumers == s.consumers[c := t.consumers[c]] && t.consumers[c].pc.CDecIn?;
    ReachableStep(t, a);
    t := Next(t, a);
  }

  /** And it releases the mutex. */
  lemma Releases(s: State, c: nat) returns (t: State)
    requires Reachable(s) && c < |s.consumers| && s.consumers[c].pc == CTestFull && !s.isFull
    ensures Reachable(t) && t.items == s.items && |t.consumers| == |s.consumers| && t.isFinished == s.isFinished
    ensures t.ppc == s.ppc && t.i == s.i
    ensures t.consumers == s.consumers[c := t.consumers[c]] && t.consumers[c].pc == CCheckLock
    ensures t.sem2 == s.sem2 && t.sem3 == s.sem3 + 1 && t.inIndex == s.inIndex
  {
    var a := ConsumerStep(c, 0);
    ReachableStep(s, a);
    t := Next(s, a);
    ReachableStep(t, a);
    t := Next(t, a);
  }

  /** The first consumer takes the only item. */
  lemma OneTaken(s: State) returns (t: State)
    requires Reachable(s) && s.ppc == PNextItem && |s.consumers| > 0 && AllWaiting(s.consumers)
    requires s.inIndex == 1 && s.sem2 == 1 && s.sem3 == 1 && !s.isFull && !s.isFinished
    ensures Reachable(t) && t.ppc == PNextItem && t.i == s.i && t.items == s.items && !t.isFinished
    ensures |t.consumers| == |s.consumers|
    ensures t.consumers == s.consumers[0 := t.consumers[0]] && t.consumers[0].pc == CCheckLock
    ensures t.inIndex == 0 && t.sem3 == 1
  {
    t := GoesToRead(s, 0);
    t := CountsOut(t, 0);
    t := Releases(t, 0);
  }

  /** It looks at is_finished and waits again. */
  lemma OneWaitsAgain(s: State) returns (t: State)
    requires Reachable(s) && s.ppc == PNextItem && |s.consumers| > 0 && s.consumers[0].pc == CCheckLock
    requires forall c | 0 < c < |s.consumers| :: s.consumers[c].pc.CWaitProducer?
    requires s.inIndex == 0 && s.sem3 == 1 && !s.isFinished
    ensures AtRest(t) && t.i == s.i && t.items == s.items && |t.consumers| == |s.consumers|
  {
    var a := ConsumerStep(0, 0);
    ReachableStep(s, a);
    t := Next(s, a);
    ReachableStep(t, a);
    t := Next(t, a);
    ReachableStep(t, a);
    t := Next(t, a);
    assert t.consumers == s.consumers[0 := t.consumers[0]];
  }

  lemma {:induction false} AllMade(s: State) returns (t: State)
    requires AtRest(s) && |s.consumers| > 0
    ensures AtRest(t) && t.i >= t.items && t.items == s.items && |t.consumers| == |s.consumers|
    decreases s.items - s.i
  {
    if s.i >= s.items {
      t := s;
    } else {
      t := OneProduced(s);
      t := OneTaken(t);
      t := OneWaitsAgain(t);
      t := AllMade(t);
    }
  }

  /** A producer can set is_finished while all its consumers wait, whatever it was told to produce. */
  lemma AllStranded(n: nat, items: int) returns (s: State)
    requires n > 0
    ensures Reachable(s) && s.items == items && s.isFinished && s.stranded == n == |s.consumers|
    ensures s.ppc == PPostTokens(0) && AllWaiting(s.consumers)
  {
    var s0 := State(items, 0, 0, PNextItem, seq(n, k => Consumer(CCheckLock, 0)), seq(BUF_SIZE, k => 0), 0, 0, false, false,
      0, 0, 1, [], 0, 0, 0, 0);
    var wait := AllWait(s0, n);
    assert Reachable(Waiting(s0, n));
    s := AllMade(Waiting(s0, n));
    s := Finishes(s);
  }

  lemma Finishes(s: State) returns (t: State)
    requires AtRest(s) && s.i >= s.items
    ensures Reachable(t) && t.items == s.items && t.consumers == s.consumers
    ensures t.isFinished && t.stranded == |s.consumers| && t.ppc == PPostTokens(0)
  {
    RestIsQuiet(s);
    var p := ProducerStep(0);
    ReachableStep(s, p);
    t := Next(s, p);
    ReachableStep(t, p);
    t := Next(t, p);
    ReachableStep(t, p);
    t := Next(t, p);
    ReachableStep(t, p);
    t := Next(t, p);
  }

  // ---------------------------------------------------------------- one hundred consumers, exactly

  /** A run of these many items and consumers ends here. */
  ghost predicate Ends(s: State, n: nat, items: int) {
    Reachable(s) && s.items == items && |s.consumers| == n && Blocked(s) && !HoldsForPoll(s)
  }

  /** For every number of items: every run of n consumers that stops has let everybody leave exactly when n is at most 100. */
  lemma EverybodyLeavesIff(n: nat, items: int)
    requires n > 0
    ensures (forall s :: Ends(s, n, items) ==> AllExited(s)) <==> n <= 100
  {
    if n <= MAX_NUM_CONSUMERS {
      forall s | Ends(s, n, items) ensures AllExited(s) {
        ReachableInv(s);
        BlockedMeansDone(s);
      }
    } else {
      var t := SomebodyIsLeft(n, items);
      assert !AllExited(t);
    }
  }

  lemma SomebodyIsLeft(n: nat, items: int) returns (t: State)
    requires n > MAX_NUM_CONSUMERS
    ensures Ends(t, n, items) && !AllExited(t)
  {
    var s := AllStranded(n, items);
    ReachableInv(s);
    var schedule := RunsToEnd(s);
    t := After(s, schedule);
    ReachableRun(s, schedule);
    OutcomeOfInv(t);
    var c := CountWitness(t.consumers, AtWait);
    assert t.consumers[c].pc != CExited;
  }

  // ---------------------------------------------------------------- a read outside the array

  lemma {:induction false} AllPosted(s: State) returns (t: State)
    requires Reachable(s) && s.ppc.PPostTokens? && s.ppc.posted <= MAX_NUM_CONSUMERS
    ensures Reachable(t) && t == s.(sem2 := s.sem2 + (MAX_NUM_CONSUMERS - s.ppc.posted), sem3 := s.sem3 + 1, ppc := PExited)
    decreases if s.ppc.PPostTokens? then MAX_NUM_CONSUMERS - s.ppc.posted else 0
  {
    var p := ProducerStep(0);
    ReachableStep(s, p);
    t := Next(s, p);
    if s.ppc.posted == MAX_NUM_CONSUMERS {
      ReachableStep(t, p);
      t := Next(t, p);
    } else {
      t := AllPosted(t);
    }
  }

  /** Consumer c is about to read outside the array. */
  predicate AboutToReadOutside(s: State, c: nat) {
    c < |s.consumers| && s.consumers[c].pc.CTakeRead? && !(0 <= s.outIndex < |s.work|)
  }

  /** All consumers wait, and all shutdown tokens are there. */
  lemma AllReady(n: nat, items: int) returns (s: State)
    requires n > 0
    ensures Reachable(s) && s.items == items && |s.consumers| == n && AllWaiting(s.consumers)
    ensures s.isFinished && !s.isFull && s.inIndex == 0 && s.sem2 >= MAX_NUM_CONSUMERS && s.sem3 == 1
  {
    s := AllStranded(n, items);
    ReachableInv(s);
    CountNone(s.consumers, InCritical);
    CountNone(s.consumers, HoldsToken);
    s := AllPosted(s);
    ReachableInv(s);
  }

  /** With an item, the first read after shutdown is outside. */
  lemma FirstReadOutside(n: nat, items: int) returns (t: State)
    requires n > 0 && items > 0
    ensures Reachable(t) && t.items == items && |t.consumers| == n && AboutToReadOutside(t, 0)
  {
    t := AllReady(n, items);
    t := GoesToRead(t, 0);
    ReachableInv(t);
    AccessesInside(t);
  }

  /** Without, the second is. */
  lemma SecondReadOutside(n: nat, items: int) returns (t: State)
    requires n > 1
    ensures Reachable(t) && t.items == items && |t.consumers| == n && AboutToReadOutside(t, 1)
  {
    t := AllReady(n, items);
    t := GoesToRead(t, 0);
    t := CountsOut(t, 0);
    t := Releases(t, 0);
    t := GoesToRead(t, 1);
    ReachableInv(t);
    SomethingConsumed(t, 1);
    AccessesInside(t);
  }

  /** A consumer that is back from reading after shutdown has consumed something. */
  lemma SomethingConsumed(s: State, c: nat)
    requires Inv(s) && s.isFinished && c < |s.consumers| && s.consumers[c].pc.CTakeRead? && s.inIndex < 0
    ensures ConsumedItems(s.history) != []
  {
  }

  /** A single consumer with nothing to consume reads the first slot, if it reads at all. */
  lemma LonelyReadInside(s: State)
    requires Reachable(s) && s.items <= 0 && |s.consumers| == 1
    ensures !AboutToReadOutside(s, 0)
  {
    ReachableInv(s);
    AccessesInside(s);
    if s.consumers[0].pc.CTakeRead? { CountAtLeast(s.consumers, 0, WillConsume); }
  }

  /** There are runs in which a consumer reads outside the array exactly when there is a consumer, and something to produce or
      a second consumer. */
  lemma ReadsOutsideIff(n: nat, items: int)
    ensures (exists s, c :: Reachable(s) && s.items == items && |s.consumers| == n && AboutToReadOutside(s, c)) <==>
              n > 0 && (items > 0 || n > 1)
  {
    if n > 0 && items > 0 {
      var s := FirstReadOutside(n, items);
      assert AboutToReadOutside(s, 0);
    } else if n > 1 {
      var s := SecondReadOutside(n, items);
      assert AboutToReadOutside(s, 1);
    } else {
      forall s, c | Reachable(s) && s.items == items && |s.consumers| == n ensures !AboutToReadOutside(s, c) {
        if n == 1 { LonelyReadInside(s); }
      }
    }
  }
}
