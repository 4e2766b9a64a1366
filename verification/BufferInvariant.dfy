/**
 The inductive invariant of the producer/consumer system, and what it says of every reachable state.
 */
module BufferInvariant {
  import opened Bits
  import opened BoundedBuffer

  predicate ProducerInCritical(pc: ProducerPc) {
    pc.PTestFull? || pc.PSetFull? || pc.PUnlockFull? || pc.PWrite? || pc.PSetOut? || pc.PIncIn? || pc.PSignal?
    || pc.PUnlock? || pc.PPollTest? || pc.PPollUnlock? || pc.PFinish? || pc.PPostTokens? || pc.PLastUnlock?
  }

  predicate Draining(pc: ProducerPc) {
    pc.PPollLock? || pc.PPollTest? || pc.PPollUnlock? || pc.PFinish?
  }

  predicate Finished(pc: ProducerPc) {
    pc.PPostTokens? || pc.PLastUnlock? || pc.PExited?
  }

  /** Shutdown tokens posted so far. */
  function Posted(pc: ProducerPc): (n: nat) {
    match pc
    case PPostTokens(n) => n
    case PLastUnlock => MAX_NUM_CONSUMERS
    case PExited => MAX_NUM_CONSUMERS
    case _ => 0
  }

  function ItemsToMake(s: State): (n: nat) { if s.items > 0 then s.items else 0 }

  /** sem_3 is a mutex. */
  predicate Mutex(s: State) {
    s.sem3 + Bit(ProducerInCritical(s.ppc)) + Count(s.consumers, InCritical) == 1
  }

  /** Every token of sem_2 stands for an item in the buffer or for a shutdown post. */
  predicate Tokens(s: State) {
    s.sem2 + Count(s.consumers, HoldsToken) + Bit(s.ppc.PSignal?) == s.inIndex + Posted(s.ppc)
  }

  /** Exactly one party at a time owes the other something in the full-buffer handshake. */
  predicate Handshake(s: State) {
    && Bit(s.isFull) + Count(s.consumers, AtSignal) + s.sem1 == Bit(s.ppc.PUnlockFull? || s.ppc.PWaitConsumer?)
    && s.fullSets == s.fullPosts + Bit(s.isFull) + Count(s.consumers, AtSignal)
  }

  predicate Bounds(s: State) {
    && |s.work| == BUF_SIZE
    && s.inIndex <= BUF_SIZE
    && (s.ppc.PRelock? || s.ppc.PWrite? || s.ppc.PSetOut? || s.ppc.PIncIn? ==> s.inIndex < BUF_SIZE)
    && ((s.ppc.PUnlockFull? || s.ppc.PWaitConsumer?) && !s.isFull ==> s.inIndex < BUF_SIZE)
    && (forall c | 0 <= c < |s.consumers| ::
          s.consumers[c].pc.CTestFull? || s.consumers[c].pc.CClearFull? ==> s.inIndex < BUF_SIZE)
    && (forall c | 0 <= c < |s.consumers| :: s.consumers[c].pc.CClearFull? ==> s.isFull)
  }

  /** While is_full is set the buffer is full, but for the consumer that is about to clear the flag. */
  predicate Fullness(s: State) {
    && (s.ppc.PSetFull? ==> s.inIndex == BUF_SIZE)
    && (s.isFull ==> s.inIndex + Count(s.consumers, ChecksFull) == BUF_SIZE)
  }

  /** Nobody leaves before is_finished is set. */
  predicate NoEarlyExit(s: State) {
    !s.isFinished ==>
      forall c | 0 <= c < |s.consumers| :: !s.consumers[c].pc.CExited? && s.consumers[c].pc != CCheckUnlock(true)
  }

  predicate Progress(s: State) {
    && 0 <= s.i <= ItemsToMake(s)
    && (Draining(s.ppc) || Finished(s.ppc) ==> s.i == ItemsToMake(s))
    && (!Draining(s.ppc) && !Finished(s.ppc) && !s.ppc.PNextItem? ==> s.i < s.items)
    && |ProducedItems(s.history)| == s.i + Bit(s.ppc.PSignal? || s.ppc.PUnlock?)
    && (s.ppc.PFinish? ==> s.inIndex == 0)
    && (s.ppc.PPollUnlock? ==> s.inIndex != 0)
    && (s.ppc.PPostTokens? ==> s.ppc.posted <= MAX_NUM_CONSUMERS)
    && s.isFinished == Finished(s.ppc)
  }

  predicate Accounts(s: State) {
    && |ProducedItems(s.history)| == s.inIndex + |ConsumedItems(s.history)|
    && TotalConsumed(s.consumers) == |ConsumedItems(s.history)|
  }

  /** `out` trails `in` by one as soon as something has been produced. */
  predicate Trails(s: State) {
    var lag := Bit(|ProducedItems(s.history)| > 0);
    s.outIndex == s.inIndex - lag + (if s.ppc.PIncIn? then lag else 0) - Count(s.consumers, AtDecIn)
  }

  /** Before shutdown the slots below `in` are the stack that the history describes. */
  predicate Refines(s: State)
    requires Bounds(s)
  {
    && (!s.isFinished ==> 0 <= s.inIndex && Replay(s.history) == Stack(s.work[..s.inIndex]))
    && (s.ppc.PSetOut? || s.ppc.PIncIn? ==> 0 <= s.inIndex && s.work[s.inIndex] == s.item)
    && (!s.isFinished ==> forall c | 0 <= c < |s.consumers| ::
          (s.consumers[c].pc.CDecOut? || s.consumers[c].pc.CDecIn?) ==>
            0 < s.inIndex && s.work[s.inIndex - 1] == s.consumers[c].pc.value)
  }

  /** After shutdown only the consumers that had read is_finished as false are still consuming. */
  predicate Shutdown(s: State) {
    s.isFinished ==>
      && s.finishedAt <= |s.history|
      && Replay(s.history[..s.finishedAt]) == Stack([])
      && |ProducedItems(s.history[..s.finishedAt])| == ItemsToMake(s)
      && |ConsumedItems(s.history[..s.finishedAt])| == ItemsToMake(s)
      && s.inIndex <= 0
      && |s.history| == s.finishedAt - s.inIndex
      && Count(s.consumers, WillConsume) == s.stranded + s.inIndex
      && s.stranded <= |s.consumers|
  }

  predicate Inv(s: State) {
    && Mutex(s) && Tokens(s) && Handshake(s) && Bounds(s) && Progress(s) && Accounts(s) && Trails(s)
    && Refines(s) && Shutdown(s) && Fullness(s) && NoEarlyExit(s)
  }

  // ---------------------------------------------------------------- mutual exclusion

  lemma NoConsumerInCritical(s: State)
    requires Mutex(s) && (ProducerInCritical(s.ppc) || s.sem3 > 0)
    ensures forall c | 0 <= c < |s.consumers| :: !InCritical(s.consumers[c].pc)
  {
    forall c | 0 <= c < |s.consumers| ensures !InCritical(s.consumers[c].pc) {
      if InCritical(s.consumers[c].pc) { CountAtLeast(s.consumers, c, InCritical); }
    }
  }

  lemma OnlyConsumerInCritical(s: State, c: nat)
    requires Mutex(s) && c < |s.consumers| && InCritical(s.consumers[c].pc)
    ensures s.sem3 == 0 && !ProducerInCritical(s.ppc)
    ensures forall d | 0 <= d < |s.consumers| && d != c :: !InCritical(s.consumers[d].pc)
  {
    CountAtLeast(s.consumers, c, InCritical);
    forall d | 0 <= d < |s.consumers| && d != c ensures !InCritical(s.consumers[d].pc) {
      if InCritical(s.consumers[d].pc) {
        if c < d { CountTwo(s.consumers, c, d, InCritical); } else { CountTwo(s.consumers, d, c, InCritical); }
      }
    }
  }

  // ---------------------------------------------------------------- the invariant holds initially

  lemma InitInv(s: State)
    requires Init(s)
    ensures Inv(s)
  {
    CountNone(s.consumers, InCritical);
    CountNone(s.consumers, HoldsToken);
    CountNone(s.consumers, AtSignal);
    CountNone(s.consumers, AtDecIn);
    CountNone(s.consumers, ChecksFull);
    NothingConsumed(s.consumers);
  }

  lemma {:induction false} NothingConsumed(cs: seq<Consumer>)
    requires forall c | 0 <= c < |cs| :: cs[c].consumed == 0
    ensures TotalConsumed(cs) == 0
  {
    if cs == [] {
    } else {
      forall c | 0 <= c < |cs[1..]| ensures cs[1..][c].consumed == 0 { assert cs[1..][c] == cs[c + 1]; }
      NothingConsumed(cs[1..]);
    }
  }

  // ---------------------------------------------------------------- every step keeps it

  lemma ProducerKeepsMutex(s: State, item: int)
    requires Mutex(s) && ProducerEnabled(s)
    ensures Mutex(ProducerNext(s, item))
  {
  }

  lemma ProducerKeepsTokens(s: State, item: int)
    requires Tokens(s) && Progress(s) && ProducerEnabled(s)
    ensures Tokens(ProducerNext(s, item))
  {
  }

  lemma ProducerKeepsHandshake(s: State, item: int)
    requires Handshake(s) && ProducerEnabled(s)
    ensures Handshake(ProducerNext(s, item))
  {
  }

  lemma ProducerKeepsBounds(s: State, item: int)
    requires Inv(s) && ProducerEnabled(s)
    ensures Bounds(ProducerNext(s, item))
  {
    if ProducerInCritical(s.ppc) || s.sem3 > 0 { NoConsumerInCritical(s); }
  }

  lemma ProducerKeepsProgress(s: State, item: int)
    requires Progress(s) && ProducerEnabled(s)
    ensures Progress(ProducerNext(s, item))
  {
    if s.ppc.PIncIn? { PushKeepsProgress(s, item); } else { QuietKeepsProgress(s, item); }
  }

  lemma PushKeepsProgress(s: State, item: int)
    requires Progress(s) && s.ppc.PIncIn?
    ensures Progress(ProducerNext(s, item))
  {
    ItemsAfter(s.history, Produced(s.item));
  }

  lemma QuietKeepsProgress(s: State, item: int)
    requires Progress(s) && ProducerEnabled(s) && !s.ppc.PIncIn?
    ensures Progress(ProducerNext(s, item))
  {
    assert ProducerNext(s, item).history == s.history;
  }

  lemma ProducerKeepsAccounts(s: State, item: int)
    requires Accounts(s) && ProducerEnabled(s)
    ensures Accounts(ProducerNext(s, item))
  {
    ItemsAfter(s.history, Produced(s.item));
  }

  lemma ItemsAfter(history: seq<Event>, e: Event)
    ensures ProducedItems(history + [e]) == ProducedItems(history) + (if e.Produced? then [e.item] else [])
    ensures ConsumedItems(history + [e]) == ConsumedItems(history) + (if e.Consumed? then [e.value] else [])
  {
    assert (history + [e])[..|history|] == history;
  }

  lemma ProducerKeepsTrails(s: State, item: int)
    requires Inv(s) && ProducerEnabled(s)
    ensures Trails(ProducerNext(s, item))
  {
    assert (s.history + [Produced(s.item)])[..|s.history|] == s.history;
    if ProducerInCritical(s.ppc) { NoAtDecIn(s); }
  }

  lemma NoAtDecIn(s: State)
    requires Mutex(s) && ProducerInCritical(s.ppc)
    ensures Count(s.consumers, AtDecIn) == 0
  {
    NoConsumerInCritical(s);
    CountNone(s.consumers, AtDecIn);
  }

  lemma ProducerKeepsRefines(s: State, item: int)
    requires Bounds(s) && Refines(s) && Progress(s) && ProducerEnabled(s) && Bounds(ProducerNext(s, item))
    requires s.ppc.PWrite? ==> 0 <= s.inIndex
    requires s.ppc.PWrite? || s.ppc.PIncIn? ==>
               forall c | 0 <= c < |s.consumers| :: !InCritical(s.consumers[c].pc)
    ensures Refines(ProducerNext(s, item))
  {
    if s.ppc.PWrite? {
      WriteKeepsRefines(s, item);
    } else if s.ppc.PIncIn? {
      PushKeepsRefines(s, item);
    } else {
      RefinesFrame(s, ProducerNext(s, item));
    }
  }

  /** Refines speaks of these fields only. */
  lemma RefinesFrame(s: State, t: State)
    requires Bounds(s) && Bounds(t) && Refines(s)
    requires t.history == s.history && t.work == s.work && t.inIndex == s.inIndex && t.consumers == s.consumers
    requires s.isFinished ==> t.isFinished
    requires t.ppc.PSetOut? || t.ppc.PIncIn? ==> (s.ppc.PSetOut? || s.ppc.PIncIn?) && t.item == s.item
    ensures Refines(t)
  {
  }

  lemma WriteKeepsRefines(s: State, item: int)
    requires Bounds(s) && Refines(s) && Progress(s) && s.ppc.PWrite? && 0 <= s.inIndex
    requires forall c | 0 <= c < |s.consumers| :: !InCritical(s.consumers[c].pc)
    ensures var t := ProducerNext(s, item); Bounds(t) && Refines(t)
  {
    assert ProducerNext(s, item).work[..s.inIndex] == s.work[..s.inIndex];
  }

  lemma PushKeepsRefines(s: State, item: int)
    requires Bounds(s) && Refines(s) && Progress(s) && s.ppc.PIncIn?
    requires forall c | 0 <= c < |s.consumers| :: !InCritical(s.consumers[c].pc)
    ensures var t := ProducerNext(s, item); Bounds(t) && Refines(t)
  {
    assert (s.history + [Produced(s.item)])[..|s.history|] == s.history;
    assert s.work[..s.inIndex + 1] == s.work[..s.inIndex] + [s.item];
  }

  lemma ProducerKeepsShutdown(s: State, item: int)
    requires Inv(s) && ProducerEnabled(s)
    ensures Shutdown(ProducerNext(s, item))
  {
    if s.ppc.PFinish? { FinishBeginsShutdown(s, item); } else { LaterShutdown(s, ProducerNext(s, item)); }
  }

  lemma LaterShutdown(s: State, t: State)
    requires Shutdown(s) && t.isFinished == s.isFinished && t.consumers == s.consumers && t.items == s.items
    requires s.isFinished ==>
               t.history == s.history && t.finishedAt == s.finishedAt && t.inIndex == s.inIndex && t.stranded == s.stranded
    ensures Shutdown(t)
  {
  }

  lemma FinishBeginsShutdown(s: State, item: int)
    requires Inv(s) && s.ppc.PFinish?
    ensures Shutdown(ProducerNext(s, item))
  {
    assert s.history[..|s.history|] == s.history;
    CountBound(s.consumers, ReadFalse);
    forall c | 0 <= c < |s.consumers| ensures WillConsume(s.consumers[c].pc) == ReadFalse(s.consumers[c].pc) {
      if HoldsToken(s.consumers[c].pc) { CountAtLeast(s.consumers, c, HoldsToken); }
    }
    CountMono(s.consumers, WillConsume, ReadFalse);
    CountMono(s.consumers, ReadFalse, WillConsume);
  }

  lemma ProducerKeepsFullness(s: State, item: int)
    requires Mutex(s) && Handshake(s) && Fullness(s) && ProducerEnabled(s)
    ensures Fullness(ProducerNext(s, item))
  {
    if s.ppc.PSetFull? {
      NoConsumerInCritical(s);
      CountNone(s.consumers, ChecksFull);
    }
  }

  lemma ProducerKeepsNoEarlyExit(s: State, item: int)
    requires NoEarlyExit(s) && ProducerEnabled(s)
    ensures NoEarlyExit(ProducerNext(s, item))
  {
  }

  lemma ProducerKeeps(s: State, item: int)
    requires Inv(s) && ProducerEnabled(s)
    ensures Inv(ProducerNext(s, item))
  {
    ProducerKeepsMutex(s, item);
    ProducerKeepsTokens(s, item);
    ProducerKeepsHandshake(s, item);
    ProducerKeepsProgress(s, item);
    ProducerKeepsAccounts(s, item);
    ProducerKeepsTrails(s, item);
    ProducerKeepsBounds(s, item);
    if ProducerInCritical(s.ppc) { NoConsumerInCritical(s); }
    ProducerKeepsRefines(s, item);
    ProducerKeepsShutdown(s, item);
    ProducerKeepsFullness(s, item);
    ProducerKeepsNoEarlyExit(s, item);
  }

  lemma ConsumerKeepsMutex(s: State, c: nat, outside: int)
    requires Mutex(s) && ConsumerEnabled(s, c)
    ensures Mutex(ConsumerNext(s, c, outside))
  {
    var t := ConsumerNext(s, c, outside);
    MutexFrame(s, t, c, t.consumers[c]);
  }

  lemma MutexFrame(s: State, t: State, c: nat, x: Consumer)
    requires Mutex(s) && c < |s.consumers| && t.consumers == s.consumers[c := x] && t.ppc == s.ppc
    requires t.sem3 + Bit(InCritical(x.pc)) == s.sem3 + Bit(InCritical(s.consumers[c].pc))
    ensures Mutex(t)
  {
    CountUpdate(s.consumers, c, x, InCritical);
  }

  lemma ConsumerKeepsTokens(s: State, c: nat, outside: int)
    requires Tokens(s) && ConsumerEnabled(s, c)
    ensures Tokens(ConsumerNext(s, c, outside))
  {
    var t := ConsumerNext(s, c, outside);
    TokensFrame(s, t, c, t.consumers[c]);
  }

  lemma TokensFrame(s: State, t: State, c: nat, x: Consumer)
    requires Tokens(s) && c < |s.consumers| && t.consumers == s.consumers[c := x] && t.ppc == s.ppc
    requires t.sem2 + Bit(HoldsToken(x.pc)) - t.inIndex == s.sem2 + Bit(HoldsToken(s.consumers[c].pc)) - s.inIndex
    ensures Tokens(t)
  {
    CountUpdate(s.consumers, c, x, HoldsToken);
  }

  lemma ConsumerKeepsHandshake(s: State, c: nat, outside: int)
    requires Handshake(s) && Bounds(s) && ConsumerEnabled(s, c)
    ensures Handshake(ConsumerNext(s, c, outside))
  {
    var t := ConsumerNext(s, c, outside);
    HandshakeFrame(s, t, c, t.consumers[c]);
  }

  lemma HandshakeFrame(s: State, t: State, c: nat, x: Consumer)
    requires Handshake(s) && c < |s.consumers| && t.consumers == s.consumers[c := x] && t.ppc == s.ppc
    requires t.sem1 + Bit(t.isFull) + Bit(AtSignal(x.pc)) == s.sem1 + Bit(s.isFull) + Bit(AtSignal(s.consumers[c].pc))
    requires t.fullSets == s.fullSets
    requires t.fullPosts + Bit(t.isFull) + Bit(AtSignal(x.pc)) == s.fullPosts + Bit(s.isFull) + Bit(AtSignal(s.consumers[c].pc))
    ensures Handshake(t)
  {
    CountUpdate(s.consumers, c, x, AtSignal);
  }

  lemma ConsumerKeepsBounds(s: State, c: nat, outside: int)
    requires Inv(s) && ConsumerEnabled(s, c)
    ensures Bounds(ConsumerNext(s, c, outside))
  {
    if InCritical(s.consumers[c].pc) { OnlyConsumerInCritical(s, c); }
    if s.consumers[c].pc.CClearFull? { HeldWhileFull(s); }
  }

  /** is_full can only be set while the producer is on its way to, or in, its wait. */
  lemma HeldWhileFull(s: State)
    requires Handshake(s) && s.isFull
    ensures s.ppc.PUnlockFull? || s.ppc.PWaitConsumer?
  {
  }

  lemma ConsumerKeepsProgress(s: State, c: nat, outside: int)
    requires Mutex(s) && Progress(s) && ConsumerEnabled(s, c)
    ensures Progress(ConsumerNext(s, c, outside))
  {
    if s.consumers[c].pc.CDecIn? {
      ItemsAfter(s.history, Consumed(c, s.consumers[c].pc.value));
      OnlyConsumerInCritical(s, c);
    }
  }

  lemma ConsumerKeepsAccounts(s: State, c: nat, outside: int)
    requires Accounts(s) && ConsumerEnabled(s, c)
    ensures Accounts(ConsumerNext(s, c, outside))
  {
    TotalUpdate(s.consumers, c, ConsumerNext(s, c, outside).consumers[c]);
    if s.consumers[c].pc.CDecIn? { ItemsAfter(s.history, Consumed(c, s.consumers[c].pc.value)); }
  }

  lemma ConsumerKeepsTrails(s: State, c: nat, outside: int)
    requires Trails(s) && ConsumerEnabled(s, c)
    ensures Trails(ConsumerNext(s, c, outside))
  {
    var t := ConsumerNext(s, c, outside);
    if s.consumers[c].pc.CDecIn? { ItemsAfter(s.history, Consumed(c, s.consumers[c].pc.value)); }
    TrailsFrame(s, t, c, t.consumers[c]);
  }

  lemma TrailsFrame(s: State, t: State, c: nat, x: Consumer)
    requires Trails(s) && c < |s.consumers| && t.consumers == s.consumers[c := x] && t.ppc == s.ppc
    requires |ProducedItems(t.history)| == |ProducedItems(s.history)|
    requires t.outIndex - t.inIndex == s.outIndex - s.inIndex + Bit(AtDecIn(s.consumers[c].pc)) - Bit(AtDecIn(x.pc))
    ensures Trails(t)
  {
    CountUpdate(s.consumers, c, x, AtDecIn);
  }

  lemma ConsumerKeepsRefines(s: State, c: nat, outside: int)
    requires Bounds(s) && Refines(s) && ConsumerEnabled(s, c) && Bounds(ConsumerNext(s, c, outside))
    requires s.consumers[c].pc.CTakeRead? && !s.isFinished ==>
               0 < s.inIndex <= BUF_SIZE && s.outIndex == s.inIndex - 1
    requires s.consumers[c].pc.CDecIn? ==> !ProducerInCritical(s.ppc)
    requires s.consumers[c].pc.CDecIn? ==>
               forall d | 0 <= d < |s.consumers| && d != c :: !InCritical(s.consumers[d].pc)
    ensures Refines(ConsumerNext(s, c, outside))
  {
    if s.consumers[c].pc.CDecIn? {
      PopKeepsRefines(s, c, outside);
    } else {
      var t := ConsumerNext(s, c, outside);
      MovedRefines(s, t, c, t.consumers[c]);
    }
  }

  /** One consumer moves on, and holds the newest item if it holds any. */
  lemma MovedRefines(s: State, t: State, c: nat, x: Consumer)
    requires Bounds(s) && Bounds(t) && Refines(s) && c < |s.consumers| && t.consumers == s.consumers[c := x]
    requires t.history == s.history && t.work == s.work && t.inIndex == s.inIndex && t.isFinished == s.isFinished
    requires t.ppc == s.ppc && t.item == s.item
    requires !s.isFinished && (x.pc.CDecOut? || x.pc.CDecIn?) ==> 0 < s.inIndex && s.work[s.inIndex - 1] == x.pc.value
    ensures Refines(t)
  {
    assert forall d | 0 <= d < |s.consumers| && d != c :: t.consumers[d] == s.consumers[d];
  }

  lemma PopKeepsRefines(s: State, c: nat, outside: int)
    requires Bounds(s) && Refines(s) && c < |s.consumers| && s.consumers[c].pc.CDecIn? && !ProducerInCritical(s.ppc)
    requires forall d | 0 <= d < |s.consumers| && d != c :: !InCritical(s.consumers[d].pc)
    requires Bounds(ConsumerNext(s, c, outside))
    ensures Refines(ConsumerNext(s, c, outside))
  {
    if !s.isFinished {
      var t := ConsumerNext(s, c, outside);
      assert t.history[..|s.history|] == s.history;
      assert s.work[..s.inIndex][..s.inIndex - 1] == t.work[..t.inIndex];
    }
  }

  /** Before shutdown a consumer about to read finds the newest item at `out`. */
  lemma ReadsTop(s: State, c: nat)
    requires Mutex(s) && Tokens(s) && Bounds(s) && Accounts(s) && Trails(s) && Progress(s)
    requires c < |s.consumers| && s.consumers[c].pc.CTakeRead? && !s.isFinished
    ensures 0 < s.inIndex <= BUF_SIZE && s.outIndex == s.inIndex - 1
  {
    CountAtLeast(s.consumers, c, HoldsToken);
    OnlyConsumerInCritical(s, c);
    CountNone(s.consumers, AtDecIn);
  }

  lemma ConsumerKeepsShutdown(s: State, c: nat, outside: int)
    requires Shutdown(s) && ConsumerEnabled(s, c)
    ensures Shutdown(ConsumerNext(s, c, outside))
  {
    var t := ConsumerNext(s, c, outside);
    if s.isFinished { ShutdownFrame(s, t, c, t.consumers[c]); }
  }

  lemma ShutdownFrame(s: State, t: State, c: nat, x: Consumer)
    requires Shutdown(s) && s.isFinished && c < |s.consumers|
    requires t.isFinished && t.items == s.items && t.finishedAt == s.finishedAt && t.stranded == s.stranded
    requires t.consumers == s.consumers[c := x]
    requires |t.history| == |s.history| + s.inIndex - t.inIndex && s.history <= t.history
    requires t.inIndex == s.inIndex - Bit(WillConsume(s.consumers[c].pc)) + Bit(WillConsume(x.pc))
    ensures Shutdown(t)
  {
    CountUpdate(s.consumers, c, x, WillConsume);
    assert t.history[..t.finishedAt] == s.history[..s.finishedAt];
  }

  lemma ConsumerKeepsFullness(s: State, c: nat, outside: int)
    requires Bounds(s) && Fullness(s) && ConsumerEnabled(s, c)
    requires s.consumers[c].pc.CDecIn? ==> !ProducerInCritical(s.ppc)
    ensures Fullness(ConsumerNext(s, c, outside))
  {
    CountUpdate(s.consumers, c, ConsumerNext(s, c, outside).consumers[c], ChecksFull);
  }

  lemma ConsumerKeepsNoEarlyExit(s: State, c: nat, outside: int)
    requires NoEarlyExit(s) && ConsumerEnabled(s, c)
    ensures NoEarlyExit(ConsumerNext(s, c, outside))
  {
  }

  lemma ConsumerKeeps(s: State, c: nat, outside: int)
    requires Inv(s) && ConsumerEnabled(s, c)
    ensures Inv(ConsumerNext(s, c, outside))
  {
    ConsumerKeepsMutex(s, c, outside);
    ConsumerKeepsTokens(s, c, outside);
    ConsumerKeepsHandshake(s, c, outside);
    ConsumerKeepsProgress(s, c, outside);
    ConsumerKeepsAccounts(s, c, outside);
    ConsumerKeepsTrails(s, c, outside);
    ConsumerKeepsBounds(s, c, outside);
    if InCritical(s.consumers[c].pc) { OnlyConsumerInCritical(s, c); }
    if s.consumers[c].pc.CTakeRead? && !s.isFinished { ReadsTop(s, c); }
    ConsumerKeepsRefines(s, c, outside);
    ConsumerKeepsShutdown(s, c, outside);
    ConsumerKeepsFullness(s, c, outside);
    ConsumerKeepsNoEarlyExit(s, c, outside);
  }

  /** Every state of every run satisfies the invariant. */
  lemma {:induction false} RunKeeps(s: State, schedule: seq<Action>)
    requires Inv(s) && Runs(s, schedule)
    ensures Inv(After(s, schedule))
    decreases |schedule|
  {
    if schedule == [] {
    } else {
      match schedule[0]
      case ProducerStep(item) => ProducerKeeps(s, item); RunKeeps(Next(s, schedule[0]), schedule[1..]);
      case ConsumerStep(c, outside) => ConsumerKeeps(s, c, outside); RunKeeps(Next(s, schedule[0]), schedule[1..]);
    }
  }
}
