/**
 The producer/consumer programs of pe_3 as one transition system. One producer and any number of
 consumers share a 25-slot buffer and three semaphores; every semaphore operation and every
 access to the shared buffer is a step of its own, so a run is an arbitrary interleaving of them.
 */
module BoundedBuffer {
  import opened Bits

  const BUF_SIZE := 25
  const MAX_NUM_CONSUMERS := 100

  /** What the producer does next. */
  datatype ProducerPc =
    | PNextItem                     // test of the for loop; picks the next item
    | PLock                         // sem_wait(sem_3)
    | PTestFull                     // in == BUF_SIZE?
    | PSetFull                      // is_full = true
    | PUnlockFull                   // sem_post(sem_3)
    | PWaitConsumer                 // sem_wait(sem_1)
    | PRelock                       // sem_wait(sem_3)
    | PWrite                        // work[in] = item
    | PSetOut                       // out = in
    | PIncIn                        // in++
    | PSignal                       // sem_post(sem_2)
    | PUnlock                       // sem_post(sem_3), next iteration
    | PPollLock                     // sem_wait(sem_3)
    | PPollTest                     // in == 0?
    | PPollUnlock                   // sem_post(sem_3), poll again
    | PFinish                       // is_finished = true
    | PPostTokens(posted: nat)      // sem_post(sem_2), MAX_NUM_CONSUMERS times
    | PLastUnlock                   // sem_post(sem_3)
    | PExited

  /** What a consumer does next. */
  datatype ConsumerPc =
    | CCheckLock                    // sem_wait(sem_3)
    | CCheckRead                    // finished = is_finished
    | CCheckUnlock(finished: bool)  // sem_post(sem_3), leave the loop when finished
    | CWaitProducer                 // sem_wait(sem_2)
    | CTakeLock                     // sem_wait(sem_3)
    | CTakeRead                     // consumed_value = work[out]
    | CDecOut(value: int)           // out--
    | CDecIn(value: int)            // in--, num_items_consumed++
    | CTestFull                     // is_full?
    | CClearFull                    // is_full = false
    | CSignal                       // sem_post(sem_1)
    | CTakeUnlock                   // sem_post(sem_3), next iteration
    | CExited

  datatype Consumer = Consumer(pc: ConsumerPc, consumed: nat)

  /** One completed operation on the buffer, in the order in which `in` was changed. */
  datatype Event = Produced(item: int) | Consumed(consumer: nat, value: int)

  /**
   The fields up to `sem3` are the programs' own variables. The remaining four are history: no step
   reads them. `history` lists the completed operations, `fullSets` and `fullPosts` count the
   settings of is_full and the posts of sem_1, and `finishedAt` and `stranded` record, when
   is_finished is set, the length of the history and the number of consumers that had read
   is_finished as false and had not yet taken a token.
   */
  datatype State = State(
    items: int, i: int, item: int, ppc: ProducerPc,
    consumers: seq<Consumer>,
    work: seq<int>, inIndex: int, outIndex: int, isFull: bool, isFinished: bool,
    sem1: nat, sem2: nat, sem3: nat,
    history: seq<Event>, fullSets: nat, fullPosts: nat, finishedAt: nat, stranded: nat)

  /** The state after initialize_sems and initialize_buffer, with every consumer at its first step. */
  ghost predicate Init(s: State) {
    && s.i == 0 && s.ppc == PNextItem
    && (forall c | 0 <= c < |s.consumers| :: s.consumers[c] == Consumer(CCheckLock, 0))
    && |s.work| == BUF_SIZE && s.inIndex == 0 && s.outIndex == 0 && !s.isFull && !s.isFinished
    && s.sem1 == 0 && s.sem2 == 0 && s.sem3 == 1
    && s.history == [] && s.fullSets == 0 && s.fullPosts == 0 && s.finishedAt == 0 && s.stranded == 0
  }

  /** A step of the producer (with the next random work item) or of one consumer (with the value it
      would get if it read outside the array). */
  datatype Action = ProducerStep(item: int) | ConsumerStep(consumer: nat, outside: int)

  /** sem_wait is the only operation that can block. */
  predicate ProducerEnabled(s: State) {
    match s.ppc
    case PLock => s.sem3 > 0
    case PRelock => s.sem3 > 0
    case PPollLock => s.sem3 > 0
    case PWaitConsumer => s.sem1 > 0
    case PExited => false
    case _ => true
  }

  predicate ConsumerEnabled(s: State, c: nat) {
    && c < |s.consumers|
    && match s.consumers[c].pc
       case CCheckLock => s.sem3 > 0
       case CTakeLock => s.sem3 > 0
       case CWaitProducer => s.sem2 > 0
       case CExited => false
       case _ => true
  }

  predicate Enabled(s: State, a: Action) {
    match a
    case ProducerStep(_) => ProducerEnabled(s)
    case ConsumerStep(c, _) => ConsumerEnabled(s, c)
  }

  function ProducerNext(s: State, item: int): State
    requires ProducerEnabled(s)
  {
    match s.ppc
    case PNextItem => if s.i < s.items then s.(item := item, ppc := PLock) else s.(ppc := PPollLock)
    case PLock => s.(sem3 := s.sem3 - 1, ppc := PTestFull)
    case PTestFull => s.(ppc := if s.inIndex == BUF_SIZE then PSetFull else PWrite)
    case PSetFull => s.(isFull := true, fullSets := s.fullSets + 1, ppc := PUnlockFull)
    case PUnlockFull => s.(sem3 := s.sem3 + 1, ppc := PWaitConsumer)
    case PWaitConsumer => s.(sem1 := s.sem1 - 1, ppc := PRelock)
    case PRelock => s.(sem3 := s.sem3 - 1, ppc := PWrite)
    case PWrite =>
      s.(work := if 0 <= s.inIndex < |s.work| then s.work[s.inIndex := s.item] else s.work, ppc := PSetOut)
    case PSetOut => s.(outIndex := s.inIndex, ppc := PIncIn)
    case PIncIn => s.(inIndex := s.inIndex + 1, history := s.history + [Produced(s.item)], ppc := PSignal)
    case PSignal => s.(sem2 := s.sem2 + 1, ppc := PUnlock)
    case PUnlock => s.(sem3 := s.sem3 + 1, i := s.i + 1, ppc := PNextItem)
    case PPollLock => s.(sem3 := s.sem3 - 1, ppc := PPollTest)
    case PPollTest => s.(ppc := if s.inIndex == 0 then PFinish else PPollUnlock)
    case PPollUnlock => s.(sem3 := s.sem3 + 1, ppc := PPollLock)
    case PFinish =>
      s.(isFinished := true, finishedAt := |s.history|, stranded := Count(s.consumers, ReadFalse),
         ppc := PPostTokens(0))
    case PPostTokens(n) =>
      if n < MAX_NUM_CONSUMERS then s.(sem2 := s.sem2 + 1, ppc := PPostTokens(n + 1))
      else s.(ppc := PLastUnlock)
    case PLastUnlock => s.(sem3 := s.sem3 + 1, ppc := PExited)
  }

  /** The consumers when c has moved on. */
  function Moved(s: State, c: nat, pc: ConsumerPc): seq<Consumer>
    requires c < |s.consumers|
  {
    s.consumers[c := s.consumers[c].(pc := pc)]
  }

  function ConsumerNext(s: State, c: nat, outside: int): State
    requires ConsumerEnabled(s, c)
  {
    match s.consumers[c].pc
    case CCheckLock => s.(consumers := Moved(s, c, CCheckRead), sem3 := s.sem3 - 1)
    case CCheckRead => s.(consumers := Moved(s, c, CCheckUnlock(s.isFinished)))
    case CCheckUnlock(finished) =>
      s.(consumers := Moved(s, c, if finished then CExited else CWaitProducer), sem3 := s.sem3 + 1)
    case CWaitProducer => s.(consumers := Moved(s, c, CTakeLock), sem2 := s.sem2 - 1)
    case CTakeLock => s.(consumers := Moved(s, c, CTakeRead), sem3 := s.sem3 - 1)
    case CTakeRead =>
      s.(consumers := Moved(s, c, CDecOut(if 0 <= s.outIndex < |s.work| then s.work[s.outIndex] else outside)))
    case CDecOut(v) => s.(consumers := Moved(s, c, CDecIn(v)), outIndex := s.outIndex - 1)
    case CDecIn(v) =>
      s.(consumers := s.consumers[c := Consumer(CTestFull, s.consumers[c].consumed + 1)],
         inIndex := s.inIndex - 1, history := s.history + [Consumed(c, v)])
    case CTestFull => s.(consumers := Moved(s, c, if s.isFull then CClearFull else CTakeUnlock))
    case CClearFull => s.(consumers := Moved(s, c, CSignal), isFull := false)
    case CSignal => s.(consumers := Moved(s, c, CTakeUnlock), sem1 := s.sem1 + 1, fullPosts := s.fullPosts + 1)
    case CTakeUnlock => s.(consumers := Moved(s, c, CCheckLock), sem3 := s.sem3 + 1)
  }

  function Next(s: State, a: Action): State
    requires Enabled(s, a)
  {
    match a
    case ProducerStep(item) => ProducerNext(s, item)
    case ConsumerStep(c, outside) => ConsumerNext(s, c, outside)
  }

  /** A schedule is any sequence of actions, each enabled when its turn comes. */
  predicate Runs(s: State, schedule: seq<Action>)
    decreases |schedule|
  {
    schedule == [] || (Enabled(s, schedule[0]) && Runs(Next(s, schedule[0]), schedule[1..]))
  }

  function After(s: State, schedule: seq<Action>): State
    requires Runs(s, schedule)
    decreases |schedule|
  {
    if schedule == [] then s else After(Next(s, schedule[0]), schedule[1..])
  }

  /** Every process has left its main loop. */
  predicate AllExited(s: State) {
    s.ppc == PExited && forall c | 0 <= c < |s.consumers| :: s.consumers[c].pc == CExited
  }

  // ---------------------------------------------------------------- counting consumers

  predicate InCritical(pc: ConsumerPc) {
    pc.CCheckRead? || pc.CCheckUnlock? || pc.CTakeRead? || pc.CDecOut? || pc.CDecIn? || pc.CTestFull?
    || pc.CClearFull? || pc.CSignal? || pc.CTakeUnlock?
  }

  /** Has taken a token of sem_2 and not yet decremented `in`. */
  predicate HoldsToken(pc: ConsumerPc) {
    pc.CTakeLock? || pc.CTakeRead? || pc.CDecOut? || pc.CDecIn?
  }

  predicate AtWait(pc: ConsumerPc) { pc.CWaitProducer? }

  /** Has read is_finished as false and not yet taken a token. */
  predicate ReadFalse(pc: ConsumerPc) { pc == CCheckUnlock(false) || pc.CWaitProducer? }

  predicate AtSignal(pc: ConsumerPc) { pc.CSignal? }

  predicate AtDecIn(pc: ConsumerPc) { pc.CDecIn? }

  /** Has consumed and may still find is_full set. */
  predicate ChecksFull(pc: ConsumerPc) { pc.CTestFull? || pc.CClearFull? }

  /** Has read is_finished as false and not yet consumed in this iteration. */
  predicate WillConsume(pc: ConsumerPc) {
    ReadFalse(pc) || HoldsToken(pc)
  }

  function Count(cs: seq<Consumer>, p: ConsumerPc -> bool): nat {
    if cs == [] then 0 else Bit(p(cs[0].pc)) + Count(cs[1..], p)
  }

  function TotalConsumed(cs: seq<Consumer>): nat {
    if cs == [] then 0 else cs[0].consumed + TotalConsumed(cs[1..])
  }

  lemma {:induction false} CountUpdate(cs: seq<Consumer>, c: nat, x: Consumer, p: ConsumerPc -> bool)
    requires c < |cs|
    ensures Count(cs[c := x], p) == Count(cs, p) - Bit(p(cs[c].pc)) + Bit(p(x.pc))
  {
    if c == 0 {
      assert cs[0 := x][1..] == cs[1..];
    } else {
      assert cs[c := x][1..] == cs[1..][c - 1 := x];
      CountUpdate(cs[1..], c - 1, x, p);
    }
  }

  lemma {:induction false} TotalUpdate(cs: seq<Consumer>, c: nat, x: Consumer)
    requires c < |cs|
    ensures TotalConsumed(cs[c := x]) == TotalConsumed(cs) - cs[c].consumed + x.consumed
  {
    if c == 0 {
      assert cs[0 := x][1..] == cs[1..];
    } else {
      assert cs[c := x][1..] == cs[1..][c - 1 := x];
      TotalUpdate(cs[1..], c - 1, x);
    }
  }

  lemma {:induction false} CountAtLeast(cs: seq<Consumer>, c: nat, p: ConsumerPc -> bool)
    requires c < |cs| && p(cs[c].pc)
    ensures Count(cs, p) >= 1
  {
    if c == 0 {
    } else {
      CountAtLeast(cs[1..], c - 1, p);
    }
  }

  lemma {:induction false} CountTwo(cs: seq<Consumer>, c: nat, d: nat, p: ConsumerPc -> bool)
    requires c < d < |cs| && p(cs[c].pc) && p(cs[d].pc)
    ensures Count(cs, p) >= 2
  {
    if c == 0 { CountAtLeast(cs[1..], d - 1, p); } else { CountTwo(cs[1..], c - 1, d - 1, p); }
  }

  lemma {:induction false} CountWitness(cs: seq<Consumer>, p: ConsumerPc -> bool) returns (c: nat)
    requires Count(cs, p) >= 1
    ensures c < |cs| && p(cs[c].pc)
  {
    if p(cs[0].pc) {
      c := 0;
    } else {
      c := CountWitness(cs[1..], p);
      c := c + 1;
    }
  }

  lemma {:induction false} CountNone(cs: seq<Consumer>, p: ConsumerPc -> bool)
    requires forall c | 0 <= c < |cs| :: !p(cs[c].pc)
    ensures Count(cs, p) == 0
  {
    if cs == [] {
    } else {
      forall c | 0 <= c < |cs[1..]| ensures !p(cs[1..][c].pc) { assert cs[1..][c] == cs[c + 1]; }
      CountNone(cs[1..], p);
    }
  }

  lemma {:induction false} CountBound(cs: seq<Consumer>, p: ConsumerPc -> bool)
    ensures Count(cs, p) <= |cs|
  {
    if cs == [] {
    } else {
      CountBound(cs[1..], p);
    }
  }

  lemma {:induction false} CountMono(cs: seq<Consumer>, p: ConsumerPc -> bool, q: ConsumerPc -> bool)
    requires forall c | 0 <= c < |cs| :: p(cs[c].pc) ==> q(cs[c].pc)
    ensures Count(cs, p) <= Count(cs, q)
  {
    if cs == [] {
    } else {
      forall c | 0 <= c < |cs[1..]| ensures p(cs[1..][c].pc) ==> q(cs[1..][c].pc) { assert cs[1..][c] == cs[c + 1]; }
      CountMono(cs[1..], p, q);
    }
  }

  lemma {:induction false} CountAll(cs: seq<Consumer>, p: ConsumerPc -> bool)
    requires forall c | 0 <= c < |cs| :: p(cs[c].pc)
    ensures Count(cs, p) == |cs|
  {
    if cs == [] {
    } else {
      forall c | 0 <= c < |cs[1..]| ensures p(cs[1..][c].pc) { assert cs[1..][c] == cs[c + 1]; }
      CountAll(cs[1..], p);
    }
  }

  // ---------------------------------------------------------------- what a history means

  /** The sequential specification of the buffer: a stack. None when some operation took a value that
      was not on top at that moment. */
  datatype Stack = Stuck | Stack(values: seq<int>)

  function Replay(history: seq<Event>): Stack {
    if history == [] then Stack([]) else
      match (Replay(history[..|history| - 1]), history[|history| - 1])
      case (Stuck, _) => Stuck
      case (Stack(vs), Produced(v)) => Stack(vs + [v])
      case (Stack(vs), Consumed(_, v)) => if vs != [] && vs[|vs| - 1] == v then Stack(vs[..|vs| - 1]) else Stuck
  }

  function ProducedItems(history: seq<Event>): seq<int> {
    if history == [] then [] else
      ProducedItems(history[..|history| - 1]) +
      match history[|history| - 1] case Produced(v) => [v] case Consumed(_, _) => []
  }

  function ConsumedItems(history: seq<Event>): seq<int> {
    if history == [] then [] else
      ConsumedItems(history[..|history| - 1]) +
      match history[|history| - 1] case Produced(_) => [] case Consumed(_, v) => [v]
  }

  /** A stack loses nothing and repeats nothing. */
  lemma {:induction false} StackConserves(history: seq<Event>)
    requires Replay(history).Stack?
    ensures multiset(ProducedItems(history)) == multiset(ConsumedItems(history)) + multiset(Replay(history).values)
  {
    if history == [] {
    } else {
      var before, last := history[..|history| - 1], history[|history| - 1];
      StackConserves(before);
      OneMoreEvent(Replay(before).values, last);
    }
  }

  /** What one operation does to the stack. */
  lemma OneMoreEvent(vs: seq<int>, e: Event)
    ensures e.Produced? ==> multiset(vs + [e.item]) == multiset(vs) + multiset{e.item}
    ensures e.Consumed? && vs != [] && vs[|vs| - 1] == e.value ==>
              multiset(vs) == multiset(vs[..|vs| - 1]) + multiset{e.value}
  {
    if vs != [] { assert vs == vs[..|vs| - 1] + [vs[|vs| - 1]]; }
  }
}
