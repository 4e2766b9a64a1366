/**
 Termination and deadlock freedom of the producer/consumer system, and the exact effect of the
 shutdown: which consumers leave, how often they still consume, and what `in` ends up as.
 */
module BufferProgress {
  import opened Bits
  import opened BoundedBuffer
  import opened BufferInvariant
  import opened BufferSafety

  /** A failed poll: the producer looking at the buffer, outside its own production loop, while items are left. */
  predicate Poll(s: State, a: Action) {
    a.ProducerStep? && (s.ppc.PPollLock? || s.ppc.PPollTest? || s.ppc.PPollUnlock?) && s.inIndex != 0
  }

  /** A step that can be taken and is not a failed poll. */
  predicate Useful(s: State, a: Action) { Enabled(s, a) && !Poll(s, a) }

  // ---------------------------------------------------------------- the measure

  const TOKEN := 12
  const ITEM := 30
  const DRAIN := 1306

  function Rank(pc: ConsumerPc): (n: nat) {
    match pc
    case CTakeLock => 11
    case CTakeRead => 10
    case CDecOut(_) => 9
    case CDecIn(_) => 8
    case CTestFull => 7
    case CClearFull => 6
    case CSignal => 5
    case CTakeUnlock => 4
    case CCheckLock => 3
    case CCheckRead => 2
    case CCheckUnlock(_) => 1
    case CWaitProducer => 0
    case CExited => 0
  }

  function TotalRank(cs: seq<Consumer>): nat {
    if cs == [] then 0 else Rank(cs[0].pc) + TotalRank(cs[1..])
  }

  lemma {:induction false} RankUpdate(cs: seq<Consumer>, c: nat, x: Consumer)
    requires c < |cs|
    ensures TotalRank(cs[c := x]) == TotalRank(cs) - Rank(cs[c].pc) + Rank(x.pc)
  {
    if c == 0 {
      assert cs[0 := x][1..] == cs[1..];
    } else {
      assert cs[c := x][1..] == cs[1..][c - 1 := x];
      RankUpdate(cs[1..], c - 1, x);
    }
  }

  /** Steps the producer still needs within the current item or phase, with the tokens it will post. */
  function PhaseRank(pc: ProducerPc, drained: bool): (n: int) {
    match pc
    case PNextItem => DRAIN
    case PLock => DRAIN + 29 - ITEM
    case PTestFull => DRAIN + 28 - ITEM
    case PSetFull => DRAIN + 27 - ITEM
    case PUnlockFull => DRAIN + 26 - ITEM
    case PWaitConsumer => DRAIN + 25 - ITEM
    case PRelock => DRAIN + 24 - ITEM
    case PWrite => DRAIN + 23 - ITEM
    case PSetOut => DRAIN + 22 - ITEM
    case PIncIn => DRAIN + 21 - ITEM
    case PSignal => DRAIN + 20 - ITEM
    case PUnlock => DRAIN + 7 - ITEM
    case PPollLock => DRAIN - 1
    case PPollTest => if drained then DRAIN - 2 else DRAIN - 1
    case PPollUnlock => DRAIN - 1
    case PFinish => DRAIN - 3
    case PPostTokens(n) => (MAX_NUM_CONSUMERS - n) * (TOKEN + 1) + 2
    case PLastUnlock => 1
    case PExited => 0
  }

  function Measure(s: State): (n: int) {
    ITEM * (ItemsToMake(s) - s.i) + PhaseRank(s.ppc, s.inIndex == 0) + TOKEN * s.sem2 + TotalRank(s.consumers)
  }

  lemma MeasureBound(s: State)
    requires Inv(s)
    ensures Measure(s) >= 0
  {
  }

  lemma ProducingDecreases(s: State, item: int)
    requires Progress(s) && ProducerEnabled(s) && !Draining(s.ppc) && !Finished(s.ppc)
    ensures Measure(ProducerNext(s, item)) < Measure(s)
  {
  }

  lemma DrainingDecreases(s: State, item: int)
    requires Progress(s) && ProducerEnabled(s) && Draining(s.ppc)
    ensures Poll(s, ProducerStep(item)) ==> Measure(ProducerNext(s, item)) == Measure(s)
    ensures !Poll(s, ProducerStep(item)) ==> Measure(ProducerNext(s, item)) < Measure(s)
  {
  }

  lemma PostingDecreases(s: State, item: int)
    requires ProducerEnabled(s) && Finished(s.ppc) && (s.ppc.PPostTokens? ==> s.ppc.posted <= MAX_NUM_CONSUMERS)
    ensures Measure(ProducerNext(s, item)) < Measure(s)
  {
  }

  lemma ProducerDecreases(s: State, item: int)
    requires Progress(s) && ProducerEnabled(s)
    ensures Poll(s, ProducerStep(item)) ==> Measure(ProducerNext(s, item)) == Measure(s)
    ensures !Poll(s, ProducerStep(item)) ==> Measure(ProducerNext(s, item)) < Measure(s)
  {
    if Draining(s.ppc) {
      DrainingDecreases(s, item);
    } else if Finished(s.ppc) {
      PostingDecreases(s, item);
    } else {
      ProducingDecreases(s, item);
    }
  }

  lemma ConsumerDecreases(s: State, c: nat, outside: int)
    requires Mutex(s) && ConsumerEnabled(s, c)
    ensures Measure(ConsumerNext(s, c, outside)) < Measure(s)
  {
    var t := ConsumerNext(s, c, outside);
    if s.consumers[c].pc.CDecIn? { OnlyConsumerInCritical(s, c); }
    MeasureFrame(s, t, c, t.consumers[c]);
  }

  lemma MeasureFrame(s: State, t: State, c: nat, x: Consumer)
    requires c < |s.consumers| && t.consumers == s.consumers[c := x] && t.ppc == s.ppc && t.items == s.items && t.i == s.i
    requires t.inIndex == s.inIndex || !(s.ppc.PPollTest?)
    requires TOKEN * t.sem2 + Rank(x.pc) < TOKEN * s.sem2 + Rank(s.consumers[c].pc)
    ensures Measure(t) < Measure(s)
  {
    RankUpdate(s.consumers, c, x);
  }

  lemma StepDecreases(s: State, a: Action)
    requires Inv(s) && Enabled(s, a)
    ensures Inv(Next(s, a))
    ensures Poll(s, a) ==> Measure(Next(s, a)) == Measure(s)
    ensures !Poll(s, a) ==> Measure(Next(s, a)) < Measure(s)
  {
    match a
    case ProducerStep(item) => ProducerKeeps(s, item); ProducerDecreases(s, item);
    case ConsumerStep(c, outside) => ConsumerKeeps(s, c, outside); ConsumerDecreases(s, c, outside);
  }

  function UsefulSteps(s: State, schedule: seq<Action>): nat
    requires Runs(s, schedule)
    decreases |schedule|
  {
    if schedule == [] then 0
    else Bit(!Poll(s, schedule[0])) + UsefulSteps(Next(s, schedule[0]), schedule[1..])
  }

  lemma {:induction false} StepsAreBounded(s: State, schedule: seq<Action>)
    requires Inv(s) && Runs(s, schedule)
    ensures UsefulSteps(s, schedule) + Measure(After(s, schedule)) <= Measure(s)
    ensures Inv(After(s, schedule))
    decreases |schedule|
  {
    if schedule == [] {
    } else {
      StepDecreases(s, schedule[0]);
      StepsAreBounded(Next(s, schedule[0]), schedule[1..]);
    }
  }

  lemma {:induction false} StartRank(cs: seq<Consumer>)
    requires forall c | 0 <= c < |cs| :: cs[c] == Consumer(CCheckLock, 0)
    ensures TotalRank(cs) == 3 * |cs|
  {
    if cs == [] {
    } else {
      forall c | 0 <= c < |cs[1..]| ensures cs[1..][c] == Consumer(CCheckLock, 0) { assert cs[1..][c] == cs[c + 1]; }
      StartRank(cs[1..]);
    }
  }

  /** However long it goes on, a run of n items and N consumers contains at most 30n + 1306 + 3N steps that
      are not failed polls. */
  lemma RunsAreShort(s: State, schedule: seq<Action>)
    requires Init(s) && Runs(s, schedule)
    ensures UsefulSteps(s, schedule) <= 30 * (if s.items > 0 then s.items else 0) + 1306 + 3 * |s.consumers|
  {
    InitInv(s);
    StartRank(s.consumers);
    StepsAreBounded(s, schedule);
    MeasureBound(After(s, schedule));
  }

  // ---------------------------------------------------------------- what is left when nobody can move

  /** The producer is between two polls with the mutex in its hands. */
  predicate HoldsForPoll(s: State) {
    s.inIndex != 0 && (s.ppc.PPollTest? || s.ppc.PPollUnlock?)
  }

  ghost predicate Blocked(s: State) { forall a :: !Useful(s, a) }

  /** How many consumers never get out of wait_for_producer. */
  function LeftBehind(stranded: nat): (n: nat) {
    if stranded > 100 then stranded - 100 else 0
  }

  predicate WaitsOrExited(pc: ConsumerPc) { pc.CWaitProducer? || pc.CExited? }

  lemma BlockedMeansMutexFree(s: State)
    requires Inv(s) && Blocked(s) && !HoldsForPoll(s)
    ensures s.sem3 == 1
    ensures forall c | 0 <= c < |s.consumers| :: WaitsOrExited(s.consumers[c].pc)
    ensures s.ppc.PWaitConsumer? || s.ppc.PPollLock? || s.ppc.PExited?
  {
    assert !Useful(s, ProducerStep(0));
    if Count(s.consumers, InCritical) > 0 {
      var c := CountWitness(s.consumers, InCritical);
      assert Useful(s, ConsumerStep(c, 0));
    }
    forall c | 0 <= c < |s.consumers| ensures WaitsOrExited(s.consumers[c].pc) {
      assert !Useful(s, ConsumerStep(c, 0));
    }
  }

  /** No reachable state with a consumer is blocked before shutdown. */
  lemma NotBlockedBeforeShutdown(s: State)
    requires Inv(s) && Blocked(s) && !HoldsForPoll(s) && |s.consumers| > 0
    ensures s.ppc == PExited
  {
    BlockedMeansMutexFree(s);
    CountNone(s.consumers, HoldsToken);
    CountNone(s.consumers, AtSignal);
    CountNone(s.consumers, ChecksFull);
    assert !Useful(s, ProducerStep(0));
    assert !Useful(s, ConsumerStep(0, 0));
  }

  /** The end of every run that stops: the producer has exited, the consumers stranded beyond the 100th are still
      waiting, every other consumer has exited, each stranded consumer that got a token has consumed once
      more than there was to consume, and `in` has gone below zero by as much. */
  lemma OutcomeOfInv(s: State)
    requires Inv(s) && Blocked(s) && !HoldsForPoll(s) && |s.consumers| > 0
    ensures s.ppc == PExited && s.isFinished
    ensures forall c | 0 <= c < |s.consumers| :: WaitsOrExited(s.consumers[c].pc)
    ensures Count(s.consumers, AtWait) == LeftBehind(s.stranded)
    ensures s.inIndex == LeftBehind(s.stranded) - s.stranded
    ensures TotalConsumed(s.consumers) == ItemsToMake(s) + s.stranded - LeftBehind(s.stranded)
  {
    NotBlockedBeforeShutdown(s);
    BlockedMeansMutexFree(s);
    CountNone(s.consumers, HoldsToken);
    CountMono(s.consumers, WillConsume, AtWait);
    CountMono(s.consumers, AtWait, WillConsume);
    if Count(s.consumers, AtWait) > 0 {
      var c := CountWitness(s.consumers, AtWait);
      assert !Useful(s, ConsumerStep(c, 0));
    }
  }

  lemma Outcome(s: State)
    requires Reachable(s) && Blocked(s) && !HoldsForPoll(s) && |s.consumers| > 0
    ensures s.ppc == PExited && s.isFinished
    ensures forall c | 0 <= c < |s.consumers| :: s.consumers[c].pc.CWaitProducer? || s.consumers[c].pc.CExited?
    ensures var left := if s.stranded > 100 then s.stranded - 100 else 0;
            && Count(s.consumers, AtWait) == left
            && s.inIndex == left - s.stranded
            && TotalConsumed(s.consumers) == (if s.items > 0 then s.items else 0) + s.stranded - left
  {
    ReachableInv(s);
    OutcomeOfInv(s);
  }

  /** With at most 100 consumers a blocked state is a state in which everybody has exited. */
  lemma BlockedMeansDone(s: State)
    requires Inv(s) && Blocked(s) && !HoldsForPoll(s) && 1 <= |s.consumers| <= MAX_NUM_CONSUMERS
    ensures AllExited(s)
  {
    OutcomeOfInv(s);
    forall c | 0 <= c < |s.consumers| ensures s.consumers[c].pc == CExited {
      if s.consumers[c].pc.CWaitProducer? { CountAtLeast(s.consumers, c, AtWait); }
    }
  }

  lemma {:induction false} RunsAppend(s: State, first: seq<Action>, second: seq<Action>)
    requires Runs(s, first) && Runs(After(s, first), second)
    ensures Runs(s, first + second) && After(s, first + second) == After(After(s, first), second)
    decreases |first|
  {
    if first == [] {
      assert first + second == second;
    } else {
      assert (first + second)[1..] == first[1..] + second;
      RunsAppend(Next(s, first[0]), first[1..], second);
    }
  }

  lemma OneStep(s: State, a: Action)
    requires Enabled(s, a)
    ensures Runs(s, [a]) && After(s, [a]) == Next(s, a)
  {
    assert [a][0] == a && [a][1..] == [];
  }

  lemma RunsSnoc(s: State, first: seq<Action>, a: Action)
    requires Runs(s, first) && Enabled(After(s, first), a)
    ensures Runs(s, first + [a]) && After(s, first + [a]) == Next(After(s, first), a)
  {
    OneStep(After(s, first), a);
    RunsAppend(s, first, [a]);
  }

  /** The producer's way out of a failed poll. */
  function Release(s: State, item: int): (schedule: seq<Action>)
    requires HoldsForPoll(s)
  {
    if s.ppc.PPollTest? then [ProducerStep(item), ProducerStep(item)] else [ProducerStep(item)]
  }

  /** Nothing can prevent the release, and it changes nothing but the mutex and the producer's position. */
  lemma ReleaseFrees(s: State, item: int)
    requires HoldsForPoll(s)
    ensures Runs(s, Release(s, item))
    ensures After(s, Release(s, item)) == s.(sem3 := s.sem3 + 1, ppc := PPollLock)
  {
    var a := ProducerStep(item);
    if s.ppc.PPollTest? {
      OneStep(s, a);
      RunsSnoc(s, [a], a);
      assert [a] + [a] == Release(s, item);
    } else {
      OneStep(s, a);
    }
  }

  /** Deadlock freedom. Unless everybody has exited, some step other than a failed poll is possible, at once
      or, when the producer happens to hold the mutex for a failed poll, as soon as it has released it. */
  lemma NoDeadlock(s: State, item: int)
    requires Reachable(s) && 1 <= |s.consumers| <= 100 && !AllExited(s)
    ensures !HoldsForPoll(s) ==> exists a :: Useful(s, a)
    ensures HoldsForPoll(s) ==> Runs(s, Release(s, item)) && exists a :: Useful(After(s, Release(s, item)), a)
  {
    ReachableInv(s);
    if HoldsForPoll(s) {
      ReleaseFrees(s, item);
      RunKeeps(s, Release(s, item));
      NotAllExited(After(s, Release(s, item)));
    } else {
      NotAllExited(s);
    }
  }

  lemma NotAllExited(s: State)
    requires Inv(s) && !HoldsForPoll(s) && 1 <= |s.consumers| <= MAX_NUM_CONSUMERS && !AllExited(s)
    ensures exists a :: Useful(s, a)
  {
    if Blocked(s) { BlockedMeansDone(s); }
  }

  // ---------------------------------------------------------------- the end can always be reached

  lemma ProducerKeepsSetup(s: State, item: int)
    requires Progress(s) && ProducerEnabled(s)
    ensures var t := ProducerNext(s, item);
            && t.items == s.items && |t.consumers| == |s.consumers|
            && (s.isFinished ==> t.isFinished && t.stranded == s.stranded)
  {
  }

  lemma ConsumerKeepsSetup(s: State, c: nat, outside: int)
    requires ConsumerEnabled(s, c)
    ensures var t := ConsumerNext(s, c, outside);
            t.items == s.items && |t.consumers| == |s.consumers| && t.isFinished == s.isFinished && t.stranded == s.stranded
  {
  }

  /** What a run leaves alone: the number of items, the consumers, and, once is_finished is set, who was stranded. */
  predicate SameSetup(s: State, t: State) {
    && t.items == s.items && |t.consumers| == |s.consumers|
    && (s.isFinished ==> t.isFinished && t.stranded == s.stranded)
  }

  /** A step towards the end. */
  lemma UsefulStep(s: State) returns (a: Action)
    requires Inv(s) && !Blocked(s)
    ensures Enabled(s, a) && Inv(Next(s, a)) && SameSetup(s, Next(s, a))
    ensures 0 <= Measure(Next(s, a)) < Measure(s)
  {
    a :| Useful(s, a);
    StepDecreases(s, a);
    MeasureBound(Next(s, a));
    match a
    case ProducerStep(item) => ProducerKeepsSetup(s, item);
    case ConsumerStep(c, outside) => ConsumerKeepsSetup(s, c, outside);
  }

  /** Completing a poll costs nothing. */
  lemma ReleaseStays(s: State)
    requires Inv(s) && HoldsForPoll(s)
    ensures Runs(s, Release(s, 0))
    ensures var u := After(s, Release(s, 0));
            Inv(u) && !HoldsForPoll(u) && Measure(u) == Measure(s) && SameSetup(s, u)
  {
    ReleaseFrees(s, 0);
    RunKeeps(s, Release(s, 0));
  }

  /** Nobody can move and the producer has left. */
  ghost predicate AtTheEnd(s: State) { Inv(s) && Blocked(s) && !HoldsForPoll(s) && s.ppc == PExited }

  /** From every state of every run, with any number of consumers, the system can go on until the producer has left and
      nobody can move. */
  lemma {:induction false} RunsToEnd(s: State) returns (schedule: seq<Action>)
    requires Inv(s) && |s.consumers| > 0
    ensures Runs(s, schedule) && AtTheEnd(After(s, schedule)) && SameSetup(s, After(s, schedule))
    decreases Measure(s), if HoldsForPoll(s) then 1 else 0
  {
    MeasureBound(s);
    if HoldsForPoll(s) {
      ReleaseStays(s);
      var rest := RunsToEnd(After(s, Release(s, 0)));
      RunsAppend(s, Release(s, 0), rest);
      schedule := Release(s, 0) + rest;
    } else if Blocked(s) {
      NotBlockedBeforeShutdown(s);
      schedule := [];
    } else {
      var a := UsefulStep(s);
      var rest := RunsToEnd(Next(s, a));
      schedule := [a] + rest;
      assert schedule[0] == a && schedule[1..] == rest;
    }
  }

  // ---------------------------------------------------------------- at most one more token each

  /** How often consumer c gets past wait_for_producer in a run. */
  function Passes(s: State, schedule: seq<Action>, c: nat): nat
    requires Runs(s, schedule)
    decreases |schedule|
  {
    if schedule == [] then 0
    else
      var a := schedule[0];
      Bit(a.ConsumerStep? && a.consumer == c && s.consumers[c].pc.CWaitProducer?) + Passes(Next(s, a), schedule[1..], c)
  }

  predicate MayPass(s: State, c: nat) {
    c < |s.consumers| && (s.consumers[c].pc.CWaitProducer? || s.consumers[c].pc == CCheckUnlock(false))
  }

  lemma FinishedStays(s: State, a: Action, c: nat)
    requires s.isFinished && Enabled(s, a)
    ensures Next(s, a).isFinished
    ensures MayPass(Next(s, a), c) ==> MayPass(s, c)
    ensures a.ConsumerStep? && a.consumer == c && s.consumers[c].pc.CWaitProducer? ==> !MayPass(Next(s, a), c)
  {
    match a
    case ProducerStep(item) => ProducerLeavesConsumers(s, item);
    case ConsumerStep(d, outside) => ConsumerPasses(s, d, outside, c);
  }

  lemma ProducerLeavesConsumers(s: State, item: int)
    requires ProducerEnabled(s) && s.isFinished
    ensures ProducerNext(s, item).consumers == s.consumers && ProducerNext(s, item).isFinished
  {
  }

  lemma ConsumerPasses(s: State, d: nat, outside: int, c: nat)
    requires s.isFinished && ConsumerEnabled(s, d)
    ensures var t := ConsumerNext(s, d, outside);
            && t.isFinished && (MayPass(t, c) ==> MayPass(s, c))
            && (d == c && s.consumers[c].pc.CWaitProducer? ==> !MayPass(t, c))
  {
    var t := ConsumerNext(s, d, outside);
    assert t.consumers == s.consumers[d := t.consumers[d]] && t.isFinished;
  }

  /** Once is_finished is set each consumer passes wait_for_producer at most once, and only if it had read
      is_finished as false. */
  lemma {:induction false} PassesAtMostOnce(s: State, schedule: seq<Action>, c: nat)
    requires s.isFinished && Runs(s, schedule)
    ensures Passes(s, schedule, c) <= Bit(MayPass(s, c))
    decreases |schedule|
  {
    if schedule == [] {
    } else {
      FinishedStays(s, schedule[0], c);
      PassesAtMostOnce(Next(s, schedule[0]), schedule[1..], c);
    }
  }
}
