/** What the invariant says about every run of the producer/consumer system. */
module BufferSafety {
  import opened BoundedBuffer
  import opened BufferInvariant

  /** The states some schedule leads to. */
  ghost predicate Reachable(s: State) {
    exists s0, schedule :: Init(s0) && Runs(s0, schedule) && After(s0, schedule) == s
  }

  lemma ReachableInv(s: State)
    requires Reachable(s)
    ensures Inv(s)
  {
    var s0, schedule :| Init(s0) && Runs(s0, schedule) && After(s0, schedule) == s;
    InitInv(s0);
    RunKeeps(s0, schedule);
  }

  /** sem_3 is a mutex: it is free exactly when nobody is between a lock and an unlock, and never are two. */
  lemma MutexExcludes(s: State)
    requires Reachable(s)
    ensures s.sem3 <= 1
    ensures s.sem3 == 1 <==>
              !ProducerInCritical(s.ppc) && forall c | 0 <= c < |s.consumers| :: !InCritical(s.consumers[c].pc)
    ensures ProducerInCritical(s.ppc) ==> forall c | 0 <= c < |s.consumers| :: !InCritical(s.consumers[c].pc)
    ensures forall c, d | 0 <= c < d < |s.consumers| :: !(InCritical(s.consumers[c].pc) && InCritical(s.consumers[d].pc))
  {
    ReachableInv(s);
    if Count(s.consumers, InCritical) == 0 {
      forall c | 0 <= c < |s.consumers| ensures !InCritical(s.consumers[c].pc) {
        if InCritical(s.consumers[c].pc) { CountAtLeast(s.consumers, c, InCritical); }
      }
    } else {
      var c := CountWitness(s.consumers, InCritical);
      OnlyConsumerInCritical(s, c);
    }
  }

  /** Between critical sections the tokens, the index `in` and the index `out` agree. */
  lemma TokensMatchItems(s: State)
    requires Reachable(s) && s.sem3 > 0 && !s.isFinished
    ensures s.sem3 == 1
    ensures s.sem2 + Count(s.consumers, HoldsToken) == s.inIndex
    ensures 0 <= s.inIndex <= 25
    ensures ProducedItems(s.history) != [] ==> s.outIndex == s.inIndex - 1
  {
    ReachableInv(s);
    NoConsumerInCritical(s);
    CountNone(s.consumers, AtDecIn);
  }

  /** The producer's write is always inside `work`; a consumer's read is inside it exactly when it
      happens before shutdown, or is the first read of a system that never produced anything. */
  lemma AccessesInside(s: State)
    requires Reachable(s)
    ensures |s.work| == 25
    ensures s.ppc.PWrite? ==> 0 <= s.inIndex < |s.work|
    ensures forall c | 0 <= c < |s.consumers| && s.consumers[c].pc.CTakeRead? ::
              0 <= s.outIndex < |s.work| <==>
                !s.isFinished || (ProducedItems(s.history) == [] && ConsumedItems(s.history) == [])
  {
    ReachableInv(s);
    forall c | 0 <= c < |s.consumers| && s.consumers[c].pc.CTakeRead?
      ensures 0 <= s.outIndex < |s.work| <==>
                !s.isFinished || (ProducedItems(s.history) == [] && ConsumedItems(s.history) == [])
    {
      if s.isFinished {
        OnlyConsumerInCritical(s, c);
        CountNone(s.consumers, AtDecIn);
      } else {
        ReadsTop(s, c);
      }
    }
  }

  /** The buffer is a stack: until shutdown every consume took the newest unconsumed item, the slots
      below `in` are what is left, and nothing is lost or duplicated. */
  lemma BufferIsStack(s: State)
    requires Reachable(s) && !s.isFinished
    ensures 0 <= s.inIndex <= |s.work| && Replay(s.history) == Stack(s.work[..s.inIndex])
    ensures multiset(ProducedItems(s.history)) == multiset(ConsumedItems(s.history)) + multiset(s.work[..s.inIndex])
  {
    ReachableInv(s);
    StackConserves(s.history);
  }

  /** When is_finished was set, every item had been produced and consumed exactly once. */
  lemma FinishedMeansAllConsumed(s: State)
    requires Reachable(s) && s.isFinished
    ensures s.finishedAt <= |s.history|
    ensures var before := s.history[..s.finishedAt];
            && Replay(before) == Stack([])
            && multiset(ProducedItems(before)) == multiset(ConsumedItems(before))
            && |ProducedItems(before)| == (if s.items > 0 then s.items else 0)
  {
    ReachableInv(s);
    StackConserves(s.history[..s.finishedAt]);
  }

  /** The full-buffer handshake: sem_1 is binary, settings of is_full and posts of sem_1 alternate, all of
      them are settled whenever the producer is not waiting, and it comes back to a buffer with room. */
  lemma HandshakeExact(s: State)
    requires Reachable(s)
    ensures s.sem1 <= 1
    ensures s.fullPosts <= s.fullSets <= s.fullPosts + 1
    ensures !s.ppc.PUnlockFull? && !s.ppc.PWaitConsumer? ==>
              s.fullSets == s.fullPosts && s.sem1 == 0 && !s.isFull && Count(s.consumers, AtSignal) == 0
    ensures s.ppc.PRelock? || s.ppc.PWrite? ==> s.inIndex < 25
    ensures s.isFull && s.sem3 > 0 ==> s.inIndex == 25
  {
    ReachableInv(s);
    if s.isFull && s.sem3 > 0 {
      NoConsumerInCritical(s);
      CountNone(s.consumers, ChecksFull);
    }
  }

  /** The consumers' own counters add up to the completed consumes, before and after shutdown. */
  lemma CountersAddUp(s: State)
    requires Reachable(s)
    ensures TotalConsumed(s.consumers) + s.inIndex == |ProducedItems(s.history)|
  {
    ReachableInv(s);
  }
}
