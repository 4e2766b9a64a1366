/** Every step of every thread keeps the invariant of the searching threads. */
module SearchSteps {
  import opened FileTree
  import opened SearchThreads
  import opened SearchInvariant

  // ---------------------------------------------------------------- who writes what

  /** No link of an element of this owner has changed, and the elements are still its own. */
  predicate Untouched(s: State, s': State, o: Owner) {
    forall e | e in s.heap && e in s.owner && s.owner[e] == o ::
      e in s'.heap && e in s'.owner && s'.owner[e] == o && s'.heap[e] == s.heap[e]
  }

  lemma AllMineFrame(job: Job, s: State, s': State, items: seq<Element>, o: Owner)
    requires AllMine(job, s, items, o) && Untouched(s, s', o)
    ensures AllMine(job, s', items, o) && SameLinks(s.heap, s'.heap, items)
  {
    forall i | 0 <= i < |items| ensures Mine(job, s', items[i], o) && s'.heap[items[i]] == s.heap[items[i]] {
      assert Mine(job, s, items[i], o);
    }
  }

  /** A worker is not affected by what does not touch its elements, or the shared queue while it is publishing. */
  lemma WorkerFrame(job: Job, s: State, s': State, u: nat)
    requires u < |s.workers| == |s'.workers| && s'.workers[u] == s.workers[u]
    requires WorkerOk(job, s, u) && Untouched(s, s', OfWorker(u))
    requires Publishing(s.workers[u].pc) ==>
               s'.shared == s.shared && AllMine(job, s, s.shared.items, OfShared) && Untouched(s, s', OfShared)
    ensures WorkerOk(job, s', u)
  {
    var w := s.workers[u];
    AllMineFrame(job, s, s', Pending(w), OfWorker(u));
    AllMineFrame(job, s, s', w.queue.items, OfWorker(u));
    QueueFrame(s.heap, s'.heap, w.queue);
    PositionFrame(job, s, s', w, OfWorker(u));
  }

  lemma PositionFrame(job: Job, s: State, s': State, w: Worker, me: Owner)
    requires Position(job, s, w, me) && Untouched(s, s', me) && me != OfShared
    requires SameLinks(s.heap, s'.heap, w.queue.items)
    requires Publishing(w.pc) ==>
               s'.shared == s.shared && AllMine(job, s, s.shared.items, OfShared) && Untouched(s, s', OfShared)
    ensures Position(job, s', w, me)
  {
    QueueFrame(s.heap, s'.heap, w.queue);
    if w.pc.Inserting? {
      if w.pc.andThen.ThenUnlock? {
        AllMineFrame(job, s, s', s.shared.items, OfShared);
        MidInsertFrame(s.heap, s'.heap, s.shared, w.pc.element, w.pc.stage);
      } else {
        MidInsertFrame(s.heap, s'.heap, w.queue, w.pc.element, w.pc.stage);
      }
    }
  }

  lemma MainFrame(job: Job, s: State, s': State)
    requires MainOk(job, s) && s'.main == s.main && Untouched(s, s', OfMain)
    ensures MainOk(job, s')
  {
    AllMineFrame(job, s, s', s.main.items, OfMain);
    QueueFrame(s.heap, s'.heap, s.main);
  }

  lemma SharedFrame(job: Job, s: State, s': State)
    requires SharedOk(job, s) && s'.shared == s.shared && Untouched(s, s', OfShared)
    requires s'.mutex == Free ==> Ready(s.heap, s.shared)
    ensures SharedOk(job, s')
  {
    AllMineFrame(job, s, s', s.shared.items, OfShared);
    QueueFrame(s.heap, s'.heap, s.shared);
  }

  // ---------------------------------------------------------------- allocation

  /** A new element, which belongs to the worker that made it. */
  predicate Allocates(s: State, s': State, t: nat, e: Element) {
    e.id == s.nextId && s'.nextId == s.nextId + 1 && s'.heap == s.heap[e := Null] && s'.owner == s.owner[e := OfWorker(t)]
  }

  lemma AllocateFresh(job: Job, s: State, s': State, t: nat, e: Element)
    requires HeapOk(job, s) && Under(job.fs, e.path) && Allocates(s, s', t, e)
    ensures HeapOk(job, s') && e !in s.heap && e in s'.heap && s'.owner[e] == OfWorker(t)
    ensures forall o :: Untouched(s, s', o)
  {
  }

  // ---------------------------------------------------------------- steps of one worker: its own invariant

  lemma SameItemsMine(job: Job, s: State, s': State, items: seq<Element>, o: Owner)
    requires AllMine(job, s, items, o) && s'.owner == s.owner && s.heap.Keys <= s'.heap.Keys
    ensures AllMine(job, s', items, o)
  {
    forall i | 0 <= i < |items| ensures Mine(job, s', items[i], o) { assert Mine(job, s, items[i], o); }
  }

  /** A worker that has nothing pending and leaves all links alone only has to account for its position and its count. */
  lemma MovesOn(job: Job, s: State, s': State, t: nat)
    requires t < |s.workers| == |s'.workers| && s'.heap == s.heap && s'.owner == s.owner
    requires AllMine(job, s, s.workers[t].queue.items, OfWorker(t))
    requires s'.workers[t].queue == s.workers[t].queue && Pending(s'.workers[t]) == []
    requires Position(job, s', s'.workers[t], OfWorker(t))
    requires s'.workers[t].count == SumAt(job.fs, job.key, s'.workers[t].log)
    requires job.mode == FindFiles ==> s'.workers[t].log == []
    ensures WorkerOk(job, s', t)
  {
    forall i | 0 <= i < |s'.workers[t].queue.items| ensures Mine(job, s', s'.workers[t].queue.items[i], OfWorker(t)) {
      assert Mine(job, s, s.workers[t].queue.items[i], OfWorker(t));
    }
  }

  lemma SeedingStep(job: Job, s: State, t: nat)
    requires HeapOk(job, s) && t < |s.workers| && WorkerOk(job, s, t) && s.workers[t].pc.Seeding?
    ensures WorkerOk(job, WorkerNext(job, s, t), t)
  {
    var w, s' := s.workers[t], WorkerNext(job, s, t);
    if w.pc.k < |w.elements| {
      assert s'.workers[t] == w.(pc := Inserting(w.elements[w.pc.k], Detach, ThenSeed(w.pc.k + 1)));
      SeedTaken(job, s, s', t);
    } else {
      MovesOn(job, s, s', t);
    }
  }

  lemma SeedTaken(job: Job, s: State, s': State, t: nat)
    requires t < |s.workers| == |s'.workers| && WorkerOk(job, s, t) && s'.heap == s.heap && s'.owner == s.owner
    requires s.workers[t].pc.Seeding? && s.workers[t].pc.k < |s.workers[t].elements|
    requires var w, k := s.workers[t], s.workers[t].pc.k;
             s'.workers[t] == w.(pc := Inserting(w.elements[k], Detach, ThenSeed(k + 1)))
    ensures WorkerOk(job, s', t)
  {
    var w := s.workers[t];
    PendingSeed(w, w.pc.k);
    assert Pending(w)[0] == w.elements[w.pc.k];
    SameItemsMine(job, s, s', Pending(w), OfWorker(t));
    SameItemsMine(job, s, s', w.queue.items, OfWorker(t));
  }

  lemma TestingStep(job: Job, s: State, t: nat)
    requires HeapOk(job, s) && t < |s.workers| && WorkerOk(job, s, t) && s.workers[t].pc.Testing?
    ensures WorkerOk(job, WorkerNext(job, s, t), t)
  {
    var w := s.workers[t];
    if w.queue.head.To? {
      RemoveKeeps(s.heap, w.queue);
      assert Mine(job, s, w.queue.items[0], OfWorker(t));
    }
  }

  lemma {:induction false} SumSnoc(job: Job, log: seq<string>, path: string)
    ensures SumAt(job.fs, job.key, log + [path]) == SumAt(job.fs, job.key, log) + CountAt(job.fs, job.key, path)
  {
    SumAppend(job.fs, job.key, log, [path]);
    assert SumAt(job.fs, job.key, [path]) == CountAt(job.fs, job.key, path) + SumAt(job.fs, job.key, []);
  }

  lemma ReadingStep(job: Job, s: State, t: nat)
    requires t < |s.workers| && WorkerOk(job, s, t) && s.workers[t].pc.Visiting? && !Copies(job, s.workers[t].pc.current)
    ensures WorkerOk(job, WorkerNext(job, s, t), t)
  {
    SumSnoc(job, s.workers[t].log, s.workers[t].pc.current.path);
    MovesOn(job, s, WorkerNext(job, s, t), t);
  }

  /** The fresh element is nowhere yet; everything else is where it was. */
  lemma AfterAllocate(job: Job, s: State, s': State, t: nat, e: Element)
    requires HeapOk(job, s) && Under(job.fs, e.path) && Allocates(s, s', t, e) && t < |s.workers|
    requires AllMine(job, s, s.workers[t].queue.items, OfWorker(t)) && Ready(s.heap, s.workers[t].queue)
    ensures AllMine(job, s', s.workers[t].queue.items, OfWorker(t)) && Ready(s'.heap, s.workers[t].queue)
    ensures e !in s.workers[t].queue.items
  {
    var q := s.workers[t].queue;
    AllocateFresh(job, s, s', t, e);
    AllMineFrame(job, s, s', q.items, OfWorker(t));
    QueueFrame(s.heap, s'.heap, q);
    forall i | 0 <= i < |q.items| ensures q.items[i] != e { assert Mine(job, s, q.items[i], OfWorker(t)); }
  }

  lemma CopyingStep(job: Job, s: State, t: nat)
    requires HeapOk(job, s) && t < |s.workers| && WorkerOk(job, s, t) && s.workers[t].pc.Visiting?
    requires Copies(job, s.workers[t].pc.current)
    ensures WorkerOk(job, WorkerNext(job, s, t), t)
  {
    AfterAllocate(job, s, WorkerNext(job, s, t), t, Element(s.nextId, s.workers[t].pc.current.path));
  }

  lemma VisitingStep(job: Job, s: State, t: nat)
    requires WellFormed(job.fs.root) && HeapOk(job, s)
    requires t < |s.workers| && WorkerOk(job, s, t) && s.workers[t].pc.Visiting?
    ensures WorkerOk(job, WorkerNext(job, s, t), t)
  {
    if Copies(job, s.workers[t].pc.current) { CopyingStep(job, s, t); } else { ReadingStep(job, s, t); }
  }

  lemma ScanningStep(job: Job, s: State, t: nat)
    requires WellFormed(job.fs.root) && HeapOk(job, s)
    requires t < |s.workers| && WorkerOk(job, s, t) && s.workers[t].pc.Scanning?
    ensures WorkerOk(job, WorkerNext(job, s, t), t)
  {
    var e, k := s.workers[t].pc.directory, s.workers[t].pc.k;
    var entries := Lookup(job.fs, e.path).entries;
    if k < |entries| {
      LookupChild(job.fs, e.path, k);
      AfterAllocate(job, s, WorkerNext(job, s, t), t, Element(s.nextId, Child(e.path, entries[k].name)));
    } else {
      MovesOn(job, s, WorkerNext(job, s, t), t);
    }
  }

  // ---------------------------------------------------------------- insertion into the own queue

  /** The statement changes this much, and no more of what WorkerOk speaks of. */
  predicate Inserts(s: State, s': State, t: nat)
    requires t < |s.workers|
  {
    var w := s.workers[t];
    && w.pc.Inserting? && |s'.workers| == |s.workers| && s'.owner == s.owner
    && s'.heap == HeapAfter(s.heap, w.queue, w.pc.element, w.pc.stage)
    && s'.workers[t] == w.(pc := PcAfter(w.queue, w.pc.element, w.pc.stage, w.pc.andThen),
                           queue := QueueAfter(s.heap, w.queue, w.pc.element, w.pc.stage))
  }

  lemma DetachStep(job: Job, s: State, s': State, t: nat)
    requires t < |s.workers| && WorkerOk(job, s, t) && Inserts(s, s', t)
    requires s.workers[t].pc.stage.Detach? && !s.workers[t].pc.andThen.ThenUnlock?
    ensures WorkerOk(job, s', t)
  {
    var w, w' := s.workers[t], s'.workers[t];
    assert Pending(w') == Pending(w) && w'.queue == w.queue;
    DetachKeeps(s.heap, w.queue, w.pc.element);
    SameItemsMine(job, s, s', Pending(w), OfWorker(t));
    SameItemsMine(job, s, s', w.queue.items, OfWorker(t));
  }

  /** The queue has grown by an element that was not pending. */
  lemma GrownMine(job: Job, s: State, pending: seq<Element>, items: seq<Element>, e: Element, o: Owner)
    requires AllMine(job, s, items, o) && Mine(job, s, e, o)
    requires e !in pending && forall i | 0 <= i < |pending| :: pending[i] !in items
    ensures AllMine(job, s, items + [e], o) && forall i | 0 <= i < |pending| :: pending[i] !in items + [e]
  {
  }

  lemma HangStep(job: Job, s: State, s': State, t: nat)
    requires t < |s.workers| && WorkerOk(job, s, t) && Inserts(s, s', t)
    requires s.workers[t].pc.stage.Hang? && !s.workers[t].pc.andThen.ThenUnlock?
    ensures WorkerOk(job, s', t)
  {
    var w, w' := s.workers[t], s'.workers[t];
    var e, items, pending := w.pc.element, w.queue.items, Pending(w);
    HangKeeps(s.heap, w.queue, e);
    assert Pending(w') == pending && w'.queue.items == items + [e];
    assert AllMine(job, s', pending, OfWorker(t)) by { SameItemsMine(job, s, s', pending, OfWorker(t)); }
    assert AllMine(job, s', w'.queue.items, OfWorker(t)) && forall i | 0 <= i < |pending| :: pending[i] !in w'.queue.items by {
      SameItemsMine(job, s, s', items, OfWorker(t));
      GrownMine(job, s', pending, items, e, OfWorker(t));
    }
    assert Position(job, s', w', OfWorker(t));
  }

  lemma TailStep(job: Job, s: State, s': State, t: nat)
    requires t < |s.workers| && WorkerOk(job, s, t) && Inserts(s, s', t)
    requires AtTail(s.workers[t].pc.stage) && !s.workers[t].pc.andThen.ThenUnlock?
    ensures WorkerOk(job, s', t)
  {
    var w, w' := s.workers[t], s'.workers[t];
    assert Pending(w') == Pending(w);
    TailKeeps(s.heap, w.queue, w.pc.element, w.pc.stage);
    SameItemsMine(job, s, s', Pending(w), OfWorker(t));
    SameItemsMine(job, s, s', w.queue.items, OfWorker(t));
  }

  lemma InsertingStep(job: Job, s: State, t: nat)
    requires t < |s.workers| && WorkerOk(job, s, t)
    requires s.workers[t].pc.Inserting? && !s.workers[t].pc.andThen.ThenUnlock?
    ensures WorkerOk(job, WorkerNext(job, s, t), t)
  {
    var s' := WorkerNext(job, s, t);
    assert Inserts(s, s', t);
    match s.workers[t].pc.stage
    case Detach => DetachStep(job, s, s', t);
    case Hang => HangStep(job, s, s', t);
    case _ => TailStep(job, s, s', t);
  }

  // ---------------------------------------------------------------- steps on the shared queue

  predicate AllFiles(job: Job, items: seq<Element>) {
    forall i | 0 <= i < |items| :: Lookup(job.fs, items[i].path).File?
  }

  /** The statement, on the shared queue. */
  predicate Publishes(s: State, s': State, t: nat)
    requires t < |s.workers|
  {
    var w := s.workers[t];
    && w.pc.Inserting? && |s'.workers| == |s.workers|
    && s'.owner == (if w.pc.stage.Hang? then s.owner[w.pc.element := OfShared] else s.owner)
    && s'.heap == HeapAfter(s.heap, s.shared, w.pc.element, w.pc.stage)
    && s'.shared == QueueAfter(s.heap, s.shared, w.pc.element, w.pc.stage)
    && s'.workers[t] == w.(pc := PcAfter(s.shared, w.pc.element, w.pc.stage, w.pc.andThen))
  }

  lemma TailIsShared(job: Job, s: State)
    requires AllMine(job, s, s.shared.items, OfShared)
    ensures Ready(s.heap, s.shared) && s.shared.head.To? ==>
              s.shared.tail.To? && s.shared.tail.element in s.owner && s.owner[s.shared.tail.element] == OfShared
  {
    if s.shared.items != [] { assert Mine(job, s, s.shared.items[|s.shared.items| - 1], OfShared); }
  }

  /** The worker's own queue has no element in common with the shared one, nor the element it is publishing. */
  lemma OwnQueueUnaffected(job: Job, s: State, s': State, t: nat)
    requires SharedOk(job, s) && t < |s.workers| && WorkerOk(job, s, t) && Publishes(s, s', t)
    requires s.workers[t].pc.andThen.ThenUnlock?
    ensures AllMine(job, s', s.workers[t].queue.items, OfWorker(t)) && Ready(s'.heap, s.workers[t].queue)
  {
    var q := s.workers[t].queue;
    TailIsShared(job, s);
    forall i | 0 <= i < |q.items|
      ensures Mine(job, s', q.items[i], OfWorker(t)) && s'.heap[q.items[i]] == s.heap[q.items[i]]
    {
      assert Mine(job, s, q.items[i], OfWorker(t));
    }
    QueueFrame(s.heap, s'.heap, q);
  }

  /** What the worker holding the mutex does to the shared queue in the middle of insert_element. */
  ghost predicate Published(job: Job, s': State, t: nat)
    requires t < |s'.workers|
  {
    && AllMine(job, s', s'.shared.items, OfShared) && AllFiles(job, s'.shared.items)
    && Position(job, s', s'.workers[t], OfWorker(t))
    && (s'.workers[t].pc.Unlocking? ==> Ready(s'.heap, s'.shared))
  }

  lemma PublishDetach(job: Job, s: State, s': State, t: nat)
    requires SharedOk(job, s) && t < |s.workers| && WorkerOk(job, s, t) && Publishes(s, s', t)
    requires s.workers[t].pc.stage.Detach? && s.workers[t].pc.andThen.ThenUnlock?
    ensures Published(job, s', t)
  {
    DetachKeeps(s.heap, s.shared, s.workers[t].pc.element);
    SameItemsMine(job, s, s', s.shared.items, OfShared);
    OwnQueueUnaffected(job, s, s', t);
  }

  lemma PublishedItems(job: Job, s: State, s': State, t: nat)
    requires SharedOk(job, s) && t < |s.workers| && WorkerOk(job, s, t) && Publishes(s, s', t)
    requires s.workers[t].pc.stage.Hang? && s.workers[t].pc.andThen.ThenUnlock?
    ensures AllMine(job, s', s'.shared.items, OfShared) && AllFiles(job, s'.shared.items)
  {
    var e := s.workers[t].pc.element;
    assert Mine(job, s, e, OfWorker(t)) && s'.shared.items == s.shared.items + [e];
    forall i | 0 <= i < |s'.shared.items|
      ensures Mine(job, s', s'.shared.items[i], OfShared) && Lookup(job.fs, s'.shared.items[i].path).File?
    {
      if i < |s.shared.items| {
        assert s'.shared.items[i] == s.shared.items[i];
        assert Mine(job, s, s.shared.items[i], OfShared);
      }
    }
  }

  lemma PublishHang(job: Job, s: State, s': State, t: nat)
    requires SharedOk(job, s) && t < |s.workers| && WorkerOk(job, s, t) && Publishes(s, s', t)
    requires s.workers[t].pc.stage.Hang? && s.workers[t].pc.andThen.ThenUnlock?
    ensures Published(job, s', t)
  {
    HangKeeps(s.heap, s.shared, s.workers[t].pc.element);
    PublishedItems(job, s, s', t);
    OwnQueueUnaffected(job, s, s', t);
  }

  lemma PublishTail(job: Job, s: State, s': State, t: nat)
    requires SharedOk(job, s) && t < |s.workers| && WorkerOk(job, s, t) && Publishes(s, s', t)
    requires AtTail(s.workers[t].pc.stage) && s.workers[t].pc.andThen.ThenUnlock?
    ensures Published(job, s', t)
  {
    TailKeeps(s.heap, s.shared, s.workers[t].pc.element, s.workers[t].pc.stage);
    SameItemsMine(job, s, s', s.shared.items, OfShared);
  }

  lemma PublishingStep(job: Job, s: State, t: nat)
    requires SharedOk(job, s) && t < |s.workers| && WorkerOk(job, s, t)
    requires s.workers[t].pc.Inserting? && s.workers[t].pc.andThen.ThenUnlock?
    ensures Publishes(s, WorkerNext(job, s, t), t) && Published(job, WorkerNext(job, s, t), t)
  {
    var s' := WorkerNext(job, s, t);
    assert Publishes(s, s', t);
    match s.workers[t].pc.stage
    case Detach => PublishDetach(job, s, s', t);
    case Hang => PublishHang(job, s, s', t);
    case _ => PublishTail(job, s, s', t);
  }

  // ---------------------------------------------------------------- the footprint of a worker's step

  ghost predicate Elsewhere(s: State, s': State, t: nat) {
    && Untouched(s, s', OfMain) && (forall u | u != t :: Untouched(s, s', OfWorker(u)))
    && s'.main == s.main && s'.mpc == s.mpc && s'.dealt == s.dealt
    && s'.numElements == s.numElements && s'.perThread == s.perThread
    && |s'.workers| == |s.workers| && (forall u | 0 <= u < |s.workers| && u != t :: s'.workers[u] == s.workers[u])
    && (t < |s.workers| ==> s'.workers[t].elements == s.workers[t].elements)
  }

  /** Apart from links and ownership, a step of this worker changes nothing of the others. */
  predicate OnlyWorker(s: State, s': State, t: nat)
    requires t < |s.workers|
  {
    && s'.main == s.main && s'.mpc == s.mpc && s'.dealt == s.dealt
    && s'.numElements == s.numElements && s'.perThread == s.perThread
    && |s'.workers| == |s.workers| && s'.workers == s.workers[t := s'.workers[t]]
    && s'.workers[t].elements == s.workers[t].elements
  }

  /** An element this worker may relink. */
  predicate Touchable(s: State, t: nat, e: Element) {
    e in s.heap && e in s.owner && (s.owner[e] == OfWorker(t) || s.owner[e] == OfShared)
  }

  lemma InsertFootprint(job: Job, s: State, s': State, t: nat, q: QueueRecord, e: Element, stage: Stage)
    requires HeapOk(job, s) && t < |s.workers| && OnlyWorker(s, s', t) && s'.nextId == s.nextId
    requires s'.heap == HeapAfter(s.heap, q, e, stage) && (s'.owner == s.owner || s'.owner == s.owner[e := OfShared])
    requires Touchable(s, t, e)
    requires stage.Hang? && q.head != Null && q.tail != Null ==> Touchable(s, t, q.tail.element)
    ensures HeapOk(job, s') && Elsewhere(s, s', t)
  {
    forall o | o != OfWorker(t) && o != OfShared ensures Untouched(s, s', o) {
      InsertLeaves(s, s', t, q, e, stage, o);
    }
    assert s'.heap.Keys == s.heap.Keys && s'.owner.Keys == s.owner.Keys;
  }

  lemma InsertLeaves(s: State, s': State, t: nat, q: QueueRecord, e: Element, stage: Stage, o: Owner)
    requires s'.heap == HeapAfter(s.heap, q, e, stage) && (s'.owner == s.owner || s'.owner == s.owner[e := OfShared])
    requires Touchable(s, t, e) && o != OfWorker(t) && o != OfShared
    requires stage.Hang? && q.head != Null && q.tail != Null ==> Touchable(s, t, q.tail.element)
    ensures Untouched(s, s', o)
  {
  }

  lemma OwnInsertFootprint(job: Job, s: State, t: nat)
    requires HeapOk(job, s) && t < |s.workers| && WorkerOk(job, s, t)
    requires s.workers[t].pc.Inserting? && !s.workers[t].pc.andThen.ThenUnlock?
    ensures var s' := WorkerNext(job, s, t);
            HeapOk(job, s') && Elsewhere(s, s', t) && s'.shared == s.shared && Untouched(s, s', OfShared)
  {
    var w, s' := s.workers[t], WorkerNext(job, s, t);
    OwnTail(job, s, t);
    InsertFootprint(job, s, s', t, w.queue, w.pc.element, w.pc.stage);
    assert s'.heap == HeapAfter(s.heap, w.queue, w.pc.element, w.pc.stage) && s'.owner == s.owner;
  }

  lemma OwnTail(job: Job, s: State, t: nat)
    requires t < |s.workers| && WorkerOk(job, s, t)
    requires s.workers[t].pc.Inserting? && !s.workers[t].pc.andThen.ThenUnlock?
    ensures var w := s.workers[t];
            && Mine(job, s, w.pc.element, OfWorker(t))
            && (w.pc.stage.Hang? && w.queue.head != Null && w.queue.tail != Null ==>
                  Mine(job, s, w.queue.tail.element, OfWorker(t)))
  {
    var w := s.workers[t];
    if w.pc.stage.Hang? && w.queue.items != [] { assert Mine(job, s, w.queue.items[|w.queue.items| - 1], OfWorker(t)); }
  }

  lemma PublishFootprint(job: Job, s: State, t: nat)
    requires HeapOk(job, s) && SharedOk(job, s) && t < |s.workers| && WorkerOk(job, s, t)
    requires s.workers[t].pc.Inserting? && s.workers[t].pc.andThen.ThenUnlock?
    ensures var s' := WorkerNext(job, s, t); HeapOk(job, s') && Elsewhere(s, s', t)
  {
    var w := s.workers[t];
    TailIsShared(job, s);
    InsertFootprint(job, s, WorkerNext(job, s, t), t, s.shared, w.pc.element, w.pc.stage);
  }

  /** A step that writes no link changes only the worker itself. */
  lemma NoLinkWritten(job: Job, s: State, s': State, t: nat)
    requires HeapOk(job, s) && t < |s.workers| && OnlyWorker(s, s', t)
    requires s'.heap == s.heap && s'.owner == s.owner && s'.nextId == s.nextId
    ensures HeapOk(job, s') && Elsewhere(s, s', t) && Untouched(s, s', OfShared)
  {
  }

  lemma ReadingFootprint(job: Job, s: State, t: nat)
    requires HeapOk(job, s) && t < |s.workers| && s.workers[t].pc.Visiting? && !Copies(job, s.workers[t].pc.current)
    ensures var s' := WorkerNext(job, s, t);
            HeapOk(job, s') && Elsewhere(s, s', t) && s'.shared == s.shared && Untouched(s, s', OfShared)
  {
    NoLinkWritten(job, s, WorkerNext(job, s, t), t);
  }

  /** A step that only makes an element neither. */
  lemma OnlyAllocated(job: Job, s: State, s': State, t: nat, e: Element)
    requires HeapOk(job, s) && t < |s.workers| && OnlyWorker(s, s', t) && Under(job.fs, e.path) && Allocates(s, s', t, e)
    ensures HeapOk(job, s') && Elsewhere(s, s', t) && Untouched(s, s', OfShared)
  {
    AllocateFresh(job, s, s', t, e);
  }

  lemma CopyingFootprint(job: Job, s: State, t: nat)
    requires HeapOk(job, s) && t < |s.workers| && WorkerOk(job, s, t) && s.workers[t].pc.Visiting?
    requires Copies(job, s.workers[t].pc.current)
    ensures var s' := WorkerNext(job, s, t);
            HeapOk(job, s') && Elsewhere(s, s', t) && s'.shared == s.shared && Untouched(s, s', OfShared)
  {
    OnlyAllocated(job, s, WorkerNext(job, s, t), t, Element(s.nextId, s.workers[t].pc.current.path));
  }

  lemma VisitingFootprint(job: Job, s: State, t: nat)
    requires HeapOk(job, s) && t < |s.workers| && WorkerOk(job, s, t) && s.workers[t].pc.Visiting?
    ensures var s' := WorkerNext(job, s, t);
            HeapOk(job, s') && Elsewhere(s, s', t) && s'.shared == s.shared && Untouched(s, s', OfShared)
  {
    if Copies(job, s.workers[t].pc.current) { CopyingFootprint(job, s, t); } else { ReadingFootprint(job, s, t); }
  }

  lemma ScanningFootprint(job: Job, s: State, t: nat)
    requires WellFormed(job.fs.root) && HeapOk(job, s) && t < |s.workers| && WorkerOk(job, s, t)
    requires s.workers[t].pc.Scanning?
    ensures var s' := WorkerNext(job, s, t);
            HeapOk(job, s') && Elsewhere(s, s', t) && s'.shared == s.shared && Untouched(s, s', OfShared)
  {
    var d, k := s.workers[t].pc.directory, s.workers[t].pc.k;
    var entries := Lookup(job.fs, d.path).entries;
    if k < |entries| {
      LookupChild(job.fs, d.path, k);
      OnlyAllocated(job, s, WorkerNext(job, s, t), t, Element(s.nextId, Child(d.path, entries[k].name)));
    } else {
      NoLinkWritten(job, s, WorkerNext(job, s, t), t);
    }
  }

  lemma QuietFootprint(job: Job, s: State, t: nat)
    requires HeapOk(job, s) && WorkerEnabled(s, t)
    requires !s.workers[t].pc.Inserting? && !s.workers[t].pc.Visiting? && !s.workers[t].pc.Scanning?
    ensures var s' := WorkerNext(job, s, t);
            HeapOk(job, s') && Elsewhere(s, s', t) && s'.shared == s.shared && Untouched(s, s', OfShared)
  {
    NoLinkWritten(job, s, WorkerNext(job, s, t), t);
  }

  /** A worker's step changes no link, and no ownership, of an element that belongs to the main thread's queue or to
      another worker; the shared queue and its elements it touches only while holding the mutex. */
  lemma StepFootprint(job: Job, s: State, t: nat)
    requires WellFormed(job.fs.root) && HeapOk(job, s) && SharedOk(job, s) && MutexOk(s)
    requires WorkerEnabled(s, t) && WorkerOk(job, s, t)
    ensures var s' := WorkerNext(job, s, t);
            && HeapOk(job, s') && Elsewhere(s, s', t)
            && (s.mutex != Held(t) ==> s'.shared == s.shared && Untouched(s, s', OfShared))
  {
    var pc := s.workers[t].pc;
    if pc.Inserting? {
      if pc.andThen.ThenUnlock? { PublishFootprint(job, s, t); } else { OwnInsertFootprint(job, s, t); }
    } else if pc.Visiting? {
      VisitingFootprint(job, s, t);
    } else if pc.Scanning? {
      ScanningFootprint(job, s, t);
    } else {
      QuietFootprint(job, s, t);
    }
  }

  // ---------------------------------------------------------------- the worker's own invariant, all steps together

  lemma OwnStep(job: Job, s: State, t: nat)
    requires WellFormed(job.fs.root) && HeapOk(job, s) && SharedOk(job, s) && MutexOk(s)
    requires WorkerEnabled(s, t) && WorkerOk(job, s, t)
    ensures WorkerOk(job, WorkerNext(job, s, t), t)
  {
    match s.workers[t].pc
    case Seeding(_) => SeedingStep(job, s, t);
    case Testing => TestingStep(job, s, t);
    case Visiting(_) => VisitingStep(job, s, t);
    case Scanning(_, _) => ScanningStep(job, s, t);
    case Locking(_) => LockingStep(job, s, t);
    case Inserting(_, _, andThen) =>
      if andThen.ThenUnlock? {
        OwnPublishing(job, s, t);
      } else {
        InsertingStep(job, s, t);
      }
    case Unlocking => QuietStep(job, s, t);
    case Finishing => QuietStep(job, s, t);
  }

  lemma QuietStep(job: Job, s: State, t: nat)
    requires WorkerEnabled(s, t) && WorkerOk(job, s, t) && (s.workers[t].pc.Unlocking? || s.workers[t].pc.Finishing?)
    ensures WorkerOk(job, WorkerNext(job, s, t), t)
  {
  }

  lemma LockingStep(job: Job, s: State, t: nat)
    requires SharedOk(job, s) && HeapOk(job, s) && WorkerEnabled(s, t) && WorkerOk(job, s, t) && s.workers[t].pc.Locking?
    ensures WorkerOk(job, WorkerNext(job, s, t), t)
  {
    NotShared(job, s, s.workers[t].pc.element, OfWorker(t));
  }

  /** An element of a worker is not in the shared queue. */
  lemma NotShared(job: Job, s: State, e: Element, o: Owner)
    requires SharedOk(job, s) && Mine(job, s, e, o) && o != OfShared
    ensures e !in s.shared.items
  {
    forall i | 0 <= i < |s.shared.items| ensures s.shared.items[i] != e { assert Mine(job, s, s.shared.items[i], OfShared); }
  }

  lemma OwnPublishing(job: Job, s: State, t: nat)
    requires HeapOk(job, s) && SharedOk(job, s) && MutexOk(s) && WorkerEnabled(s, t) && WorkerOk(job, s, t)
    requires s.workers[t].pc.Inserting? && s.workers[t].pc.andThen.ThenUnlock?
    ensures WorkerOk(job, WorkerNext(job, s, t), t)
  {
    assert Publishing(s.workers[t].pc);
    PublishingStep(job, s, t);
    OwnQueueUnaffected(job, s, WorkerNext(job, s, t), t);
  }

  // ---------------------------------------------------------------- the rest of the invariant

  lemma SharedStep(job: Job, s: State, t: nat)
    requires WellFormed(job.fs.root) && HeapOk(job, s) && SharedOk(job, s) && MutexOk(s)
    requires WorkerEnabled(s, t) && WorkerOk(job, s, t)
    ensures SharedOk(job, WorkerNext(job, s, t))
  {
    var s' := WorkerNext(job, s, t);
    assert Publishing(s.workers[t].pc) <==> s.mutex == Held(t);
    if s.workers[t].pc.Inserting? && s.workers[t].pc.andThen.ThenUnlock? {
      PublishingStep(job, s, t);
    } else {
      StepFootprint(job, s, t);
      if s.workers[t].pc.Unlocking? { QuietFootprint(job, s, t); }
      SharedFrame(job, s, s');
    }
  }

  lemma MutexStep(job: Job, s: State, t: nat)
    requires WellFormed(job.fs.root) && HeapOk(job, s) && SharedOk(job, s) && MutexOk(s)
    requires WorkerEnabled(s, t) && WorkerOk(job, s, t)
    ensures MutexOk(WorkerNext(job, s, t))
  {
    assert Publishing(s.workers[t].pc) <==> s.mutex == Held(t);
    UnlockingReady(job, s, t);
    MutexHolder(job, s, t);
  }

  /** Whoever is about to unlock leaves the shared queue well linked. */
  predicate LeavesReady(s: State) {
    s.mutex.Held? && s.mutex.t < |s.workers| && s.workers[s.mutex.t].pc.Unlocking? ==> Ready(s.heap, s.shared)
  }

  lemma UnlockingReady(job: Job, s: State, t: nat)
    requires WellFormed(job.fs.root) && HeapOk(job, s) && SharedOk(job, s) && MutexOk(s)
    requires WorkerEnabled(s, t) && WorkerOk(job, s, t) && (Publishing(s.workers[t].pc) <==> s.mutex == Held(t))
    ensures LeavesReady(WorkerNext(job, s, t))
  {
    if s.workers[t].pc.Inserting? && s.workers[t].pc.andThen.ThenUnlock? {
      PublishingStep(job, s, t);
    } else {
      NoneElseUnlocks(job, s, t);
      StepFootprint(job, s, t);
      OthersLeaveReady(job, s, WorkerNext(job, s, t), t);
    }
  }

  /** Only a publication leads to the unlocking. */
  lemma NoneElseUnlocks(job: Job, s: State, t: nat)
    requires WorkerEnabled(s, t) && !(s.workers[t].pc.Inserting? && s.workers[t].pc.andThen.ThenUnlock?)
    ensures var s' := WorkerNext(job, s, t);
            && |s'.workers| == |s.workers| && !s'.workers[t].pc.Unlocking?
            && (s'.mutex == s.mutex || s'.mutex == Free || s'.mutex == Held(t))
  {
  }

  lemma OthersLeaveReady(job: Job, s: State, s': State, t: nat)
    requires t < |s.workers| && SharedOk(job, s) && LeavesReady(s) && Elsewhere(s, s', t) && !s'.workers[t].pc.Unlocking?
    requires s'.mutex == s.mutex || s'.mutex == Free || s'.mutex == Held(t)
    requires s.mutex != Held(t) ==> s'.shared == s.shared && Untouched(s, s', OfShared)
    ensures LeavesReady(s')
  {
    if s'.mutex == s.mutex && s.mutex.Held? && s.mutex != Held(t) { ReadyFrame(job, s, s', s.shared, OfShared); }
  }

  lemma ReadyFrame(job: Job, s: State, s': State, q: QueueRecord, o: Owner)
    requires AllMine(job, s, q.items, o) && Untouched(s, s', o)
    ensures Ready(s.heap, q) ==> Ready(s'.heap, q)
  {
    AllMineFrame(job, s, s', q.items, o);
    QueueFrame(s.heap, s'.heap, q);
  }

  lemma MutexHolder(job: Job, s: State, t: nat)
    requires MutexOk(s) && WorkerEnabled(s, t)
    ensures var s' := WorkerNext(job, s, t);
            && |s'.workers| == |s.workers|
            && (s'.mutex.Held? ==> s'.mutex.t < |s'.workers|)
            && (forall u | 0 <= u < |s'.workers| :: Publishing(s'.workers[u].pc) <==> s'.mutex == Held(u))
  {
    MutexMoves(job, s, t);
    MutexFrame(s, WorkerNext(job, s, t), t);
  }

  lemma MutexMoves(job: Job, s: State, t: nat)
    requires MutexOk(s) && WorkerEnabled(s, t)
    ensures var s' := WorkerNext(job, s, t);
            && s'.workers == s.workers[t := s'.workers[t]]
            && (Publishing(s'.workers[t].pc) <==> s'.mutex == Held(t))
            && (s'.mutex == s.mutex || ((s.mutex == Free || s.mutex == Held(t)) && (s'.mutex == Free || s'.mutex == Held(t))))
  {
    assert Publishing(s.workers[t].pc) <==> s.mutex == Held(t);
  }

  lemma MutexFrame(s: State, s': State, t: nat)
    requires MutexOk(s) && t < |s.workers| == |s'.workers| && s'.workers == s.workers[t := s'.workers[t]]
    requires Publishing(s'.workers[t].pc) <==> s'.mutex == Held(t)
    requires s'.mutex == s.mutex || ((s.mutex == Free || s.mutex == Held(t)) && (s'.mutex == Free || s'.mutex == Held(t)))
    ensures s'.mutex.Held? ==> s'.mutex.t < |s'.workers|
    ensures forall u | 0 <= u < |s'.workers| :: Publishing(s'.workers[u].pc) <==> s'.mutex == Held(u)
  {
    forall u | 0 <= u < |s'.workers| ensures Publishing(s'.workers[u].pc) <==> s'.mutex == Held(u) {
      assert Publishing(s.workers[u].pc) <==> s.mutex == Held(u);
    }
  }

  lemma ControlStep(job: Job, s: State, t: nat)
    requires ControlOk(job, s) && WorkerEnabled(s, t) && Elsewhere(s, WorkerNext(job, s, t), t)
    ensures ControlOk(job, WorkerNext(job, s, t))
  {
    var s' := WorkerNext(job, s, t);
    NotUnborn(job, s, t);
  }

  lemma NotUnborn(job: Job, s: State, t: nat)
    requires WorkerEnabled(s, t)
    ensures var s' := WorkerNext(job, s, t);
            && t < |s'.workers| && s'.workers[t].pc != Unborn && |s'.results| == |s.results|
  {
  }

  lemma ResultsStep(job: Job, s: State, t: nat)
    requires |s.results| == |s.workers| && ResultsOk(job, s) && WorkerEnabled(s, t)
    requires Elsewhere(s, WorkerNext(job, s, t), t)
    ensures |WorkerNext(job, s, t).results| == |s.workers| && ResultsOk(job, WorkerNext(job, s, t))
  {
    var s' := WorkerNext(job, s, t);
    if s.workers[t].pc.Finishing? {
      assert s'.workers[t].pc == Exited && s'.workers[t].count == s.workers[t].count;
    } else {
      assert s'.results == s.results && s'.workers[t].pc != Exited;
    }
  }

  lemma WorkerKeeps(job: Job, s: State, t: nat)
    requires Inv(job, s) && WorkerEnabled(s, t)
    ensures Inv(job, WorkerNext(job, s, t))
  {
    var s' := WorkerNext(job, s, t);
    StepFootprint(job, s, t);
    OwnStep(job, s, t);
    SharedStep(job, s, t);
    MutexStep(job, s, t);
    MainFrame(job, s, s');
    ControlStep(job, s, t);
    ResultsStep(job, s, t);
    forall u | 0 <= u < |s'.workers| ensures WorkerOk(job, s', u) {
      if u != t {
        assert Publishing(s.workers[u].pc) <==> s.mutex == Held(u);
        WorkerFrame(job, s, s', u);
      }
    }
  }

  // ---------------------------------------------------------------- the main thread

  lemma DealtMain(job: Job, s: State, s': State, i: nat, e: Element)
    requires MainOk(job, s) && s.main.head.To? && s.main.items != [] && e == s.main.items[0]
    requires s'.heap == s.heap && s'.main == RemoveHead(s.heap, s.main)
    requires s'.owner == s.owner[e := OfWorker(i)]
    ensures MainOk(job, s')
  {
    RemoveKeeps(s.heap, s.main);
    forall k | 0 <= k < |s'.main.items| ensures Mine(job, s', s'.main.items[k], OfMain) {
      assert Mine(job, s, s.main.items[k + 1], OfMain);
    }
  }

  lemma DealtWorker(job: Job, s: State, s': State, i: nat, e: Element)
    requires i < |s.workers| == |s'.workers| && WorkerOk(job, s, i) && s.workers[i].pc == Unborn
    requires Mine(job, s, e, OfMain) && s'.heap == s.heap && s'.owner == s.owner[e := OfWorker(i)]
    requires s'.workers[i] == s.workers[i].(elements := s.workers[i].elements + [e])
    ensures WorkerOk(job, s', i)
  {
    var w, w' := s.workers[i], s'.workers[i];
    forall k | 0 <= k < |w'.elements| ensures Mine(job, s', w'.elements[k], OfWorker(i)) {
      if k < |w.elements| { assert Mine(job, s, Pending(w)[k], OfWorker(i)); }
    }
    forall k | 0 <= k < |w.elements| ensures w.elements[k] != e { assert Mine(job, s, Pending(w)[k], OfWorker(i)); }
  }

  lemma DealtControl(job: Job, s: State, i: nat, j: nat)
    requires ControlOk(job, s) && ResultsOk(job, s) && MutexOk(s) && MainOk(job, s)
    requires s.mpc == DealTo(i, j) && i < |s.workers| && j < s.perThread && s.dealt < s.numElements && s.main.head.To?
    ensures var s' := Deal(s, i, j); ControlOk(job, s') && ResultsOk(job, s') && MutexOk(s')
  {
    var s' := Deal(s, i, j);
    assert s'.shared == s.shared && s'.mutex == s.mutex && s'.heap == s.heap;
    forall u | 0 <= u < |s'.workers| ensures s'.workers[u].pc == s.workers[u].pc {}
  }

  /** One element changes hands from the main thread to thread i, and no link changes. */
  predicate ChangesHands(s: State, s': State, i: nat, e: Element) {
    && e in s.owner && s.owner[e] == OfMain && s'.heap == s.heap && s'.owner == s.owner[e := OfWorker(i)]
    && s'.nextId == s.nextId && s'.shared == s.shared && s'.mutex == s.mutex && |s'.workers| == |s.workers|
    && forall u | 0 <= u < |s.workers| && u != i :: s'.workers[u] == s.workers[u]
  }

  lemma DealtOthers(job: Job, s: State, s': State, i: nat, e: Element, u: nat)
    requires ChangesHands(s, s', i, e) && u < |s.workers| && u != i && WorkerOk(job, s, u)
    requires AllMine(job, s, s.shared.items, OfShared)
    ensures WorkerOk(job, s', u)
  {
    assert Untouched(s, s', OfWorker(u)) && Untouched(s, s', OfShared);
    WorkerFrame(job, s, s', u);
  }

  lemma DealtShared(job: Job, s: State, s': State, i: nat, e: Element)
    requires ChangesHands(s, s', i, e) && HeapOk(job, s) && SharedOk(job, s)
    ensures HeapOk(job, s') && SharedOk(job, s')
  {
    assert Untouched(s, s', OfShared);
    SharedFrame(job, s, s');
  }

  /** remove_element for a thread that does not exist yet: no link changes, one element changes hands. */
  lemma DealKeeps(job: Job, s: State, i: nat, j: nat)
    requires Inv(job, s) && s.mpc == DealTo(i, j) && i < |s.workers| && j < s.perThread && s.dealt < s.numElements
    ensures s.main.head.To? && MainNext(s) == Deal(s, i, j) && Inv(job, MainNext(s))
  {
    RemoveKeeps(s.heap, s.main);
    var e, s' := s.main.items[0], Deal(s, i, j);
    assert Mine(job, s, e, OfMain);
    assert ChangesHands(s, s', i, e);
    DealtMain(job, s, s', i, e);
    DealtWorker(job, s, s', i, e);
    DealtShared(job, s, s', i, e);
    forall u | 0 <= u < |s'.workers| ensures WorkerOk(job, s', u) {
      if u != i { DealtOthers(job, s, s', i, e, u); }
    }
    DealtControl(job, s, i, j);
  }

  /** Nothing but the main thread's own position changes, and a worker that begins. */
  predicate SameMemory(s: State, s': State) {
    && s'.heap == s.heap && s'.owner == s.owner && s'.nextId == s.nextId && s'.main == s.main
    && s'.shared == s.shared && s'.mutex == s.mutex && s'.results == s.results
  }

  lemma MemoryFrame(job: Job, s: State, s': State)
    requires SameMemory(s, s') && HeapOk(job, s) && MainOk(job, s) && SharedOk(job, s)
    ensures HeapOk(job, s') && MainOk(job, s') && SharedOk(job, s')
  {
    assert AllMine(job, s', s'.main.items, OfMain) by { SameItemsMine(job, s, s', s.main.items, OfMain); }
    SameItemsMine(job, s, s', s.shared.items, OfShared);
  }

  lemma WorkerMemoryFrame(job: Job, s: State, s': State, u: nat)
    requires SameMemory(s, s') && u < |s.workers| == |s'.workers| && WorkerOk(job, s, u) && s'.workers[u] == s.workers[u]
    ensures WorkerOk(job, s', u)
  {
    SameItemsMine(job, s, s', Pending(s.workers[u]), OfWorker(u));
    SameItemsMine(job, s, s', s.workers[u].queue.items, OfWorker(u));
  }

  lemma CreatedWorker(job: Job, s: State, s': State, i: nat)
    requires SameMemory(s, s') && i < |s.workers| == |s'.workers| && WorkerOk(job, s, i) && s.workers[i].pc == Unborn
    requires s'.workers[i] == s.workers[i].(pc := Seeding(0))
    ensures WorkerOk(job, s', i)
  {
    assert Pending(s'.workers[i]) == Pending(s.workers[i]);
    SameItemsMine(job, s, s', Pending(s.workers[i]), OfWorker(i));
  }

  lemma CreateControl(job: Job, s: State, i: nat, j: nat)
    requires ControlOk(job, s) && ResultsOk(job, s) && MutexOk(s)
    requires s.mpc == DealTo(i, j) && i < |s.workers| && (j >= s.perThread || s.dealt >= s.numElements)
    ensures var s' := MainNext(s); ControlOk(job, s') && ResultsOk(job, s') && MutexOk(s')
  {
    var s' := MainNext(s);
    forall u | 0 <= u < |s'.workers| ensures Publishing(s'.workers[u].pc) <==> s'.mutex == Held(u) {
      assert Publishing(s.workers[u].pc) <==> s.mutex == Held(u);
    }
  }

  lemma CreateKeeps(job: Job, s: State, i: nat, j: nat)
    requires Inv(job, s) && s.mpc == DealTo(i, j) && i < |s.workers| && (j >= s.perThread || s.dealt >= s.numElements)
    ensures Inv(job, MainNext(s))
  {
    var s' := MainNext(s);
    assert SameMemory(s, s') && s'.workers == s.workers[i := s.workers[i].(pc := Seeding(0))];
    MemoryFrame(job, s, s');
    CreatedWorker(job, s, s', i);
    forall u | 0 <= u < |s'.workers| ensures WorkerOk(job, s', u) {
      if u != i { WorkerMemoryFrame(job, s, s', u); }
    }
    CreateControl(job, s, i, j);
  }

  lemma JoinControl(job: Job, s: State)
    requires ControlOk(job, s) && ResultsOk(job, s) && MutexOk(s) && MainEnabled(s)
    requires s.mpc.Joining? || (s.mpc.DealTo? && s.mpc.i >= |s.workers|)
    ensures var s' := MainNext(s);
            SameMemory(s, s') && s'.workers == s.workers && ControlOk(job, s') && ResultsOk(job, s') && MutexOk(s')
  {
  }

  lemma JoinKeeps(job: Job, s: State)
    requires Inv(job, s) && MainEnabled(s)
    requires s.mpc.Joining? || (s.mpc.DealTo? && s.mpc.i >= |s.workers|)
    ensures Inv(job, MainNext(s))
  {
    var s' := MainNext(s);
    JoinControl(job, s);
    MemoryFrame(job, s, s');
    forall u | 0 <= u < |s'.workers| ensures WorkerOk(job, s', u) { WorkerMemoryFrame(job, s, s', u); }
  }

  lemma MainKeeps(job: Job, s: State)
    requires Inv(job, s) && MainEnabled(s)
    ensures Inv(job, MainNext(s))
  {
    if s.mpc.DealTo? && s.mpc.i < |s.workers| {
      if s.mpc.j < s.perThread && s.dealt < s.numElements {
        DealKeeps(job, s, s.mpc.i, s.mpc.j);
      } else {
        CreateKeeps(job, s, s.mpc.i, s.mpc.j);
      }
    } else {
      JoinKeeps(job, s);
    }
  }

  lemma StepKeeps(job: Job, s: State, a: Action)
    requires Inv(job, s) && Enabled(s, a)
    ensures Inv(job, Next(job, s, a))
  {
    match a
    case MainStep => MainKeeps(job, s);
    case WorkerStep(t) => WorkerKeeps(job, s, t);
  }

  lemma {:induction false} RunKeeps(job: Job, s: State, schedule: seq<Action>)
    requires Inv(job, s) && Runs(job, s, schedule)
    ensures Inv(job, After(job, s, schedule))
    decreases |schedule|
  {
    if schedule == [] {
    } else {
      StepKeeps(job, s, schedule[0]);
      RunKeeps(job, Next(job, s, schedule[0]), schedule[1..]);
    }
  }
}
