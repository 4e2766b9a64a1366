/** No two threads ever meet in one memory cell, with a mutex around nothing but the shared queue. */
module SearchRaces {
  import opened SearchThreads
  import opened SearchInvariant
  import opened SearchSteps

  /** What the threads share: the links of the elements, the two ends of SHARED.queue_files, the arguments handed to each
      thread, and the slots of RESULTS. */
  datatype Cell = LinkOf(element: Element) | SharedHead | SharedTail | ElementsOf(t: nat) | ResultOf(t: nat)

  function Target(link: Link): set<Cell> { if link.To? then {LinkOf(link.element)} else {} }

  /** The cells that the next statement of a thread reads or writes. */
  function Cells(job: Job, s: State, a: Action): set<Cell> {
    match a
    case MainStep => MainCells(job, s)
    case WorkerStep(t) => if t < |s.workers| then WorkerCells(job, s, t) else {}
  }

  /** The first n slots of RESULTS. */
  function Slots(n: nat): (cells: set<Cell>)
    ensures forall c :: c in cells <==> c.ResultOf? && c.t < n
  {
    if n == 0 then {} else Slots(n - 1) + {ResultOf(n - 1)}
  }

  /** In the second phase of a dynamic search the queue dealt from is the shared one. */
  function MainCells(job: Job, s: State): set<Cell> {
    match s.mpc
    case DealTo(i, j) =>
      if i >= |s.workers| then {}
      else if j < s.perThread && s.dealt < s.numElements then
        Target(s.main.head) + {ElementsOf(i)} + (if job.mode == SearchFiles then {SharedHead} else {})
      else {ElementsOf(i)}
    case Joining(i) => if i < |s.workers| then {} else Slots(|s.results|)
    case Done(_) => {}
  }

  function WorkerCells(job: Job, s: State, t: nat): set<Cell>
    requires t < |s.workers|
  {
    var w := s.workers[t];
    match w.pc
    case Seeding(_) => {ElementsOf(t)}
    case Testing => Target(w.queue.head)
    case Inserting(e, stage, andThen) =>
      if andThen.ThenUnlock? then InsertCells(s.shared, e, stage) + {SharedHead, SharedTail}
      else InsertCells(w.queue, e, stage)
    case Finishing => if job.mode != FindFiles then {ResultOf(t)} else {}
    case _ => {}
  }

  function InsertCells(q: QueueRecord, e: Element, stage: Stage): set<Cell> {
    match stage
    case Detach => {LinkOf(e)}
    case Hang => if q.head == Null then {} else Target(q.tail)
    case TailFirst => {}
    case TailNext => Target(q.tail)
  }

  // ---------------------------------------------------------------- these are all the cells that a statement writes

  /** The cell holds what it held before. */
  predicate SameCell(job: Job, s: State, s': State, c: Cell) {
    match c
    case LinkOf(e) => e in s.heap ==> e in s'.heap && s'.heap[e] == s.heap[e]
    case SharedHead => s'.shared.head == s.shared.head && (job.mode == SearchFiles ==> s'.main.head == s.main.head)
    case SharedTail => s'.shared.tail == s.shared.tail && (job.mode == SearchFiles ==> s'.main.tail == s.main.tail)
    case ElementsOf(t) => t < |s.workers| ==> t < |s'.workers| && s'.workers[t].elements == s.workers[t].elements
    case ResultOf(t) => t < |s.results| ==> t < |s'.results| && s'.results[t] == s.results[t]
  }

  lemma WritesOnlyCells(job: Job, s: State, a: Action, c: Cell)
    requires Inv(job, s) && Enabled(s, a) && c !in Cells(job, s, a)
    ensures SameCell(job, s, Next(job, s, a), c)
  {
    match a
    case MainStep => MainWrites(job, s, c);
    case WorkerStep(t) =>
      var pc := s.workers[t].pc;
      if pc.Visiting? || pc.Scanning? {
        AllocatesOnly(job, s, t, c);
      } else if pc.Inserting? {
        InsertWrites(job, s, t, c);
      } else {
        OtherWrites(job, s, t, c);
      }
  }

  lemma MainWrites(job: Job, s: State, c: Cell)
    requires MainEnabled(s) && c !in MainCells(job, s)
    ensures SameCell(job, s, MainNext(s), c)
  {
  }

  lemma AllocatesOnly(job: Job, s: State, t: nat, c: Cell)
    requires HeapOk(job, s) && t < |s.workers| && (s.workers[t].pc.Visiting? || s.workers[t].pc.Scanning?)
    ensures SameCell(job, s, WorkerNext(job, s, t), c)
  {
    if c.LinkOf? && c.element in s.heap { assert c.element.id < s.nextId; }
  }

  lemma InsertWrites(job: Job, s: State, t: nat, c: Cell)
    requires t < |s.workers| && s.workers[t].pc.Inserting? && c !in WorkerCells(job, s, t)
    ensures SameCell(job, s, WorkerNext(job, s, t), c)
  {
  }

  lemma OtherWrites(job: Job, s: State, t: nat, c: Cell)
    requires WorkerEnabled(s, t) && c !in WorkerCells(job, s, t)
    requires !s.workers[t].pc.Visiting? && !s.workers[t].pc.Scanning? && !s.workers[t].pc.Inserting?
    ensures SameCell(job, s, WorkerNext(job, s, t), c)
  {
  }

  lemma InsertOwnCells(job: Job, s: State, q: QueueRecord, e: Element, stage: Stage, c: Cell, o: Owner)
    requires MidInsert(s.heap, q, e, stage) && AllMine(job, s, q.items, o) && c in InsertCells(q, e, stage)
    ensures c.LinkOf? && (c.element == e || Mine(job, s, c.element, o))
  {
    if stage.Hang? {
      assert Mine(job, s, q.items[|q.items| - 1], o);
    } else if stage.TailNext? {
      assert Mine(job, s, q.items[|q.items| - 2], o);
    }
  }

  // ---------------------------------------------------------------- nor does it read any other

  predicate SameWorker(w: Worker, v: Worker) {
    v.pc == w.pc && v.queue.head == w.queue.head && v.queue.tail == w.queue.tail && v.count == w.count && v.log == w.log
  }

  /** The thread's own variables are the same in both states; nextId is the address that malloc would return. */
  predicate SameSelf(job: Job, s: State, r: State, a: Action) {
    match a
    case MainStep =>
      && r.mpc == s.mpc && r.perThread == s.perThread && r.numElements == s.numElements && r.dealt == s.dealt
      && |r.workers| == |s.workers| && |r.results| == |s.results|
      && (job.mode != SearchFiles ==> r.main.head == s.main.head)
    case WorkerStep(t) =>
      t < |s.workers| && t < |r.workers| && r.nextId == s.nextId && SameWorker(s.workers[t], r.workers[t])
  }

  ghost predicate SameOn(job: Job, s: State, r: State, cells: set<Cell>) {
    forall c | c in cells :: SameCell(job, s, r, c)
  }

  /** A statement has the same effect on the thread's own variables and on the cells it accesses in any two states that agree
      on these. */
  lemma ReadsOnlyCells(job: Job, s: State, r: State, a: Action)
    requires Inv(job, s) && Inv(job, r) && Enabled(s, a) && Enabled(r, a)
    requires SameSelf(job, s, r, a) && SameOn(job, s, r, Cells(job, s, a))
    ensures SameSelf(job, Next(job, s, a), Next(job, r, a), a)
    ensures SameOn(job, Next(job, s, a), Next(job, r, a), Cells(job, s, a))
  {
    match a
    case MainStep => MainReads(job, s, r);
    case WorkerStep(t) =>
      assert WorkerOk(job, s, t) && WorkerOk(job, r, t);
      if s.workers[t].pc.Inserting? {
        InsertReads(job, s, r, t);
      } else {
        WorkerReads(job, s, r, t);
      }
  }

  lemma SameResults(job: Job, s: State, r: State)
    requires |r.results| == |s.results| && SameOn(job, s, r, Slots(|s.results|))
    ensures r.results == s.results
  {
    forall t | 0 <= t < |s.results| ensures r.results[t] == s.results[t] { assert SameCell(job, s, r, ResultOf(t)); }
  }

  lemma DealReads(job: Job, s: State, r: State)
    requires Ready(s.heap, s.main) && Ready(r.heap, r.main) && s.main.head.To? && s.mpc.DealTo? && s.mpc.i < |s.workers|
    requires s.mpc.j < s.perThread && s.dealt < s.numElements
    requires SameSelf(job, s, r, MainStep) && SameOn(job, s, r, MainCells(job, s))
    ensures SameSelf(job, MainNext(s), MainNext(r), MainStep) && SameOn(job, MainNext(s), MainNext(r), MainCells(job, s))
  {
    var e := s.main.head.element;
    RemoveKeeps(s.heap, s.main);
    assert SameCell(job, s, r, LinkOf(e)) && SameCell(job, s, r, ElementsOf(s.mpc.i));
    if job.mode == SearchFiles { assert SameCell(job, s, r, SharedHead); }
  }

  lemma CreateReads(job: Job, s: State, r: State)
    requires s.mpc.DealTo? && (s.mpc.i < |s.workers| ==> s.mpc.j >= s.perThread || s.dealt >= s.numElements)
    requires SameSelf(job, s, r, MainStep) && (s.mpc.i < |s.workers| ==> SameCell(job, s, r, ElementsOf(s.mpc.i)))
    ensures SameSelf(job, MainNext(s), MainNext(r), MainStep)
    ensures s.mpc.i < |s.workers| ==> SameCell(job, MainNext(s), MainNext(r), ElementsOf(s.mpc.i))
  {
  }

  lemma JoinReads(job: Job, s: State, r: State)
    requires MainEnabled(s) && MainEnabled(r) && s.mpc.Joining?
    requires SameSelf(job, s, r, MainStep) && (s.mpc.i >= |s.workers| ==> r.results == s.results)
    ensures SameSelf(job, MainNext(s), MainNext(r), MainStep)
    ensures MainNext(s).results == s.results && MainNext(r).results == r.results
  {
  }

  lemma MainReads(job: Job, s: State, r: State)
    requires Inv(job, s) && Inv(job, r) && MainEnabled(s) && MainEnabled(r)
    requires SameSelf(job, s, r, MainStep) && SameOn(job, s, r, MainCells(job, s))
    ensures SameSelf(job, MainNext(s), MainNext(r), MainStep) && SameOn(job, MainNext(s), MainNext(r), MainCells(job, s))
  {
    if s.mpc.DealTo? && s.mpc.i < |s.workers| && s.mpc.j < s.perThread && s.dealt < s.numElements {
      DealKeeps(job, s, s.mpc.i, s.mpc.j);
      DealReads(job, s, r);
    } else if s.mpc.DealTo? {
      if s.mpc.i < |s.workers| { assert SameCell(job, s, r, ElementsOf(s.mpc.i)); }
      CreateReads(job, s, r);
    } else {
      if s.mpc.i >= |s.workers| { SameResults(job, s, r); }
      JoinReads(job, s, r);
    }
  }

  lemma SeedingReads(job: Job, s: State, r: State, t: nat)
    requires WorkerEnabled(s, t) && WorkerEnabled(r, t) && s.workers[t].pc.Seeding?
    requires SameSelf(job, s, r, WorkerStep(t)) && SameCell(job, s, r, ElementsOf(t))
    ensures SameSelf(job, WorkerNext(job, s, t), WorkerNext(job, r, t), WorkerStep(t))
    ensures SameCell(job, WorkerNext(job, s, t), WorkerNext(job, r, t), ElementsOf(t))
  {
  }

  lemma TestingReads(job: Job, s: State, r: State, t: nat)
    requires WorkerEnabled(s, t) && WorkerEnabled(r, t) && s.workers[t].pc.Testing?
    requires SameSelf(job, s, r, WorkerStep(t))
    requires var head := s.workers[t].queue.head;
             head.To? ==> head.element in s.heap && SameCell(job, s, r, LinkOf(head.element))
    ensures var s', r', head := WorkerNext(job, s, t), WorkerNext(job, r, t), s.workers[t].queue.head;
            SameSelf(job, s', r', WorkerStep(t)) && (head.To? ==> SameCell(job, s', r', LinkOf(head.element)))
  {
  }

  lemma FinishingReads(job: Job, s: State, r: State, t: nat)
    requires WorkerEnabled(s, t) && WorkerEnabled(r, t) && s.workers[t].pc.Finishing?
    requires |s.results| == |s.workers| && |r.results| == |r.workers| && SameSelf(job, s, r, WorkerStep(t))
    ensures SameSelf(job, WorkerNext(job, s, t), WorkerNext(job, r, t), WorkerStep(t))
    ensures job.mode != FindFiles ==> SameCell(job, WorkerNext(job, s, t), WorkerNext(job, r, t), ResultOf(t))
  {
  }

  lemma VisitingReads(job: Job, s: State, r: State, t: nat)
    requires WorkerEnabled(s, t) && WorkerEnabled(r, t) && SameSelf(job, s, r, WorkerStep(t)) && s.workers[t].pc.Visiting?
    ensures SameSelf(job, WorkerNext(job, s, t), WorkerNext(job, r, t), WorkerStep(t))
  {
    if Copies(job, s.workers[t].pc.current) { CopyingReads(job, s, r, t); } else { LookingReads(job, s, r, t); }
  }

  lemma CopyingReads(job: Job, s: State, r: State, t: nat)
    requires t < |s.workers| && t < |r.workers| && SameSelf(job, s, r, WorkerStep(t))
    requires s.workers[t].pc.Visiting? && Copies(job, s.workers[t].pc.current)
    ensures var e := s.workers[t].pc.current;
            SameSelf(job, VisitNext(job, s, t, e), VisitNext(job, r, t, e), WorkerStep(t))
  {
  }

  lemma LookingReads(job: Job, s: State, r: State, t: nat)
    requires t < |s.workers| && t < |r.workers| && SameSelf(job, s, r, WorkerStep(t))
    requires s.workers[t].pc.Visiting? && !Copies(job, s.workers[t].pc.current)
    ensures var e := s.workers[t].pc.current;
            SameSelf(job, VisitNext(job, s, t, e), VisitNext(job, r, t, e), WorkerStep(t))
  {
  }

  lemma ScanningReads(job: Job, s: State, r: State, t: nat)
    requires WorkerEnabled(s, t) && WorkerEnabled(r, t) && SameSelf(job, s, r, WorkerStep(t)) && s.workers[t].pc.Scanning?
    ensures SameSelf(job, WorkerNext(job, s, t), WorkerNext(job, r, t), WorkerStep(t))
  {
  }

  lemma LockReads(job: Job, s: State, r: State, t: nat)
    requires WorkerEnabled(s, t) && WorkerEnabled(r, t) && SameSelf(job, s, r, WorkerStep(t))
    requires s.workers[t].pc.Locking? || s.workers[t].pc.Unlocking?
    ensures SameSelf(job, WorkerNext(job, s, t), WorkerNext(job, r, t), WorkerStep(t))
  {
  }

  lemma WorkerReads(job: Job, s: State, r: State, t: nat)
    requires WorkerEnabled(s, t) && WorkerEnabled(r, t) && WorkerOk(job, s, t) && !s.workers[t].pc.Inserting?
    requires |s.results| == |s.workers| && |r.results| == |r.workers|
    requires SameSelf(job, s, r, WorkerStep(t)) && SameOn(job, s, r, WorkerCells(job, s, t))
    ensures SameSelf(job, WorkerNext(job, s, t), WorkerNext(job, r, t), WorkerStep(t))
    ensures SameOn(job, WorkerNext(job, s, t), WorkerNext(job, r, t), WorkerCells(job, s, t))
  {
    match s.workers[t].pc
    case Seeding(_) => SeedingReads(job, s, r, t);
    case Testing =>
      if s.workers[t].queue.head.To? { RemoveKeeps(s.heap, s.workers[t].queue); }
      TestingReads(job, s, r, t);
    case Visiting(_) => VisitingReads(job, s, r, t);
    case Scanning(_, _) => ScanningReads(job, s, r, t);
    case Finishing => FinishingReads(job, s, r, t);
    case _ => LockReads(job, s, r, t);
  }

  /** The statement of an insertion on a queue, in any two states whose links agree where it looks. */
  lemma InsertAgrees(job: Job, heap: Heap, heap': Heap, q: QueueRecord, q': QueueRecord, e: Element, stage: Stage)
    requires q'.head == q.head && q'.tail == q.tail && e in heap && e in heap'
    requires forall x | LinkOf(x) in InsertCells(q, e, stage) :: x in heap && x in heap' && heap'[x] == heap[x]
    ensures var next, next' := QueueAfter(heap, q, e, stage), QueueAfter(heap', q', e, stage);
            next'.head == next.head && next'.tail == next.tail
    ensures forall x | LinkOf(x) in InsertCells(q, e, stage) ::
              && x in HeapAfter(heap, q, e, stage) && x in HeapAfter(heap', q', e, stage)
              && HeapAfter(heap', q', e, stage)[x] == HeapAfter(heap, q, e, stage)[x]
  {
    if stage.TailNext? && q.tail.To? { assert LinkOf(q.tail.element) in InsertCells(q, e, stage); }
  }

  lemma InsertReads(job: Job, s: State, r: State, t: nat)
    requires WorkerEnabled(s, t) && WorkerEnabled(r, t) && WorkerOk(job, s, t) && WorkerOk(job, r, t)
    requires s.workers[t].pc.Inserting? && AllMine(job, s, s.shared.items, OfShared)
    requires SameSelf(job, s, r, WorkerStep(t)) && SameOn(job, s, r, WorkerCells(job, s, t))
    ensures SameSelf(job, WorkerNext(job, s, t), WorkerNext(job, r, t), WorkerStep(t))
    ensures SameOn(job, WorkerNext(job, s, t), WorkerNext(job, r, t), WorkerCells(job, s, t))
  {
    if s.workers[t].pc.andThen.ThenUnlock? { PublishReads(job, s, r, t); } else { OwnInsertReads(job, s, r, t); }
  }

  lemma OwnInsertReads(job: Job, s: State, r: State, t: nat)
    requires WorkerEnabled(s, t) && WorkerEnabled(r, t) && WorkerOk(job, s, t) && WorkerOk(job, r, t)
    requires s.workers[t].pc.Inserting? && !s.workers[t].pc.andThen.ThenUnlock?
    requires SameSelf(job, s, r, WorkerStep(t)) && SameOn(job, s, r, WorkerCells(job, s, t))
    ensures SameSelf(job, WorkerNext(job, s, t), WorkerNext(job, r, t), WorkerStep(t))
    ensures SameOn(job, WorkerNext(job, s, t), WorkerNext(job, r, t), WorkerCells(job, s, t))
  {
    var w := s.workers[t];
    forall x | LinkOf(x) in InsertCells(w.queue, w.pc.element, w.pc.stage)
      ensures x in s.heap && x in r.heap && r.heap[x] == s.heap[x]
    {
      InsertOwnCells(job, s, w.queue, w.pc.element, w.pc.stage, LinkOf(x), OfWorker(t));
      assert SameCell(job, s, r, LinkOf(x));
    }
    InsertAgrees(job, s.heap, r.heap, w.queue, r.workers[t].queue, w.pc.element, w.pc.stage);
    OwnInsertEffect(job, s, t);
    OwnInsertEffect(job, r, t);
  }

  lemma OwnInsertEffect(job: Job, s: State, t: nat)
    requires WorkerEnabled(s, t) && s.workers[t].pc.Inserting? && !s.workers[t].pc.andThen.ThenUnlock?
    ensures Inserts(s, WorkerNext(job, s, t), t) && WorkerNext(job, s, t).nextId == s.nextId
  {
  }

  lemma PublishEffect(job: Job, s: State, t: nat)
    requires WorkerEnabled(s, t) && s.workers[t].pc.Inserting? && s.workers[t].pc.andThen.ThenUnlock?
    ensures Publishes(s, WorkerNext(job, s, t), t)
    ensures WorkerNext(job, s, t).nextId == s.nextId && WorkerNext(job, s, t).main == s.main
  {
  }

  /** What the statement of a publication looks at is the same in both states. */
  lemma PublishSees(job: Job, s: State, r: State, t: nat)
    requires WorkerEnabled(s, t) && WorkerEnabled(r, t) && WorkerOk(job, s, t) && WorkerOk(job, r, t)
    requires s.workers[t].pc.Inserting? && s.workers[t].pc.andThen.ThenUnlock? && AllMine(job, s, s.shared.items, OfShared)
    requires SameSelf(job, s, r, WorkerStep(t)) && SameOn(job, s, r, WorkerCells(job, s, t))
    ensures var e := s.workers[t].pc.element;
            && job.mode == FindFiles && r.shared.head == s.shared.head && r.shared.tail == s.shared.tail && e in s.heap && e in r.heap
            && forall x | LinkOf(x) in InsertCells(s.shared, e, s.workers[t].pc.stage) ::
                 x in s.heap && x in r.heap && r.heap[x] == s.heap[x]
  {
    var w := s.workers[t];
    assert SameCell(job, s, r, SharedHead) && SameCell(job, s, r, SharedTail);
    forall x | LinkOf(x) in InsertCells(s.shared, w.pc.element, w.pc.stage)
      ensures x in s.heap && x in r.heap && r.heap[x] == s.heap[x]
    {
      InsertOwnCells(job, s, s.shared, w.pc.element, w.pc.stage, LinkOf(x), OfShared);
      assert SameCell(job, s, r, LinkOf(x));
    }
  }

  lemma PublishReads(job: Job, s: State, r: State, t: nat)
    requires WorkerEnabled(s, t) && WorkerEnabled(r, t) && WorkerOk(job, s, t) && WorkerOk(job, r, t)
    requires s.workers[t].pc.Inserting? && s.workers[t].pc.andThen.ThenUnlock? && AllMine(job, s, s.shared.items, OfShared)
    requires SameSelf(job, s, r, WorkerStep(t)) && SameOn(job, s, r, WorkerCells(job, s, t))
    ensures SameSelf(job, WorkerNext(job, s, t), WorkerNext(job, r, t), WorkerStep(t))
    ensures SameOn(job, WorkerNext(job, s, t), WorkerNext(job, r, t), WorkerCells(job, s, t))
  {
    PublishSees(job, s, r, t);
    PublishAgrees(job, s, r, t);
  }

  lemma PublishAgrees(job: Job, s: State, r: State, t: nat)
    requires WorkerEnabled(s, t) && WorkerEnabled(r, t) && SameSelf(job, s, r, WorkerStep(t))
    requires s.workers[t].pc.Inserting? && s.workers[t].pc.andThen.ThenUnlock?
    requires var e := s.workers[t].pc.element;
             && job.mode == FindFiles && r.shared.head == s.shared.head && r.shared.tail == s.shared.tail && e in s.heap && e in r.heap
             && forall x | LinkOf(x) in InsertCells(s.shared, e, s.workers[t].pc.stage) ::
                  x in s.heap && x in r.heap && r.heap[x] == s.heap[x]
    ensures SameSelf(job, WorkerNext(job, s, t), WorkerNext(job, r, t), WorkerStep(t))
    ensures SameOn(job, WorkerNext(job, s, t), WorkerNext(job, r, t), WorkerCells(job, s, t))
  {
    var w := s.workers[t];
    InsertAgrees(job, s.heap, r.heap, s.shared, r.shared, w.pc.element, w.pc.stage);
    PublishEffect(job, s, t);
    PublishEffect(job, r, t);
  }

  // ---------------------------------------------------------------- who may access what

  /** Links go with their owner, the shared queue with the mutex, or with the main thread once the file threads are joined; the
      arguments of a thread are the main thread's until the thread exists, its result is the thread's until it exits. */
  predicate MayAccess(job: Job, s: State, a: Action, c: Cell) {
    match (a, c)
    case (MainStep, LinkOf(e)) => e in s.owner && s.owner[e] == OfMain
    case (MainStep, SharedHead) => job.mode == SearchFiles
    case (MainStep, SharedTail) => false
    case (MainStep, ElementsOf(u)) => u < |s.workers| && s.workers[u].pc == Unborn
    case (MainStep, ResultOf(u)) => u < |s.workers| && s.workers[u].pc == Exited
    case (WorkerStep(t), LinkOf(e)) =>
      e in s.owner && (s.owner[e] == OfWorker(t) || (s.owner[e] == OfShared && s.mutex == Held(t)))
    case (WorkerStep(t), ElementsOf(u)) => u == t < |s.workers| && s.workers[t].pc != Unborn
    case (WorkerStep(t), ResultOf(u)) => u == t < |s.workers| && s.workers[t].pc != Exited
    case (WorkerStep(t), _) => s.mutex == Held(t) && job.mode == FindFiles
  }

  lemma Exclusive(job: Job, s: State, a: Action, b: Action, c: Cell)
    requires MayAccess(job, s, a, c) && MayAccess(job, s, b, c)
    ensures a == b
  {
  }

  lemma OwnCells(job: Job, s: State, a: Action, c: Cell)
    requires Inv(job, s) && Enabled(s, a) && c in Cells(job, s, a)
    ensures MayAccess(job, s, a, c)
  {
    match a
    case MainStep => MainOwnCells(job, s, c);
    case WorkerStep(t) =>
      assert WorkerOk(job, s, t);
      if s.workers[t].pc.Inserting? {
        InsertingOwnCells(job, s, t, c);
      } else {
        WorkerOwnCells(job, s, t, c);
      }
  }

  lemma MainOwnCells(job: Job, s: State, c: Cell)
    requires Inv(job, s) && MainEnabled(s) && c in MainCells(job, s)
    ensures MayAccess(job, s, MainStep, c)
  {
    if c.LinkOf? {
      RemoveKeeps(s.heap, s.main);
      assert Mine(job, s, s.main.items[0], OfMain);
    }
  }

  lemma WorkerOwnCells(job: Job, s: State, t: nat, c: Cell)
    requires WorkerEnabled(s, t) && WorkerOk(job, s, t) && !s.workers[t].pc.Inserting? && c in WorkerCells(job, s, t)
    ensures MayAccess(job, s, WorkerStep(t), c)
  {
    if s.workers[t].pc.Testing? {
      RemoveKeeps(s.heap, s.workers[t].queue);
      assert Mine(job, s, s.workers[t].queue.items[0], OfWorker(t));
    }
  }

  lemma InsertingOwnCells(job: Job, s: State, t: nat, c: Cell)
    requires SharedOk(job, s) && MutexOk(s) && t < |s.workers| && WorkerOk(job, s, t) && s.workers[t].pc.Inserting?
    requires c in WorkerCells(job, s, t)
    ensures MayAccess(job, s, WorkerStep(t), c)
  {
    var w := s.workers[t];
    if w.pc.andThen.ThenUnlock? {
      assert Publishing(w.pc) && s.mutex == Held(t);
      if c.LinkOf? { InsertOwnCells(job, s, s.shared, w.pc.element, w.pc.stage, c, OfShared); }
    } else {
      InsertOwnCells(job, s, w.queue, w.pc.element, w.pc.stage, c, OfWorker(t));
    }
  }

  lemma CellsApart(job: Job, s: State, a: Action, b: Action)
    requires Inv(job, s) && Enabled(s, a) && Enabled(s, b) && a != b
    ensures Cells(job, s, a) !! Cells(job, s, b)
  {
    forall c | c in Cells(job, s, a) ensures c !in Cells(job, s, b) {
      OwnCells(job, s, a, c);
      if c in Cells(job, s, b) {
        OwnCells(job, s, b, c);
        Exclusive(job, s, a, b, c);
      }
    }
  }

  /** At no point of any run are two threads about to access the same cell. */
  lemma NoRaces(job: Job, s: State, schedule: seq<Action>, a: Action, b: Action)
    requires Initial(job, s) && Runs(job, s, schedule)
    requires Enabled(After(job, s, schedule), a) && Enabled(After(job, s, schedule), b) && a != b
    ensures Cells(job, After(job, s, schedule), a) !! Cells(job, After(job, s, schedule), b)
  {
    InitialInv(job, s);
    RunKeeps(job, s, schedule);
    CellsApart(job, After(job, s, schedule), a, b);
  }
}
