/**
 What every interleaving of the searching threads keeps: all queues stay well linked, no element is in two places,
 and nobody writes a link that is somebody else's.
 */
module SearchInvariant {
  import opened FileTree
  import opened SearchThreads
  import Dealing

  // ---------------------------------------------------------------- one queue

  function LinkAfter(items: seq<Element>, i: nat): Link {
    if i + 1 < |items| then To(items[i + 1]) else Null
  }

  /** Head and links spell out the items. */
  predicate Linked(heap: Heap, q: QueueRecord) {
    && (q.head == if |q.items| > 0 then To(q.items[0]) else Null)
    && (forall i | 0 <= i < |q.items| :: q.items[i] in heap)
    && (forall i {:trigger heap[q.items[i]]} | 0 <= i < |q.items| :: heap[q.items[i]] == LinkAfter(q.items, i))
    && (forall i, j | 0 <= i < j < |q.items| :: q.items[i] != q.items[j])
  }

  /** A non-empty queue knows its last element; the tail of an empty one is stale. */
  predicate Ready(heap: Heap, q: QueueRecord) {
    Linked(heap, q) && (|q.items| > 0 ==> q.tail == To(q.items[|q.items| - 1]))
  }

  /** A queue in the middle of insert_element(e), before the given statement. */
  predicate MidInsert(heap: Heap, q: QueueRecord, e: Element, stage: Stage) {
    && e in heap
    && match stage
       case Detach => Ready(heap, q) && e !in q.items
       case Hang => Ready(heap, q) && e !in q.items && heap[e] == Null
       case TailFirst => Linked(heap, q) && q.items == [e]
       case TailNext =>
         && Linked(heap, q) && |q.items| >= 2 && q.items[|q.items| - 1] == e
         && q.tail == To(q.items[|q.items| - 2])
  }

  predicate AtTail(stage: Stage) { stage.TailFirst? || stage.TailNext? }

  function StageAfter(q: QueueRecord, stage: Stage): Stage {
    match stage
    case Detach => Hang
    case Hang => if q.head == Null then TailFirst else TailNext
    case _ => stage
  }

  lemma DetachKeeps(heap: Heap, q: QueueRecord, e: Element)
    requires MidInsert(heap, q, e, Detach)
    ensures MidInsert(HeapAfter(heap, q, e, Detach), q, e, Hang)
  {
  }

  lemma HangKeeps(heap: Heap, q: QueueRecord, e: Element)
    requires MidInsert(heap, q, e, Hang)
    ensures MidInsert(HeapAfter(heap, q, e, Hang), QueueAfter(heap, q, e, Hang), e, StageAfter(q, Hang))
    ensures QueueAfter(heap, q, e, Hang).items == q.items + [e]
  {
    var q', heap' := QueueAfter(heap, q, e, Hang), HeapAfter(heap, q, e, Hang);
    forall i | 0 <= i < |q'.items| ensures q'.items[i] in heap' && heap'[q'.items[i]] == LinkAfter(q'.items, i) {
      if i < |q.items| { assert q'.items[i] == q.items[i]; }
    }
  }

  lemma TailKeeps(heap: Heap, q: QueueRecord, e: Element, stage: Stage)
    requires AtTail(stage) && MidInsert(heap, q, e, stage)
    ensures HeapAfter(heap, q, e, stage) == heap
    ensures Ready(heap, QueueAfter(heap, q, e, stage)) && QueueAfter(heap, q, e, stage).items == q.items
  {
    if stage.TailNext? {
      assert heap[q.items[|q.items| - 2]] == LinkAfter(q.items, |q.items| - 2);
    }
  }

  /** The whole of insert_element, uninterrupted: the queue with its stale tail is a FIFO sequence. */
  lemma InsertIsAppend(heap: Heap, q: QueueRecord, e: Element)
    requires Ready(heap, q) && e in heap && e !in q.items
    ensures var heap1 := HeapAfter(heap, q, e, Detach);
            var heap2, q2, stage := HeapAfter(heap1, q, e, Hang), QueueAfter(heap1, q, e, Hang), StageAfter(q, Hang);
            var q3 := QueueAfter(heap2, q2, e, stage);
            Ready(heap2, q3) && q3.items == q.items + [e]
  {
    DetachKeeps(heap, q, e);
    var heap1 := HeapAfter(heap, q, e, Detach);
    HangKeeps(heap1, q, e);
    TailKeeps(HeapAfter(heap1, q, e, Hang), QueueAfter(heap1, q, e, Hang), e, StageAfter(q, Hang));
  }

  /** remove_element */
  function RemoveHead(heap: Heap, q: QueueRecord): QueueRecord
    requires q.head.To?
  {
    q.(head := if q.head.element in heap then heap[q.head.element] else Null,
       items := if q.items == [] then [] else q.items[1..])
  }

  lemma RemoveKeeps(heap: Heap, q: QueueRecord)
    requires Ready(heap, q) && q.head.To?
    ensures q.items != [] && q.head.element == q.items[0]
    ensures Ready(heap, RemoveHead(heap, q)) && RemoveHead(heap, q).items == q.items[1..]
    ensures q.items[0] !in RemoveHead(heap, q).items
  {
    assert heap[q.items[0]] == LinkAfter(q.items, 0);
    forall i | 0 <= i < |q.items[1..]| ensures heap[q.items[1..][i]] == LinkAfter(q.items[1..], i) {
      assert heap[q.items[i + 1]] == LinkAfter(q.items, i + 1);
    }
  }

  /** Queues only depend on the links of their own elements. */
  predicate SameLinks(heap: Heap, heap': Heap, items: seq<Element>) {
    forall i | 0 <= i < |items| :: items[i] in heap && items[i] in heap' && heap'[items[i]] == heap[items[i]]
  }

  lemma QueueFrame(heap: Heap, heap': Heap, q: QueueRecord)
    requires SameLinks(heap, heap', q.items)
    ensures Linked(heap, q) ==> Linked(heap', q)
    ensures Ready(heap, q) ==> Ready(heap', q)
  {
  }

  lemma MidInsertFrame(heap: Heap, heap': Heap, q: QueueRecord, e: Element, stage: Stage)
    requires MidInsert(heap, q, e, stage) && SameLinks(heap, heap', q.items)
    requires e in heap' && heap'[e] == heap[e]
    ensures MidInsert(heap', q, e, stage)
  {
    QueueFrame(heap, heap', q);
  }

  // ---------------------------------------------------------------- one worker

  /** An element that is this owner's, and that this job can process. */
  predicate Mine(job: Job, s: State, e: Element, o: Owner) {
    && e in s.heap && e in s.owner && s.owner[e] == o
    && (job.mode == SearchFiles ==> Lookup(job.fs, e.path).File?)
  }

  predicate AllMine(job: Job, s: State, items: seq<Element>, o: Owner) {
    forall i | 0 <= i < |items| :: Mine(job, s, items[i], o)
  }

  /** The elements dealt to a worker that it has not begun to insert. */
  function Pending(w: Worker): seq<Element> {
    match w.pc
    case Unborn => w.elements
    case Seeding(k) => if k <= |w.elements| then w.elements[k..] else []
    case Inserting(_, _, ThenSeed(k)) => if k <= |w.elements| then w.elements[k..] else []
    case _ => []
  }

  /** The next element to be inserted is no longer pending. */
  lemma PendingSeed(w: Worker, k: nat)
    requires w.pc == Seeding(k) && k < |w.elements|
    ensures var w' := w.(pc := Inserting(w.elements[k], Detach, ThenSeed(k + 1)));
            Pending(w) == [w.elements[k]] + Pending(w') && Pending(w') == Pending(w)[1..]
  {
  }

  predicate Publishing(pc: WorkerPc) {
    (pc.Inserting? && pc.andThen.ThenUnlock?) || pc.Unlocking?
  }

  predicate IsScannable(job: Job, e: Element, k: nat) {
    && job.mode != SearchFiles
    && Under(job.fs, e.path)
    && Lookup(job.fs, e.path).Directory? && Lookup(job.fs, e.path).openable
    && k <= |Lookup(job.fs, e.path).entries|
  }

  /** What a worker's position says about its element in hand and about its queue. */
  predicate Position(job: Job, s: State, w: Worker, me: Owner) {
    match w.pc
    case Unborn => w.queue == EMPTY_QUEUE && w.log == [] && w.count == 0
    case Seeding(k) => Ready(s.heap, w.queue) && k <= |w.elements|
    case Testing => Ready(s.heap, w.queue)
    case Visiting(e) =>
      Ready(s.heap, w.queue) && Under(job.fs, e.path) && (job.mode == SearchFiles ==> Lookup(job.fs, e.path).File?)
    case Scanning(e, k) => Ready(s.heap, w.queue) && IsScannable(job, e, k)
    case Locking(e) =>
      && Ready(s.heap, w.queue) && job.mode == FindFiles
      && Mine(job, s, e, me) && e !in w.queue.items && Lookup(job.fs, e.path).File?
    case Inserting(e, stage, andThen) =>
      if andThen.ThenUnlock? then
        && Ready(s.heap, w.queue) && MidInsert(s.heap, s.shared, e, stage) && job.mode == FindFiles
        && Mine(job, s, e, if AtTail(stage) then OfShared else me) && e !in w.queue.items && Lookup(job.fs, e.path).File?
      else
        && MidInsert(s.heap, w.queue, e, stage) && Mine(job, s, e, me) && e !in Pending(w)
        && (andThen.ThenSeed? ==> andThen.k <= |w.elements|)
        && (andThen.ThenScan? ==> IsScannable(job, andThen.directory, andThen.k))
    case Unlocking => Ready(s.heap, w.queue)
    case Finishing => Ready(s.heap, w.queue) && w.queue.items == []
    case Exited => w.queue.items == []
  }

  predicate WorkerOk(job: Job, s: State, t: nat)
    requires t < |s.workers|
  {
    var w := s.workers[t];
    && AllMine(job, s, Pending(w), OfWorker(t)) && AllMine(job, s, w.queue.items, OfWorker(t))
    && (forall i, j | 0 <= i < j < |Pending(w)| :: Pending(w)[i] != Pending(w)[j])
    && (forall i | 0 <= i < |Pending(w)| :: Pending(w)[i] !in w.queue.items)
    && Position(job, s, w, OfWorker(t))
    && w.count == SumAt(job.fs, job.key, w.log)
    && (job.mode == FindFiles ==> w.log == [])
  }

  // ---------------------------------------------------------------- the whole system

  predicate HeapOk(job: Job, s: State) {
    && s.owner.Keys == s.heap.Keys
    && (forall e | e in s.heap :: e.id < s.nextId && Under(job.fs, e.path))
  }

  predicate MainOk(job: Job, s: State) {
    Ready(s.heap, s.main) && AllMine(job, s, s.main.items, OfMain)
  }

  predicate SharedOk(job: Job, s: State) {
    && AllMine(job, s, s.shared.items, OfShared)
    && (forall i | 0 <= i < |s.shared.items| :: Lookup(job.fs, s.shared.items[i].path).File?)
    && (s.mutex == Free ==> Ready(s.heap, s.shared))
    && (job.mode != FindFiles ==> s.shared == EMPTY_QUEUE)
  }

  /** The mutex is held exactly by the worker that is publishing. */
  predicate MutexOk(s: State) {
    && (s.mutex.Held? ==> s.mutex.t < |s.workers|)
    && (forall t | 0 <= t < |s.workers| :: Publishing(s.workers[t].pc) <==> s.mutex == Held(t))
    && (s.mutex.Held? && s.workers[s.mutex.t].pc.Unlocking? ==> Ready(s.heap, s.shared))
  }

  function Smaller(a: nat, b: nat): nat { if a < b then a else b }

  predicate ControlOk(job: Job, s: State) {
    && |s.workers| == |s.results| == job.threads
    && s.dealt + |s.main.items| == s.numElements <= Dealing.Quota(job.threads, s.perThread)
    && match s.mpc
       case DealTo(i, j) =>
         && i <= job.threads && j <= s.perThread && (i == job.threads ==> j == 0)
         && s.dealt == Smaller(s.numElements, Dealing.Quota(i, s.perThread) + j)
         && (forall t | 0 <= t < i :: s.workers[t].pc != Unborn)
         && (forall t | i <= t < job.threads :: s.workers[t].pc == Unborn)
         && (forall t | 0 <= t < job.threads :: |s.workers[t].elements| <= if t == i then j else s.perThread)
         && (forall t | i < t < job.threads :: s.workers[t].elements == [])
       case Joining(i) =>
         && i <= job.threads && s.main.items == []
         && (forall t | 0 <= t < job.threads :: s.workers[t].pc != Unborn && |s.workers[t].elements| <= s.perThread)
         && (forall t | 0 <= t < i :: s.workers[t].pc == Exited)
       case Done(total) =>
         && s.main.items == [] && total == Sum(s.results)
         && (forall t | 0 <= t < job.threads :: s.workers[t].pc == Exited && |s.workers[t].elements| <= s.perThread)
  }

  predicate ResultsOk(job: Job, s: State)
    requires |s.results| == |s.workers|
  {
    job.mode != FindFiles ==>
      forall t | 0 <= t < |s.workers| && s.workers[t].pc == Exited :: s.results[t] == s.workers[t].count
  }

  predicate Inv(job: Job, s: State) {
    && WellFormed(job.fs.root)
    && HeapOk(job, s) && MainOk(job, s) && SharedOk(job, s) && MutexOk(s) && ControlOk(job, s) && ResultsOk(job, s)
    && forall t | 0 <= t < |s.workers| :: WorkerOk(job, s, t)
  }

  /** The start of a search: everything in the heap is a node of the tree, what is queued is linked and the main thread's. */
  ghost predicate Initial(job: Job, s: State) {
    && WellFormed(job.fs.root)
    && Start(job, s) && HeapOk(job, s) && MainOk(job, s)
  }

  lemma InitialInv(job: Job, s: State)
    requires Initial(job, s)
    ensures Inv(job, s)
  {
    Dealing.QuotaCovers(s.numElements, job.threads);
  }
}
