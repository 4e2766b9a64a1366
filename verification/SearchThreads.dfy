/**
 The threads of the parallel searches. One machine covers all three worker functions of mini_grep, which differ only
 in what they do with the path they have dequeued. Queue elements are shared memory: their links are cells of one
 heap, and every write to a link, to the shared queue or to the mutex is a step of its own. The main thread deals its
 queue out and creates the workers one by one, while those already created are running.
 */
module SearchThreads {
  import opened FileTree
  import Dealing

  /** queue_element_t: its address and the path_name it was created with. The link lives in the heap. */
  datatype Element = Element(id: nat, path: string)

  datatype Link = Null | To(element: Element)

  type Heap = map<Element, Link>

  /** queue_t. `items` is the FIFO sequence that the queue is meant to hold; no step reads it. */
  datatype QueueRecord = QueueRecord(head: Link, tail: Link, items: seq<Element>)

  const EMPTY_QUEUE := QueueRecord(Null, Null, [])

  /** Which worker function the threads run. */
  datatype Mode = StaticSearch | FindFiles | SearchFiles

  datatype Job = Job(fs: FileSystem, key: string, mode: Mode, threads: nat)

  /** Who may touch an element's link; history, no step reads it. */
  datatype Owner = OfMain | OfWorker(t: nat) | OfShared

  /** The statements of insert_element: clear the element's link, hang the element onto the queue (which makes it the
      head of an empty one), bring the tail up to date. */
  datatype Stage = Detach | Hang | TailFirst | TailNext

  /** Where a worker goes on after an insertion. */
  datatype Then = ThenSeed(k: nat) | ThenScan(directory: Element, k: nat) | ThenUnlock

  datatype WorkerPc =
    | Unborn
    | Seeding(k: nat)                               // next: insert elements[k] into the own queue
    | Testing                                       // while (queue->head != NULL); remove_element
    | Visiting(current: Element)                    // lstat and what follows
    | Scanning(directory: Element, k: nat)          // next: entry k of the directory
    | Locking(element: Element)                     // pthread_mutex_lock, then insert into the shared queue
    | Inserting(element: Element, stage: Stage, andThen: Then)
    | Unlocking                                     // pthread_mutex_unlock
    | Finishing                                     // RESULTS[thread_id] = num_occurrences
    | Exited

  /** `log` lists the files searched so far; history, no step reads it. */
  datatype Worker = Worker(pc: WorkerPc, elements: seq<Element>, queue: QueueRecord, count: nat, log: seq<string>)

  datatype MainPc =
    | DealTo(i: nat, j: nat)                        // thread i has got j elements
    | Joining(i: nat)
    | Done(total: nat)

  datatype Mutex = Free | Held(t: nat)

  datatype State = State(
    heap: Heap, nextId: nat, owner: map<Element, Owner>,
    main: QueueRecord, mpc: MainPc, numElements: nat, perThread: nat, dealt: nat,
    workers: seq<Worker>, results: seq<nat>,
    shared: QueueRecord, mutex: Mutex)

  // ---------------------------------------------------------------- insert_element, statement by statement

  function HeapAfter(heap: Heap, q: QueueRecord, e: Element, stage: Stage): Heap {
    match stage
    case Detach => heap[e := Null]
    case Hang => if q.head == Null then heap else if q.tail == Null then heap else heap[q.tail.element := To(e)]
    case TailFirst => heap
    case TailNext => heap
  }

  function QueueAfter(heap: Heap, q: QueueRecord, e: Element, stage: Stage): QueueRecord {
    match stage
    case Detach => q
    case Hang => if q.head == Null then q.(head := To(e), items := q.items + [e]) else q.(items := q.items + [e])
    case TailFirst => q.(tail := To(e))
    case TailNext => q.(tail := if q.tail.To? && q.tail.element in heap then heap[q.tail.element] else Null)
  }

  function PcAfter(q: QueueRecord, e: Element, stage: Stage, andThen: Then): WorkerPc {
    match stage
    case Detach => Inserting(e, Hang, andThen)
    case Hang => Inserting(e, if q.head == Null then TailFirst else TailNext, andThen)
    case _ =>
      match andThen
      case ThenSeed(k) => Seeding(k)
      case ThenScan(d, k) => Scanning(d, k)
      case ThenUnlock => Unlocking
  }

  // ---------------------------------------------------------------- the steps

  datatype Action = MainStep | WorkerStep(t: nat)

  predicate MainEnabled(s: State) {
    match s.mpc
    case DealTo(_, _) => true
    case Joining(i) => i < |s.workers| ==> s.workers[i].pc == Exited
    case Done(_) => false
  }

  predicate WorkerEnabled(s: State, t: nat) {
    t < |s.workers| && s.workers[t].pc != Unborn && s.workers[t].pc != Exited
    && (s.workers[t].pc.Locking? ==> s.mutex == Free)
  }

  predicate Enabled(s: State, a: Action) {
    match a
    case MainStep => MainEnabled(s)
    case WorkerStep(t) => WorkerEnabled(s, t)
  }

  /** The state in which the main thread starts to deal: its queue holds n elements, no worker exists. */
  ghost predicate Start(job: Job, s: State) {
    && s.mpc == DealTo(0, 0)
    && s.numElements == |s.main.items| < Dealing.INT_RANGE && 0 < job.threads < Dealing.INT_RANGE
    && s.perThread == Dealing.RoundUp(s.numElements, job.threads) && s.dealt == 0
    && s.workers == seq(job.threads, i => Worker(Unborn, [], EMPTY_QUEUE, 0, []))
    && |s.results| == job.threads
    && s.shared == EMPTY_QUEUE && s.mutex == Free
  }

  function Sum(results: seq<nat>): nat {
    if results == [] then 0 else results[0] + Sum(results[1..])
  }

  function Put(s: State, t: nat, w: Worker): State
    requires t < |s.workers|
  {
    s.(workers := s.workers[t := w])
  }

  /** remove_element by the main thread, into elements[j] of the thread being set up. */
  function Deal(s: State, i: nat, j: nat): State
    requires i < |s.workers| && s.main.head.To?
  {
    var e := s.main.head.element;
    s.(
      workers := s.workers[i := s.workers[i].(elements := s.workers[i].elements + [e])],
      main := s.main.(head := if e in s.heap then s.heap[e] else Null,
                      items := if s.main.items == [] then [] else s.main.items[1..]),
      owner := s.owner[e := OfWorker(i)],
      dealt := s.dealt + 1,
      mpc := DealTo(i, j + 1))
  }

  function MainNext(s: State): State
    requires MainEnabled(s)
  {
    match s.mpc
    case DealTo(i, j) =>
      if i >= |s.workers| then s.(mpc := Joining(0))
      else if j < s.perThread && s.dealt < s.numElements && s.main.head.To? then Deal(s, i, j)
      else s.(workers := s.workers[i := s.workers[i].(pc := Seeding(0))], mpc := DealTo(i + 1, 0))
    case Joining(i) =>
      if i < |s.workers| then s.(mpc := Joining(i + 1)) else s.(mpc := Done(Sum(s.results)))
  }

  /** malloc of an element for a path, by a worker that goes on as w. */
  function Allocate(s: State, t: nat, e: Element, w: Worker): State
    requires t < |s.workers|
  {
    s.(heap := s.heap[e := Null], owner := s.owner[e := OfWorker(t)], nextId := s.nextId + 1, workers := s.workers[t := w])
  }

  function Search(job: Job, w: Worker, path: string): Worker {
    w.(pc := Testing, count := w.count + CountAt(job.fs, job.key, path), log := w.log + [path])
  }

  /** Where a look at an element leads the worker, unless it has to copy it; a file is searched on the spot. */
  function Looked(job: Job, w: Worker, e: Element): Worker {
    match Lookup(job.fs, e.path)
    case Directory(openable, _) => w.(pc := if openable && job.mode != SearchFiles then Scanning(e, 0) else Testing)
    case File(readable, _) => if readable then Search(job, w, e.path) else w.(pc := Testing)
    case _ => w.(pc := Testing)
  }

  /** A regular file is copied for the shared queue by a thread that finds files. */
  predicate Copies(job: Job, e: Element) { Lookup(job.fs, e.path).File? && job.mode == FindFiles }

  function VisitNext(job: Job, s: State, t: nat, e: Element): State
    requires t < |s.workers|
  {
    if Copies(job, e) then
      var copy := Element(s.nextId, e.path);
      Allocate(s, t, copy, s.workers[t].(pc := Locking(copy)))
    else Put(s, t, Looked(job, s.workers[t], e))
  }

  function ScanNext(job: Job, s: State, t: nat, e: Element, k: nat): State
    requires t < |s.workers|
  {
    var w := s.workers[t];
    match Lookup(job.fs, e.path)
    case Directory(_, entries) =>
      if k < |entries| then
        var entry := Element(s.nextId, Child(e.path, entries[k].name));
        Allocate(s, t, entry, w.(pc := Inserting(entry, Detach, ThenScan(e, k + 1))))
      else Put(s, t, w.(pc := Testing))
    case _ => Put(s, t, w.(pc := Testing))
  }

  function InsertNext(s: State, t: nat, e: Element, stage: Stage, andThen: Then): State
    requires t < |s.workers|
  {
    var w := s.workers[t];
    if andThen.ThenUnlock? then
      s.(
        workers := s.workers[t := w.(pc := PcAfter(s.shared, e, stage, andThen))],
        heap := HeapAfter(s.heap, s.shared, e, stage), shared := QueueAfter(s.heap, s.shared, e, stage),
        owner := if stage == Hang then s.owner[e := OfShared] else s.owner)
    else
      s.(
        workers := s.workers[t := w.(pc := PcAfter(w.queue, e, stage, andThen), queue := QueueAfter(s.heap, w.queue, e, stage))],
        heap := HeapAfter(s.heap, w.queue, e, stage))
  }

  function TestNext(s: State, t: nat): State
    requires t < |s.workers|
  {
    var w := s.workers[t];
    if w.queue.head == Null then Put(s, t, w.(pc := Finishing))
    else
      var e := w.queue.head.element;
      Put(s, t, w.(pc := Visiting(e),
                   queue := w.queue.(head := if e in s.heap then s.heap[e] else Null,
                                     items := if w.queue.items == [] then [] else w.queue.items[1..])))
  }

  function WorkerNext(job: Job, s: State, t: nat): State
    requires WorkerEnabled(s, t)
  {
    var w := s.workers[t];
    match w.pc
    case Seeding(k) =>
      Put(s, t, w.(pc := if k < |w.elements| then Inserting(w.elements[k], Detach, ThenSeed(k + 1)) else Testing))
    case Testing => TestNext(s, t)
    case Visiting(e) => VisitNext(job, s, t, e)
    case Scanning(e, k) => ScanNext(job, s, t, e, k)
    case Locking(e) => s.(workers := s.workers[t := w.(pc := Inserting(e, Detach, ThenUnlock))], mutex := Held(t))
    case Inserting(e, stage, andThen) => InsertNext(s, t, e, stage, andThen)
    case Unlocking => s.(workers := s.workers[t := w.(pc := Testing)], mutex := Free)
    case Finishing =>
      s.(
        workers := s.workers[t := w.(pc := Exited)],
        results := if job.mode != FindFiles && t < |s.results| then s.results[t := w.count] else s.results)
  }

  function Next(job: Job, s: State, a: Action): State
    requires Enabled(s, a)
  {
    match a
    case MainStep => MainNext(s)
    case WorkerStep(t) => WorkerNext(job, s, t)
  }

  predicate Runs(job: Job, s: State, schedule: seq<Action>)
    decreases |schedule|
  {
    schedule == [] || (Enabled(s, schedule[0]) && Runs(job, Next(job, s, schedule[0]), schedule[1..]))
  }

  function After(job: Job, s: State, schedule: seq<Action>): State
    requires Runs(job, s, schedule)
    decreases |schedule|
  {
    if schedule == [] then s else After(job, Next(job, s, schedule[0]), schedule[1..])
  }
}
