/** parallel_search_static and parallel_search_dynamic count what serial_search counts, however the threads interleave. */
module ParallelSearch {
  import opened FileTree
  import opened SearchThreads
  import opened SearchInvariant
  import opened SearchSteps
  import opened SearchConservation
  import opened SearchTermination
  import SerialSearch
  import Dealing

  /** What the main thread gets out of lstat and opendir on the starting path, short of undefined behaviour: an existing
      node, and a directory only if it can be opened. */
  predicate StartsDefined(fs: FileSystem) {
    !fs.root.Gone? && (fs.root.Directory? ==> fs.root.openable)
  }

  function QueuedPaths(items: seq<Element>): seq<string> {
    seq(|items|, i requires 0 <= i < |items| => items[i].path)
  }

  /** The main thread has queued the entries of the starting directory. A start that is no directory leaves the queue empty. */
  ghost predicate Queued(job: Job, s: State) {
    Initial(job, s) && QueuedPaths(s.main.items) == SerialSearch.Kids(job.fs, job.fs.rootPath)
  }

  /** So many elements can be counted, and fit into the threads' arrays of 4096 elements. */
  predicate Room(n: nat, threads: nat) { n < Dealing.INT_RANGE && n <= 4096 * threads }

  /** There is room for the entries of the starting directory. */
  predicate EntriesFit(fs: FileSystem, threads: nat) { Room(|SerialSearch.Kids(fs, fs.rootPath)|, threads) }

  /** The searched files of a start: all of them below a directory, none otherwise. */
  function ToSearch(fs: FileSystem): seq<string> {
    if fs.root.Directory? then Files(fs.rootPath, fs.root) else []
  }

  /** There is room for all regular files below it, readable or not. */
  predicate FilesFit(fs: FileSystem, threads: nat) { Room(|ToSearch(Unlocked(fs))|, threads) }

  ghost predicate Begins(job: Job, s: State) { Queued(job, s) && EntriesFit(job.fs, job.threads) }

  // ---------------------------------------------------------------- what there is to search at the start

  lemma {:induction false} KidsFiles(fs: FileSystem, q: string, items: seq<Element>, k: nat)
    requires WellFormed(fs.root) && fs.root.Directory? && fs.root.openable
    requires QueuedPaths(items) == SerialSearch.Kids(fs, fs.rootPath) && k <= |items|
    ensures FilesOf(fs, q, items[k..]) == Times(q, FilesBelow(fs.rootPath, fs.root.entries[k..]))
    decreases |items| - k
  {
    LookupRoot(fs);
    assert |items| == |QueuedPaths(items)| == |fs.root.entries|;
    if k < |items| {
      assert items[k].path == QueuedPaths(items)[k] == Child(fs.rootPath, fs.root.entries[k].name);
      LookupChild(fs, fs.rootPath, k);
      KidsFiles(fs, q, items, k + 1);
    }
  }

  lemma BeginsWithAll(job: Job, q: string, s: State)
    requires Queued(job, s) && StartsDefined(job.fs)
    ensures Everything(job, q, s) == Times(q, ToSearch(job.fs))
  {
    InitialHoldings(job, q, s);
    LookupRoot(job.fs);
    if job.fs.root.Directory? {
      KidsFiles(job.fs, q, s.main.items, 0);
      assert s.main.items[0..] == s.main.items && job.fs.root.entries[0..] == job.fs.root.entries;
    } else {
      assert |QueuedPaths(s.main.items)| == 0;
    }
  }

  /** No file is to be searched twice. */
  lemma ToSearchOnce(fs: FileSystem, q: string)
    requires WellFormed(fs.root)
    ensures Times(q, ToSearch(fs)) == if q in ToSearch(fs) then 1 else 0
  {
    FilesDistinct(fs, q);
    assert q in multiset(ToSearch(fs)) <==> q in ToSearch(fs);
  }

  lemma SameTimes(a: seq<string>, b: seq<string>)
    requires forall q :: Times(q, a) == Times(q, b)
    ensures multiset(a) == multiset(b)
  {
    forall q ensures multiset(a)[q] == multiset(b)[q] { assert Times(q, a) == Times(q, b); }
  }

  // ---------------------------------------------------------------- parallel_search_static

  ghost predicate Leads(job: Job, s: State, schedule: seq<Action>, f: State) {
    Runs(job, s, schedule) && After(job, s, schedule) == f
  }

  /** A run after which the main thread has its result. */
  ghost predicate Completes(job: Job, s: State, schedule: seq<Action>, f: State) {
    Leads(job, s, schedule, f) && f.mpc.Done?
  }

  /** Whatever the interleaving, when parallel_search_static returns, every reachable readable file below the start has been
      searched by exactly one thread, exactly once, and the sum of RESULTS is what serial_search counts there. */
  lemma StaticAgrees(job: Job, s: State, schedule: seq<Action>, f: State)
    requires job.mode == StaticSearch && Begins(job, s) && StartsDefined(job.fs) && Completes(job, s, schedule, f)
    ensures multiset(Logs(f.workers)) == multiset(ToSearch(job.fs))
    ensures forall q :: multiset(Logs(f.workers))[q] == if q in ToSearch(job.fs) then 1 else 0
    ensures f.mpc.total == if job.fs.root.Directory? then Occurrences(job.fs, job.key) else 0
    ensures f.mpc.total == if job.fs.root.Directory? then Tally(job.fs.root, job.key) else 0
  {
    InitialInv(job, s);
    forall q ensures Times(q, Logs(f.workers)) == Times(q, ToSearch(job.fs)) {
      RunConserves(job, q, s, schedule);
      BeginsWithAll(job, q, s);
      DoneHoldings(job, q, f);
    }
    forall q ensures multiset(Logs(f.workers))[q] == if q in ToSearch(job.fs) then 1 else 0 {
      ToSearchOnce(job.fs, q);
      assert Times(q, Logs(f.workers)) == Times(q, ToSearch(job.fs));
    }
    RunConserves(job, "", s, schedule);
    DoneHoldings(job, "", f);
    SameTimes(Logs(f.workers), ToSearch(job.fs));
    SumPermutes(job.fs, job.key, Logs(f.workers), ToSearch(job.fs));
    OccurrencesAreTally(job.fs, job.key);
  }

  /** It agrees with serial_search exactly when the start is not itself a readable file containing the key. */
  lemma StaticAgreesIff(job: Job, s: State, schedule: seq<Action>, f: State)
    requires job.mode == StaticSearch && Begins(job, s) && StartsDefined(job.fs) && Completes(job, s, schedule, f)
    ensures f.mpc.total == Occurrences(job.fs, job.key) <==>
              !(job.fs.root.File? && job.fs.root.readable && CountAt(job.fs, job.key, job.fs.rootPath) > 0)
  {
    StaticAgrees(job, s, schedule, f);
    StartOccurrences(job.fs, job.key);
  }

  lemma StartOccurrences(fs: FileSystem, key: string)
    ensures !fs.root.Directory? ==>
              Occurrences(fs, key) == if fs.root.File? && fs.root.readable then CountAt(fs, key, fs.rootPath) else 0
  {
    if fs.root.File? && fs.root.readable {
      assert Files(fs.rootPath, fs.root) == [fs.rootPath];
      assert SumAt(fs, key, [fs.rootPath]) == CountAt(fs, key, fs.rootPath) + SumAt(fs, key, []);
    }
  }

  // ---------------------------------------------------------------- parallel_search_dynamic

  /** The second phase of a dynamic search whose first phase is the given job. */
  function Searching(job: Job): Job { job.(mode := SearchFiles) }

  /** After joining the file threads the main thread deals out the shared queue they have filled. */
  ghost predicate GoesOn(job: Job, f: State, s: State) {
    && Start(job, s) && s.main == f.shared && s.heap == f.heap && s.nextId == f.nextId
    && s.owner.Keys == f.owner.Keys
    && (forall i | 0 <= i < |f.shared.items| && f.shared.items[i] in s.owner :: s.owner[f.shared.items[i]] == OfMain)
  }

  /** The second phase starts in order: the shared queue is well linked, and holds regular files only. */
  lemma SecondPhaseBegins(job: Job, f: State, s: State)
    requires job.mode == FindFiles && Inv(job, f) && f.mpc.Done? && GoesOn(Searching(job), f, s)
    ensures Initial(Searching(job), s)
  {
    forall t | 0 <= t < |f.workers| ensures f.mutex != Held(t) {
      assert Publishing(f.workers[t].pc) <==> f.mutex == Held(t);
    }
    forall i | 0 <= i < |s.main.items| ensures Mine(Searching(job), s, s.main.items[i], OfMain) {
      assert Mine(job, f, f.shared.items[i], OfShared);
    }
  }

  /** The file threads have run from s1 to f, the search threads from s2 to g. */
  ghost predicate CompletesBoth(
    job: Job, s1: State, find: seq<Action>, f: State, s2: State, search: seq<Action>, g: State)
  {
    && job.mode == FindFiles && Begins(job, s1) && FilesFit(job.fs, job.threads) && Completes(job, s1, find, f)
    && GoesOn(Searching(job), f, s2) && Completes(Searching(job), s2, search, g)
  }

  /** Whatever the interleaving of the file threads and then of the search threads, when parallel_search_dynamic returns,
      every reachable readable file below the start has been searched exactly once, and the sum of RESULTS is what
      serial_search counts there. */
  lemma DynamicAgrees(job: Job, s1: State, find: seq<Action>, f: State, s2: State, search: seq<Action>, g: State)
    requires CompletesBoth(job, s1, find, f, s2, search, g) && StartsDefined(job.fs)
    ensures multiset(Logs(g.workers)) == multiset(ToSearch(job.fs))
    ensures forall q :: multiset(Logs(g.workers))[q] == if q in ToSearch(job.fs) then 1 else 0
    ensures g.mpc.total == if job.fs.root.Directory? then Occurrences(job.fs, job.key) else 0
    ensures g.mpc.total == if job.fs.root.Directory? then Tally(job.fs.root, job.key) else 0
  {
    forall q ensures Times(q, Logs(g.workers)) == Times(q, ToSearch(job.fs)) {
      FirstPhase(job, q, s1, find, f);
      SecondPhase(job, q, f, s2, search, g);
    }
    forall q ensures multiset(Logs(g.workers))[q] == if q in ToSearch(job.fs) then 1 else 0 {
      ToSearchOnce(job.fs, q);
      assert Times(q, Logs(g.workers)) == Times(q, ToSearch(job.fs));
    }
    FirstPhase(job, "", s1, find, f);
    SecondPhase(job, "", f, s2, search, g);
    SameTimes(Logs(g.workers), ToSearch(job.fs));
    SumPermutes(job.fs, job.key, Logs(g.workers), ToSearch(job.fs));
    OccurrencesAreTally(job.fs, job.key);
  }

  /** It agrees with serial_search on the same starts as the static form. */
  lemma DynamicAgreesIff(job: Job, s1: State, find: seq<Action>, f: State, s2: State, search: seq<Action>, g: State)
    requires CompletesBoth(job, s1, find, f, s2, search, g) && StartsDefined(job.fs)
    ensures g.mpc.total == Occurrences(job.fs, job.key) <==>
              !(job.fs.root.File? && job.fs.root.readable && CountAt(job.fs, job.key, job.fs.rootPath) > 0)
  {
    DynamicAgrees(job, s1, find, f, s2, search, g);
    StartOccurrences(job.fs, job.key);
  }

  lemma FirstPhase(job: Job, q: string, s: State, find: seq<Action>, f: State)
    requires job.mode == FindFiles && Queued(job, s) && StartsDefined(job.fs) && Completes(job, s, find, f)
    ensures Inv(job, f) && FilesOf(job.fs, q, f.shared.items) == Times(q, ToSearch(job.fs))
  {
    InitialInv(job, s);
    RunConserves(job, q, s, find);
    BeginsWithAll(job, q, s);
    DoneHoldings(job, q, f);
  }

  lemma SecondPhase(job: Job, q: string, f: State, s: State, search: seq<Action>, g: State)
    requires job.mode == FindFiles && Inv(job, f) && f.mpc.Done? && GoesOn(Searching(job), f, s)
    requires Completes(Searching(job), s, search, g)
    ensures Times(q, Logs(g.workers)) == FilesOf(job.fs, q, f.shared.items)
    ensures g.mpc.total == SumAt(job.fs, job.key, Logs(g.workers))
  {
    SecondPhaseBegins(job, f, s);
    InitialInv(Searching(job), s);
    InitialHoldings(Searching(job), q, s);
    RunConserves(Searching(job), q, s, search);
    DoneHoldings(Searching(job), q, g);
  }

  // ---------------------------------------------------------------- the elements migrate safely

  lemma WorkerMigrates(job: Job, s: State, t: nat)
    requires Inv(job, s) && WorkerEnabled(s, t)
    ensures var s' := WorkerNext(job, s, t);
            s'.main == s.main && SameLinks(s.heap, s'.heap, s.main.items) && Ready(s'.heap, s'.main)
  {
    StepFootprint(job, s, t);
    AllMineFrame(job, s, WorkerNext(job, s, t), s.main.items, OfMain);
    QueueFrame(s.heap, WorkerNext(job, s, t).heap, s.main);
  }

  lemma MainMigrates(s: State)
    requires Ready(s.heap, s.main) && MainEnabled(s)
    ensures var s' := MainNext(s);
            s'.heap == s.heap && Ready(s'.heap, s'.main) && (s'.main == s.main || s'.main.items == s.main.items[1..])
  {
    if s.main.head.To? { RemoveKeeps(s.heap, s.main); }
  }

  /** While workers insert, relink and remove the elements dealt to them, the queue the main thread is still dealing from
      keeps its links, its head and its FIFO contents; dealing in turn changes no link at all, so what the workers
      hold is not disturbed either. */
  lemma ElementsMigrateSafely(job: Job, s: State, a: Action)
    requires Inv(job, s) && Enabled(s, a)
    ensures var s' := Next(job, s, a);
            && Ready(s'.heap, s'.main)
            && (a.WorkerStep? ==> s'.main == s.main && SameLinks(s.heap, s'.heap, s.main.items))
            && (a.MainStep? ==> s'.heap == s.heap && (s'.main == s.main || s'.main.items == s.main.items[1..]))
  {
    match a
    case WorkerStep(t) => WorkerMigrates(job, s, t);
    case MainStep => MainMigrates(s);
  }

  /** What has been dealt so far, in thread order. */
  function DealtOut(ws: seq<Worker>): seq<Element> {
    if ws == [] then [] else DealtOut(ws[..|ws| - 1]) + ws[|ws| - 1].elements
  }

  lemma {:induction false} SameDealtOut(ws: seq<Worker>, ws': seq<Worker>)
    requires |ws'| == |ws| && forall t | 0 <= t < |ws| :: ws'[t].elements == ws[t].elements
    ensures DealtOut(ws') == DealtOut(ws)
  {
    if ws == [] {
    } else {
      SameDealtOut(ws[..|ws| - 1], ws'[..|ws| - 1]);
    }
  }

  /** One element more for the last thread that has any. */
  lemma {:induction false} DealtOneMore(ws: seq<Worker>, ws': seq<Worker>, i: nat, e: Element)
    requires |ws'| == |ws| && i < |ws| && ws'[i].elements == ws[i].elements + [e]
    requires forall t | 0 <= t < |ws| && t != i :: ws'[t].elements == ws[t].elements
    requires forall t | i < t < |ws| :: ws[t].elements == []
    ensures DealtOut(ws') == DealtOut(ws) + [e]
  {
    var n := |ws| - 1;
    if i == n {
      SameDealtOut(ws[..n], ws'[..n]);
    } else {
      DealtOneMore(ws[..n], ws'[..n], i, e);
    }
  }

  lemma StepDeals(job: Job, s: State, a: Action)
    requires Inv(job, s) && Enabled(s, a)
    ensures var s' := Next(job, s, a);
            DealtOut(s'.workers) + s'.main.items == DealtOut(s.workers) + s.main.items
  {
    match a
    case WorkerStep(t) =>
      StepFootprint(job, s, t);
      SameDealtOut(s.workers, Next(job, s, a).workers);
    case MainStep => MainDeals(job, s);
  }

  lemma PassOn(before: seq<Element>, items: seq<Element>)
    requires items != []
    ensures (before + [items[0]]) + items[1..] == before + items
  {
  }

  lemma DealDeals(s: State, i: nat, j: nat)
    requires Ready(s.heap, s.main) && s.mpc == DealTo(i, j) && i < |s.workers| && s.main.head.To?
    requires forall t | i < t < |s.workers| :: s.workers[t].elements == []
    ensures DealtOut(Deal(s, i, j).workers) + Deal(s, i, j).main.items == DealtOut(s.workers) + s.main.items
  {
    RemoveKeeps(s.heap, s.main);
    DealtOneMore(s.workers, Deal(s, i, j).workers, i, s.main.items[0]);
    PassOn(DealtOut(s.workers), s.main.items);
  }

  lemma MainDeals(job: Job, s: State)
    requires Inv(job, s) && MainEnabled(s)
    ensures DealtOut(MainNext(s).workers) + MainNext(s).main.items == DealtOut(s.workers) + s.main.items
  {
    if s.mpc.DealTo? && s.mpc.i < |s.workers| && s.mpc.j < s.perThread && s.dealt < s.numElements {
      DealKeeps(job, s, s.mpc.i, s.mpc.j);
      DealDeals(s, s.mpc.i, s.mpc.j);
    } else {
      assert MainNext(s).main == s.main;
      SameDealtOut(s.workers, MainNext(s).workers);
    }
  }

  /** Dealing loses, repeats and reorders nothing, although the threads relink the elements dealt to them meanwhile: at any
      point of any run what the threads have been dealt, in thread order, followed by what is still queued, is the queue
      that the main thread started with. */
  lemma {:induction false} DealsInOrder(job: Job, s: State, schedule: seq<Action>)
    requires Inv(job, s) && Runs(job, s, schedule)
    ensures var f := After(job, s, schedule); DealtOut(f.workers) + f.main.items == DealtOut(s.workers) + s.main.items
    decreases |schedule|
  {
    if schedule == [] {
    } else {
      StepKeeps(job, s, schedule[0]);
      StepDeals(job, s, schedule[0]);
      DealsInOrder(job, Next(job, s, schedule[0]), schedule[1..]);
    }
  }

  lemma {:induction false} NothingDealt(ws: seq<Worker>)
    requires forall t | 0 <= t < |ws| :: ws[t].elements == []
    ensures DealtOut(ws) == []
  {
    if ws == [] {
    } else {
      NothingDealt(ws[..|ws| - 1]);
    }
  }

  lemma DealtFromStart(job: Job, s: State, schedule: seq<Action>, f: State)
    requires Initial(job, s) && Leads(job, s, schedule, f)
    ensures DealtOut(f.workers) + f.main.items == s.main.items
    ensures f.mpc.Joining? || f.mpc.Done? ==> DealtOut(f.workers) == s.main.items
  {
    StartDealt(job, s);
    InitialInv(job, s);
    AllDealt(job, s, schedule, f);
  }

  lemma StartDealt(job: Job, s: State)
    requires Initial(job, s)
    ensures DealtOut(s.workers) + s.main.items == s.main.items
  {
    NothingDealt(s.workers);
  }

  lemma AllDealt(job: Job, s: State, schedule: seq<Action>, f: State)
    requires Inv(job, s) && Leads(job, s, schedule, f) && DealtOut(s.workers) + s.main.items == s.main.items
    ensures DealtOut(f.workers) + f.main.items == s.main.items
    ensures f.mpc.Joining? || f.mpc.Done? ==> DealtOut(f.workers) == s.main.items
  {
    DealsInOrder(job, s, schedule);
    RunKeeps(job, s, schedule);
    NothingLeft(job, f);
  }

  lemma NothingLeft(job: Job, f: State)
    requires Inv(job, f)
    ensures f.mpc.Joining? || f.mpc.Done? ==> DealtOut(f.workers) + f.main.items == DealtOut(f.workers)
  {
  }

  predicate ElementsFit(s: State) {
    forall t | 0 <= t < |s.workers| :: |s.workers[t].elements| <= 4096
  }

  /** No thread's array of elements is ever written beyond its end, in any run, exactly when there are at most 4096 elements
      per thread to be dealt. */
  lemma BlocksFit(job: Job, s: State)
    requires Initial(job, s)
    ensures (forall schedule | Runs(job, s, schedule) :: ElementsFit(After(job, s, schedule))) <==>
              s.numElements <= 4096 * job.threads
  {
    if s.numElements <= 4096 * job.threads {
      forall schedule | Runs(job, s, schedule) ensures ElementsFit(After(job, s, schedule)) {
        AlwaysFits(job, s, schedule);
      }
    } else {
      Dealing.BlocksFitIff(s.numElements, job.threads);
      ManyElements(s.numElements, job.threads);
      var schedule := DealsOn(job, s, 4097);
      assert !ElementsFit(After(job, s, schedule));
    }
  }

  lemma AlwaysFits(job: Job, s: State, schedule: seq<Action>)
    requires Initial(job, s) && Runs(job, s, schedule) && s.numElements <= 4096 * job.threads
    ensures ElementsFit(After(job, s, schedule))
  {
    Dealing.BlocksFitIff(s.numElements, job.threads);
    InitialInv(job, s);
    PerThreadStays(job, s, schedule);
    WithinPerThread(job, After(job, s, schedule));
  }

  lemma WithinPerThread(job: Job, f: State)
    requires Inv(job, f) && f.perThread <= 4096
    ensures ElementsFit(f)
  {
  }

  lemma ManyElements(n: nat, threads: nat)
    requires n > 4096 * threads && threads > 0
    ensures n > 4096
  {
  }

  /** The main thread deals to the first thread for k steps. */
  lemma DealsOn(job: Job, s: State, k: nat) returns (schedule: seq<Action>)
    requires Initial(job, s) && k <= s.numElements && k <= s.perThread
    ensures Runs(job, s, schedule) && |After(job, s, schedule).workers| > 0
    ensures |After(job, s, schedule).workers[0].elements| == k
  {
    InitialInv(job, s);
    schedule := DealsOnFrom(job, s, 0, k);
  }

  lemma {:induction false} DealsOnFrom(job: Job, s: State, j: nat, k: nat) returns (schedule: seq<Action>)
    requires Inv(job, s) && s.mpc == DealTo(0, j) && |s.workers| > 0 && |s.workers[0].elements| == j
    requires j <= k <= s.numElements && k <= s.perThread
    ensures Runs(job, s, schedule) && |After(job, s, schedule).workers| > 0
    ensures |After(job, s, schedule).workers[0].elements| == k
    decreases k - j
  {
    if j == k {
      schedule := [];
    } else {
      OneDealt(job, s, j);
      var rest := DealsOnFrom(job, Next(job, s, MainStep), j + 1, k);
      schedule := [MainStep] + rest;
      assert schedule[0] == MainStep && schedule[1..] == rest;
    }
  }

  lemma OneDealt(job: Job, s: State, k: nat)
    requires Inv(job, s) && s.mpc == DealTo(0, k) && k < s.numElements && k < s.perThread && |s.workers| > 0
    ensures Enabled(s, MainStep)
    ensures var t := Next(job, s, MainStep);
            && Inv(job, t) && t.mpc == DealTo(0, k + 1) && t.perThread == s.perThread && t.numElements == s.numElements
            && |t.workers| > 0 && |t.workers[0].elements| == |s.workers[0].elements| + 1
  {
    assert s.dealt == k && s.main.items != [];
    StepKeeps(job, s, MainStep);
  }

  lemma {:induction false} PerThreadStays(job: Job, s: State, schedule: seq<Action>)
    requires Inv(job, s) && Runs(job, s, schedule)
    ensures Inv(job, After(job, s, schedule)) && After(job, s, schedule).perThread == s.perThread
    decreases |schedule|
  {
    if schedule == [] {
    } else {
      var a := schedule[0];
      StepKeeps(job, s, a);
      if a.WorkerStep? { StepFootprint(job, s, a.t); }
      PerThreadStays(job, Next(job, s, a), schedule[1..]);
    }
  }

  // ---------------------------------------------------------------- the searches do return

  /** From any point of any run the threads can finish, within the potential of that point. */
  lemma {:induction false} CanFinish(job: Job, s: State) returns (schedule: seq<Action>)
    requires Inv(job, s)
    ensures Runs(job, s, schedule) && After(job, s, schedule).mpc.Done?
    decreases Potential(job, s)
  {
    if s.mpc.Done? {
      schedule := [];
    } else {
      var a := SomebodyCanMove(job, s);
      StepKeeps(job, s, a);
      StepDecreases(job, s, a);
      PotentialNotNegative(job, s);
      var rest := CanFinish(job, Next(job, s, a));
      schedule := [a] + rest;
      assert schedule[0] == a && schedule[1..] == rest;
    }
  }

  /** A run that cannot be continued has returned its result, and no run is longer than the potential of its start. */
  lemma RunsReturn(job: Job, s: State, schedule: seq<Action>, f: State)
    requires Initial(job, s) && Leads(job, s, schedule, f)
    ensures |schedule| <= Potential(job, s)
    ensures (forall a :: !Enabled(f, a)) ==> f.mpc.Done?
  {
    InitialInv(job, s);
    RunsAreBounded(job, s, schedule);
    PotentialNotNegative(job, f);
    if !f.mpc.Done? {
      var a := SomebodyCanMove(job, f);
    }
  }

  // ---------------------------------------------------------------- such starts exist

  /** One insert_element of the main thread, with a fresh element. */
  lemma Extend(heap: Heap, q: QueueRecord, e: Element) returns (heap': Heap, q': QueueRecord)
    requires Ready(heap, q) && e !in heap
    ensures Ready(heap', q') && q'.items == q.items + [e] && heap'.Keys == heap.Keys + {e}
  {
    assert forall i | 0 <= i < |q.items| :: q.items[i] in heap;
    var grown := heap[e := Null];
    QueueFrame(heap, grown, q);
    InsertIsAppend(grown, q, e);
    var heap1 := HeapAfter(grown, q, e, Detach);
    heap' := HeapAfter(heap1, q, e, Hang);
    q' := QueueAfter(heap', QueueAfter(heap1, q, e, Hang), e, StageAfter(q, Hang));
    if q.items != [] { assert q.items[|q.items| - 1] in heap; }
  }

  /** Every element was made for one of these paths, with an address below their number. */
  predicate MadeFor(heap: Heap, paths: seq<string>) { forall e | e in heap :: e.id < |paths| && e.path in paths }

  /** The main thread's own insertions build the queue a search begins with. */
  lemma {:induction false} BuildQueue(paths: seq<string>) returns (heap: Heap, q: QueueRecord)
    ensures Ready(heap, q) && QueuedPaths(q.items) == paths && MadeFor(heap, paths)
  {
    if paths == [] {
      heap, q := map[], EMPTY_QUEUE;
    } else {
      var before, last := paths[..|paths| - 1], paths[|paths| - 1];
      assert paths == before + [last];
      heap, q := BuildQueue(before);
      heap, q := BuildOn(heap, q, before, last);
    }
  }

  lemma BuildOn(heap: Heap, q: QueueRecord, paths: seq<string>, path: string) returns (heap': Heap, q': QueueRecord)
    requires Ready(heap, q) && QueuedPaths(q.items) == paths && MadeFor(heap, paths)
    ensures Ready(heap', q') && QueuedPaths(q'.items) == paths + [path] && MadeFor(heap', paths + [path])
  {
    var e := Element(|paths|, path);
    FreshElement(heap, paths, e);
    heap', q' := Extend(heap, q, e);
    StillMadeFor(heap, heap', paths, e);
    QueuedPathsSnoc(q.items, e);
  }

  lemma FreshElement(heap: Heap, paths: seq<string>, e: Element)
    requires MadeFor(heap, paths) && e.id == |paths|
    ensures e !in heap
  {
  }

  lemma StillMadeFor(heap: Heap, heap': Heap, paths: seq<string>, e: Element)
    requires MadeFor(heap, paths) && e.id == |paths| && heap'.Keys == heap.Keys + {e}
    ensures MadeFor(heap', paths + [e.path])
  {
    forall x | x in heap' ensures x.id <= |paths| && x.path in paths + [e.path] {
      if x in heap { assert x.path in paths; } else { assert x == e && (paths + [e.path])[|paths|] == e.path; }
    }
  }

  lemma QueuedPathsSnoc(items: seq<Element>, e: Element)
    ensures QueuedPaths(items + [e]) == QueuedPaths(items) + [e.path]
  {
  }

  /** Every tree has a start, with any number of threads, as long as its entries can be counted. */
  lemma BeginningExists(job: Job) returns (s: State)
    requires WellFormed(job.fs.root) && 0 < job.threads < Dealing.INT_RANGE && job.mode != SearchFiles
    requires |SerialSearch.Kids(job.fs, job.fs.rootPath)| < Dealing.INT_RANGE
    ensures Queued(job, s) && s.numElements == |SerialSearch.Kids(job.fs, job.fs.rootPath)|
  {
    var paths := SerialSearch.Kids(job.fs, job.fs.rootPath);
    LookupRoot(job.fs);
    SerialSearch.KidsAreUnder(job.fs, job.fs.rootPath);
    var heap, q := BuildQueue(paths);
    s := BeginWith(job, heap, q, |paths|);
  }

  lemma BeginWith(job: Job, heap: Heap, q: QueueRecord, n: nat) returns (s: State)
    requires WellFormed(job.fs.root) && 0 < job.threads < Dealing.INT_RANGE && job.mode != SearchFiles
    requires Ready(heap, q) && |QueuedPaths(q.items)| == n < Dealing.INT_RANGE
    requires forall e | e in heap :: e.id < n && Under(job.fs, e.path)
    ensures Initial(job, s) && s.main == q && s.numElements == n
  {
    assert |q.items| == n;
    s := State(heap, n, map e | e in heap :: OfMain, q, DealTo(0, 0), n, Dealing.RoundUp(n, job.threads), 0,
      seq(job.threads, i => Worker(Unborn, [], EMPTY_QUEUE, 0, [])), seq(job.threads, i => 0), EMPTY_QUEUE, Free);
  }

  /** After the file threads the second phase can always be set up, as long as the files can be counted. */
  lemma SecondStartExists(job: Job, f: State) returns (s: State)
    requires job.mode == FindFiles && Inv(job, f) && f.mpc.Done? && 0 < job.threads < Dealing.INT_RANGE
    requires |f.shared.items| < Dealing.INT_RANGE
    ensures GoesOn(Searching(job), f, s) && Initial(Searching(job), s)
  {
    var n := |f.shared.items|;
    s := State(f.heap, f.nextId, map e | e in f.owner :: OfMain, f.shared, DealTo(0, 0), n, Dealing.RoundUp(n, job.threads), 0,
      seq(job.threads, i => Worker(Unborn, [], EMPTY_QUEUE, 0, [])), seq(job.threads, i => 0), EMPTY_QUEUE, Free);
    SecondPhaseBegins(job, f, s);
  }
}
