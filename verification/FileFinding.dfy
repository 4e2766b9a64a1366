/**
 What the file threads of a dynamic search leave behind: every regular file below the start, readable or not, once. That
 decides which trees both phases have room for.
 */
module FileFinding {
  import opened FileTree
  import opened SearchThreads
  import opened SearchInvariant
  import opened SearchSteps
  import opened SearchConservation
  import opened SearchTermination
  import opened ParallelSearch
  import Dealing
  import SerialSearch

  /** The same job on the tree in which every file is readable. */
  function Anyway(job: Job): Job { job.(fs := Unlocked(job.fs)) }

  // ---------------------------------------------------------------- the file threads do not look into files

  lemma VisitAnyway(job: Job, s: State, t: nat, e: Element)
    requires job.mode == FindFiles && t < |s.workers|
    ensures VisitNext(Anyway(job), s, t, e) == VisitNext(job, s, t, e)
  {
    LookupUnlocked(job.fs, e.path);
  }

  lemma ScanAnyway(job: Job, s: State, t: nat, e: Element, k: nat)
    requires t < |s.workers|
    ensures ScanNext(Anyway(job), s, t, e, k) == ScanNext(job, s, t, e, k)
  {
    LookupUnlocked(job.fs, e.path);
  }

  lemma StepAnyway(job: Job, s: State, a: Action)
    requires job.mode == FindFiles && Enabled(s, a)
    ensures Next(Anyway(job), s, a) == Next(job, s, a)
  {
    if a.WorkerStep? {
      var pc := s.workers[a.t].pc;
      if pc.Visiting? {
        VisitAnyway(job, s, a.t, pc.current);
      } else if pc.Scanning? {
        ScanAnyway(job, s, a.t, pc.directory, pc.k);
      }
    }
  }

  lemma {:induction false} RunAnyway(job: Job, s: State, schedule: seq<Action>)
    requires job.mode == FindFiles && Runs(job, s, schedule)
    ensures Runs(Anyway(job), s, schedule) && After(Anyway(job), s, schedule) == After(job, s, schedule)
    decreases |schedule|
  {
    if schedule == [] {
    } else {
      StepAnyway(job, s, schedule[0]);
      RunAnyway(job, Next(job, s, schedule[0]), schedule[1..]);
    }
  }

  lemma QueuedAnyway(job: Job, s: State)
    requires job.mode == FindFiles && Queued(job, s)
    ensures Queued(Anyway(job), s)
  {
    AllReadableWellFormed(job.fs.root);
    LookupUnlocked(job.fs, job.fs.rootPath);
    assert SerialSearch.Kids(Unlocked(job.fs), job.fs.rootPath) == SerialSearch.Kids(job.fs, job.fs.rootPath);
  }

  // ---------------------------------------------------------------- what they find

  lemma {:induction false} FilesOfFiles(fs: FileSystem, q: string, items: seq<Element>)
    requires forall i | 0 <= i < |items| :: Lookup(fs, items[i].path).File?
    ensures FilesOf(Unlocked(fs), q, items) == Times(q, QueuedPaths(items))
  {
    if items == [] {
    } else {
      forall i | 0 <= i < |items[1..]| ensures Lookup(fs, items[1..][i].path).File? { assert items[1..][i] == items[i + 1]; }
      FilesOfFiles(fs, q, items[1..]);
      LookupUnlocked(fs, items[0].path);
      assert Files(items[0].path, Lookup(Unlocked(fs), items[0].path)) == [items[0].path];
      assert QueuedPaths(items) == [items[0].path] + QueuedPaths(items[1..]);
    }
  }

  /** Whatever the interleaving, the file threads put every regular file below the start into the shared queue, readable or
      not, each once and nothing else. */
  lemma FilesFound(job: Job, s: State, find: seq<Action>, f: State)
    requires job.mode == FindFiles && Queued(job, s) && StartsDefined(job.fs) && Completes(job, s, find, f)
    ensures multiset(QueuedPaths(f.shared.items)) == multiset(ToSearch(Unlocked(job.fs)))
    ensures forall q :: multiset(QueuedPaths(f.shared.items))[q] == if q in ToSearch(Unlocked(job.fs)) then 1 else 0
    ensures |f.shared.items| == |ToSearch(Unlocked(job.fs))|
  {
    QueuedAnyway(job, s);
    RunAnyway(job, s, find);
    InitialInv(job, s);
    RunKeeps(job, s, find);
    forall q
      ensures Times(q, QueuedPaths(f.shared.items)) == Times(q, ToSearch(Unlocked(job.fs)))
      ensures multiset(QueuedPaths(f.shared.items))[q] == if q in ToSearch(Unlocked(job.fs)) then 1 else 0
    {
      FirstPhase(Anyway(job), q, s, find, f);
      FilesOfFiles(job.fs, q, f.shared.items);
      ToSearchOnce(Unlocked(job.fs), q);
    }
    SameTimes(QueuedPaths(f.shared.items), ToSearch(Unlocked(job.fs)));
    SameLength(QueuedPaths(f.shared.items), ToSearch(Unlocked(job.fs)));
  }

  lemma SameLength(a: seq<string>, b: seq<string>)
    requires multiset(a) == multiset(b)
    ensures |a| == |b|
  {
    assert |a| == |multiset(a)| && |b| == |multiset(b)|;
  }

  // ---------------------------------------------------------------- which trees there is room for

  /** What is dealt to each thread fits into its array. */
  predicate Fits(s: State) { s.perThread <= 4096 }

  /** The first phase, or a static search, has room in its threads' arrays exactly when the starting directory has at most
      4096 entries per thread. */
  lemma FirstFitsIff(job: Job, s: State)
    requires Queued(job, s)
    ensures Fits(s) <==> EntriesFit(job.fs, job.threads)
  {
    assert |s.main.items| == |QueuedPaths(s.main.items)|;
    Dealing.BlocksFitIff(s.numElements, job.threads);
  }

  /** The second phase can be set up with room in its threads' arrays exactly when there are at most 4096 regular files per
      thread below the start, readable or not: a condition on the tree. */
  lemma SecondFitsIff(job: Job, s: State, find: seq<Action>, f: State)
    requires job.mode == FindFiles && Queued(job, s) && StartsDefined(job.fs) && Completes(job, s, find, f)
    ensures (exists s2 :: GoesOn(Searching(job), f, s2) && Fits(s2)) <==> FilesFit(job.fs, job.threads)
  {
    FilesFound(job, s, find, f);
    InitialInv(job, s);
    RunKeeps(job, s, find);
    if FilesFit(job.fs, job.threads) {
      var s2 := SecondStartExists(job, f);
      Dealing.BlocksFitIff(s2.numElements, job.threads);
      assert GoesOn(Searching(job), f, s2) && Fits(s2);
    } else {
      forall s2 | GoesOn(Searching(job), f, s2) ensures !Fits(s2) {
        Dealing.BlocksFitIff(s2.numElements, job.threads);
      }
    }
  }

  /** For every well-formed tree that there is room for, and every number of threads, the whole dynamic search can be run. */
  lemma DynamicRuns(job: Job)
    returns (s1: State, find: seq<Action>, f: State, s2: State, search: seq<Action>, g: State)
    requires job.mode == FindFiles && WellFormed(job.fs.root) && StartsDefined(job.fs) && 0 < job.threads < Dealing.INT_RANGE
    requires EntriesFit(job.fs, job.threads) && FilesFit(job.fs, job.threads)
    ensures CompletesBoth(job, s1, find, f, s2, search, g)
  {
    s1 := BeginningExists(job);
    InitialInv(job, s1);
    find := CanFinish(job, s1);
    f := After(job, s1, find);
    RunKeeps(job, s1, find);
    FilesFound(job, s1, find, f);
    s2 := SecondStartExists(job, f);
    InitialInv(Searching(job), s2);
    search := CanFinish(Searching(job), s2);
    g := After(Searching(job), s2, search);
  }
}
