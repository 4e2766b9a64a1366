/** Searches on which the parallel forms and the serial one differ: a start that is a plain file. */
module SearchScenarios {
  import opened FileTree
  import opened SearchThreads
  import opened SearchInvariant
  import opened SearchConservation
  import opened ParallelSearch
  import opened FileFinding
  import Dealing
  import SerialSearch
  import Tokens

  /** A start on which there is something to find, but not in a directory. */
  predicate IsHit(fs: FileSystem, key: string) {
    fs.root.File? && fs.root.readable && CountAt(fs, key, fs.rootPath) > 0
  }

  lemma NothingToDeal(fs: FileSystem, threads: nat)
    requires !fs.root.Directory? && 0 < threads
    ensures SerialSearch.Kids(fs, fs.rootPath) == [] && EntriesFit(fs, threads)
    ensures fs.root.File? ==> ToSearch(Unlocked(fs)) == [] && FilesFit(fs, threads)
  {
    LookupRoot(fs);
  }

  /** On every such start, with any number of threads, some run of parallel_search_static returns 0 and not the count. */
  lemma StaticMisses(job: Job) returns (s: State, schedule: seq<Action>, f: State)
    requires job.mode == StaticSearch && IsHit(job.fs, job.key) && 0 < job.threads < Dealing.INT_RANGE
    ensures Begins(job, s) && StartsDefined(job.fs) && Completes(job, s, schedule, f)
    ensures f.mpc.total == 0 < Occurrences(job.fs, job.key)
  {
    NothingToDeal(job.fs, job.threads);
    s := BeginningExists(job);
    InitialInv(job, s);
    schedule := CanFinish(job, s);
    f := After(job, s, schedule);
    StaticAgrees(job, s, schedule, f);
    StartOccurrences(job.fs, job.key);
  }

  /** So does some run of parallel_search_dynamic. */
  lemma DynamicMisses(job: Job)
    returns (s1: State, find: seq<Action>, f: State, s2: State, search: seq<Action>, g: State)
    requires job.mode == FindFiles && IsHit(job.fs, job.key) && 0 < job.threads < Dealing.INT_RANGE
    ensures StartsDefined(job.fs) && CompletesBoth(job, s1, find, f, s2, search, g)
    ensures g.mpc.total == 0 < Occurrences(job.fs, job.key)
  {
    NothingToDeal(job.fs, job.threads);
    s1, find, f, s2, search, g := DynamicRuns(job);
    DynamicAgrees(job, s1, find, f, s2, search, g);
    StartOccurrences(job.fs, job.key);
  }

  /** One such start: a file "f" that holds the letter looked for. */
  lemma OneHit()
    ensures IsHit(FileSystem("f", File(true, "a")), "a")
  {
    var fs := FileSystem("f", File(true, "a"));
    LookupRoot(fs);
    Tokens.WordCountFrom("a", 0);
  }

  // ---------------------------------------------------------------- too much to deal

  /** Whenever the starting directory has more than 4096 entries per thread, some run writes beyond the end of a thread's
      array. */
  lemma Overruns(job: Job) returns (s: State, schedule: seq<Action>)
    requires WellFormed(job.fs.root) && 0 < job.threads < Dealing.INT_RANGE && job.mode != SearchFiles
    requires 4096 * job.threads < |SerialSearch.Kids(job.fs, job.fs.rootPath)| < Dealing.INT_RANGE
    ensures Queued(job, s) && Runs(job, s, schedule) && !ElementsFit(After(job, s, schedule))
  {
    s := BeginningExists(job);
    Dealing.BlocksFitIff(s.numElements, job.threads);
    ManyElements(s.numElements, job.threads);
    schedule := DealsOn(job, s, 4097);
  }

  function Letters(n: nat): string { seq(n, i => 'a') }

  /** A directory of n entries, named by words of different lengths. */
  function Crowd(n: nat): FileSystem {
    FileSystem("d", Directory(true, seq(n, i requires 0 <= i => Entry(Letters(i + 1), File(true, "")))))
  }

  lemma CrowdIsWellFormed(n: nat)
    ensures WellFormed(Crowd(n).root) && |SerialSearch.Kids(Crowd(n), Crowd(n).rootPath)| == n
  {
    LookupRoot(Crowd(n));
    var entries := Crowd(n).root.entries;
    forall i, j | 0 <= i < j < n ensures entries[i].name != entries[j].name {
      assert |entries[i].name| == i + 1 && |entries[j].name| == j + 1;
    }
  }

  /** Such directories exist for every number of threads that leaves so many entries countable. */
  lemma CrowdOverruns(mode: Mode, threads: nat) returns (job: Job, s: State, schedule: seq<Action>)
    requires threads > 0 && 4096 * threads + 1 < Dealing.INT_RANGE && mode != SearchFiles
    ensures job == Job(Crowd(4096 * threads + 1), "a", mode, threads)
    ensures Queued(job, s) && Runs(job, s, schedule) && !ElementsFit(After(job, s, schedule))
  {
    job := Job(Crowd(4096 * threads + 1), "a", mode, threads);
    CrowdIsWellFormed(4096 * threads + 1);
    s, schedule := Overruns(job);
  }
}
