/** No interleaving loses a file or searches one twice: an accounting for one file q, in whatever place it is. */
module SearchConservation {
  import opened FileTree
  import opened SearchThreads
  import opened SearchInvariant
  import opened SearchSteps

  function Times(q: string, paths: seq<string>): nat { multiset(paths)[q] }

  /** How often the file q is still to be searched because of a path. */
  function FilesAt(fs: FileSystem, q: string, path: string): nat { Times(q, Files(path, Lookup(fs, path))) }

  function FilesOf(fs: FileSystem, q: string, items: seq<Element>): nat {
    if items == [] then 0 else FilesAt(fs, q, items[0].path) + FilesOf(fs, q, items[1..])
  }

  lemma {:induction false} FilesOfAppend(fs: FileSystem, q: string, a: seq<Element>, b: seq<Element>)
    ensures FilesOf(fs, q, a + b) == FilesOf(fs, q, a) + FilesOf(fs, q, b)
  {
    if a == [] {
      assert a + b == b;
    } else {
      assert (a + b)[1..] == a[1..] + b;
      FilesOfAppend(fs, q, a[1..], b);
    }
  }

  lemma FilesOfSnoc(fs: FileSystem, q: string, items: seq<Element>, e: Element)
    ensures FilesOf(fs, q, items + [e]) == FilesOf(fs, q, items) + FilesAt(fs, q, e.path)
  {
    FilesOfAppend(fs, q, items, [e]);
    assert FilesOf(fs, q, [e]) == FilesAt(fs, q, e.path) + FilesOf(fs, q, []);
  }

  /** The files below the entries of a directory that have not been read yet. */
  function Unread(fs: FileSystem, q: string, e: Element, k: nat): nat {
    match Lookup(fs, e.path)
    case Directory(_, entries) => if k <= |entries| then Times(q, FilesBelow(e.path, entries[k..])) else 0
    case _ => 0
  }

  /** What a worker has in hand, between two queues. */
  function InHand(fs: FileSystem, q: string, pc: WorkerPc): nat {
    match pc
    case Visiting(e) => FilesAt(fs, q, e.path)
    case Scanning(e, k) => Unread(fs, q, e, k)
    case Locking(e) => FilesAt(fs, q, e.path)
    case Inserting(e, stage, andThen) =>
      (if AtTail(stage) then 0 else FilesAt(fs, q, e.path)) +
      (if andThen.ThenScan? then Unread(fs, q, andThen.directory, andThen.k) else 0)
    case _ => 0
  }

  /** Everything a worker has still to search, and what it has searched. */
  function Holdings(fs: FileSystem, q: string, w: Worker): nat {
    FilesOf(fs, q, Pending(w)) + FilesOf(fs, q, w.queue.items) + InHand(fs, q, w.pc) + Times(q, w.log)
  }

  function AllHoldings(fs: FileSystem, q: string, ws: seq<Worker>): nat {
    if ws == [] then 0 else Holdings(fs, q, ws[0]) + AllHoldings(fs, q, ws[1..])
  }

  lemma {:induction false} HoldingsUpdate(fs: FileSystem, q: string, ws: seq<Worker>, t: nat, w: Worker)
    requires t < |ws|
    ensures AllHoldings(fs, q, ws[t := w]) + Holdings(fs, q, ws[t]) == AllHoldings(fs, q, ws) + Holdings(fs, q, w)
  {
    if t == 0 {
      assert ws[0 := w][1..] == ws[1..];
    } else {
      assert ws[t := w][1..] == ws[1..][t - 1 := w];
      HoldingsUpdate(fs, q, ws[1..], t - 1, w);
    }
  }

  function Everything(job: Job, q: string, s: State): nat {
    FilesOf(job.fs, q, s.main.items) + AllHoldings(job.fs, q, s.workers) + FilesOf(job.fs, q, s.shared.items)
  }

  // ---------------------------------------------------------------- one worker's step

  /** The step that hands a file over to the shared queue. */
  predicate HandsOver(pc: WorkerPc) { pc.Inserting? && pc.stage.Hang? && pc.andThen.ThenUnlock? }

  lemma SeedHolds(fs: FileSystem, q: string, w: Worker, k: nat)
    requires w.pc == Seeding(k) && k < |w.elements|
    ensures Holdings(fs, q, w.(pc := Inserting(w.elements[k], Detach, ThenSeed(k + 1)))) == Holdings(fs, q, w)
  {
    PendingSeed(w, k);
  }

  lemma SeedingHolds(job: Job, q: string, s: State, t: nat)
    requires t < |s.workers| && WorkerOk(job, s, t) && s.workers[t].pc.Seeding?
    ensures Holdings(job.fs, q, WorkerNext(job, s, t).workers[t]) == Holdings(job.fs, q, s.workers[t])
  {
    var w := s.workers[t];
    if w.pc.k < |w.elements| { SeedHolds(job.fs, q, w, w.pc.k); }
  }

  lemma TestingHolds(job: Job, q: string, s: State, t: nat)
    requires t < |s.workers| && WorkerOk(job, s, t) && s.workers[t].pc.Testing?
    ensures Holdings(job.fs, q, WorkerNext(job, s, t).workers[t]) == Holdings(job.fs, q, s.workers[t])
  {
    var w := s.workers[t];
    if w.queue.head.To? { RemoveKeeps(s.heap, w.queue); }
  }

  lemma SameHoldings(fs: FileSystem, q: string, w: Worker, w': Worker)
    requires Pending(w') == Pending(w) && w'.queue == w.queue
    requires InHand(fs, q, w'.pc) + Times(q, w'.log) == InHand(fs, q, w.pc) + Times(q, w.log)
    ensures Holdings(fs, q, w') == Holdings(fs, q, w)
  {
  }

  /** Looking at an element touches neither what is pending nor the queue. */
  lemma VisitKeepsQueue(job: Job, s: State, t: nat)
    requires t < |s.workers| && s.workers[t].pc.Visiting?
    ensures var w, w' := s.workers[t], WorkerNext(job, s, t).workers[t];
            Pending(w') == Pending(w) == [] && w'.queue == w.queue
  {
  }

  lemma VisitingHolds(job: Job, q: string, s: State, t: nat)
    requires t < |s.workers| && WorkerOk(job, s, t) && s.workers[t].pc.Visiting?
    ensures Holdings(job.fs, q, WorkerNext(job, s, t).workers[t]) == Holdings(job.fs, q, s.workers[t])
  {
    VisitKeepsQueue(job, s, t);
    VisitedInHand(job, q, s, t);
    SameHoldings(job.fs, q, s.workers[t], WorkerNext(job, s, t).workers[t]);
  }

  lemma VisitedInHand(job: Job, q: string, s: State, t: nat)
    requires t < |s.workers| && WorkerOk(job, s, t) && s.workers[t].pc.Visiting?
    ensures var w, w' := s.workers[t], WorkerNext(job, s, t).workers[t];
            InHand(job.fs, q, w'.pc) + Times(q, w'.log) == InHand(job.fs, q, w.pc) + Times(q, w.log)
  {
    var w := s.workers[t];
    match Lookup(job.fs, w.pc.current.path)
    case Directory(_, _) => DirectoryInHand(job, q, s, t);
    case File(_, _) => FileInHand(job, q, s, t);
    case _ =>
  }

  lemma DirectoryInHand(job: Job, q: string, s: State, t: nat)
    requires t < |s.workers| && WorkerOk(job, s, t) && s.workers[t].pc.Visiting?
    requires Lookup(job.fs, s.workers[t].pc.current.path).Directory?
    ensures var w, w' := s.workers[t], WorkerNext(job, s, t).workers[t];
            InHand(job.fs, q, w'.pc) == InHand(job.fs, q, w.pc) && w'.log == w.log
  {
    var entries := Lookup(job.fs, s.workers[t].pc.current.path).entries;
    assert entries[0..] == entries;
  }

  lemma FileInHand(job: Job, q: string, s: State, t: nat)
    requires t < |s.workers| && s.workers[t].pc.Visiting? && Lookup(job.fs, s.workers[t].pc.current.path).File?
    ensures var w, w' := s.workers[t], WorkerNext(job, s, t).workers[t];
            InHand(job.fs, q, w'.pc) + Times(q, w'.log) == InHand(job.fs, q, w.pc) + Times(q, w.log)
  {
    SearchedOnce(job.fs, q, s.workers[t].pc.current.path, s.workers[t].log);
  }

  lemma SearchedOnce(fs: FileSystem, q: string, path: string, log: seq<string>)
    requires Lookup(fs, path).File?
    ensures FilesAt(fs, q, path) == if Lookup(fs, path).readable then Times(q, [path]) else 0
    ensures Times(q, log + [path]) == Times(q, log) + Times(q, [path])
  {
  }

  /** One entry read: its files pass from the unread part of the directory into the new element. */
  lemma EntryRead(fs: FileSystem, q: string, e: Element, k: nat, entry: Element)
    requires WellFormed(fs.root) && Under(fs, e.path) && Lookup(fs, e.path).Directory?
    requires k < |Lookup(fs, e.path).entries| && entry.path == Child(e.path, Lookup(fs, e.path).entries[k].name)
    ensures FilesAt(fs, q, entry.path) + Unread(fs, q, e, k + 1) == Unread(fs, q, e, k)
  {
    var entries := Lookup(fs, e.path).entries;
    LookupChild(fs, e.path, k);
    assert entries[k..] == [entries[k]] + entries[k + 1..];
  }

  lemma AllRead(fs: FileSystem, q: string, e: Element, k: nat)
    requires Lookup(fs, e.path).Directory? && k == |Lookup(fs, e.path).entries|
    ensures Unread(fs, q, e, k) == 0
  {
    assert Lookup(fs, e.path).entries[k..] == [];
  }

  lemma ScannedInHand(job: Job, q: string, s: State, t: nat)
    requires WellFormed(job.fs.root) && t < |s.workers| && s.workers[t].pc.Scanning?
    requires IsScannable(job, s.workers[t].pc.directory, s.workers[t].pc.k)
    ensures InHand(job.fs, q, ScanNext(job, s, t, s.workers[t].pc.directory, s.workers[t].pc.k).workers[t].pc) ==
            InHand(job.fs, q, s.workers[t].pc)
  {
    var e, k := s.workers[t].pc.directory, s.workers[t].pc.k;
    if k < |Lookup(job.fs, e.path).entries| {
      EntryRead(job.fs, q, e, k, ScanNext(job, s, t, e, k).workers[t].pc.element);
    } else {
      AllRead(job.fs, q, e, k);
    }
  }

  lemma ScanningHolds(job: Job, q: string, s: State, t: nat)
    requires WellFormed(job.fs.root) && t < |s.workers| && WorkerOk(job, s, t) && s.workers[t].pc.Scanning?
    ensures Holdings(job.fs, q, WorkerNext(job, s, t).workers[t]) == Holdings(job.fs, q, s.workers[t])
  {
    var w, w' := s.workers[t], WorkerNext(job, s, t).workers[t];
    ScannedInHand(job, q, s, t);
    assert Pending(w') == Pending(w) == [] && w'.queue == w.queue && w'.log == w.log;
  }

  lemma InsertingHolds(job: Job, q: string, s: State, t: nat)
    requires t < |s.workers| && WorkerOk(job, s, t) && s.workers[t].pc.Inserting? && !HandsOver(s.workers[t].pc)
    ensures Holdings(job.fs, q, WorkerNext(job, s, t).workers[t]) == Holdings(job.fs, q, s.workers[t])
  {
    if s.workers[t].pc.stage.Hang? { HangHolds(job, q, s, t); } else { RelinkHolds(job, q, s, t); }
  }

  lemma HangHolds(job: Job, q: string, s: State, t: nat)
    requires t < |s.workers| && s.workers[t].pc.Inserting? && s.workers[t].pc.stage.Hang?
    requires !s.workers[t].pc.andThen.ThenUnlock?
    ensures Holdings(job.fs, q, WorkerNext(job, s, t).workers[t]) == Holdings(job.fs, q, s.workers[t])
  {
    assert Pending(WorkerNext(job, s, t).workers[t]) == Pending(s.workers[t]);
    FilesOfSnoc(job.fs, q, s.workers[t].queue.items, s.workers[t].pc.element);
  }

  lemma RelinkInHand(fs: FileSystem, q: string, queue: QueueRecord, pc: WorkerPc)
    requires pc.Inserting? && !pc.stage.Hang?
    ensures InHand(fs, q, PcAfter(queue, pc.element, pc.stage, pc.andThen)) == InHand(fs, q, pc)
  {
  }

  lemma RelinkHolds(job: Job, q: string, s: State, t: nat)
    requires t < |s.workers| && s.workers[t].pc.Inserting? && !s.workers[t].pc.stage.Hang?
    ensures Holdings(job.fs, q, WorkerNext(job, s, t).workers[t]) == Holdings(job.fs, q, s.workers[t])
  {
    var w, w' := s.workers[t], WorkerNext(job, s, t).workers[t];
    RelinkInHand(job.fs, q, if w.pc.andThen.ThenUnlock? then s.shared else w.queue, w.pc);
    assert Pending(w') == Pending(w);
    assert w'.queue.items == w.queue.items && w'.log == w.log;
  }

  lemma HandOver(job: Job, q: string, s: State, t: nat)
    requires t < |s.workers| && WorkerOk(job, s, t) && HandsOver(s.workers[t].pc)
    ensures var s', e := WorkerNext(job, s, t), s.workers[t].pc.element;
            && Holdings(job.fs, q, s.workers[t]) == Holdings(job.fs, q, s'.workers[t]) + FilesAt(job.fs, q, e.path)
            && s'.shared.items == s.shared.items + [e]
  {
    assert Pending(WorkerNext(job, s, t).workers[t]) == Pending(s.workers[t]);
  }

  lemma OthersHold(job: Job, q: string, s: State, t: nat)
    requires WorkerEnabled(s, t)
    requires s.workers[t].pc.Locking? || s.workers[t].pc.Unlocking? || s.workers[t].pc.Finishing?
    ensures Holdings(job.fs, q, WorkerNext(job, s, t).workers[t]) == Holdings(job.fs, q, s.workers[t])
  {
  }

  lemma StepHolds(job: Job, q: string, s: State, t: nat)
    requires WellFormed(job.fs.root) && WorkerEnabled(s, t) && WorkerOk(job, s, t) && !HandsOver(s.workers[t].pc)
    ensures Holdings(job.fs, q, WorkerNext(job, s, t).workers[t]) == Holdings(job.fs, q, s.workers[t])
  {
    match s.workers[t].pc
    case Seeding(_) => SeedingHolds(job, q, s, t);
    case Testing => TestingHolds(job, q, s, t);
    case Visiting(_) => VisitingHolds(job, q, s, t);
    case Scanning(_, _) => ScanningHolds(job, q, s, t);
    case Inserting(_, _, _) => InsertingHolds(job, q, s, t);
    case _ => OthersHold(job, q, s, t);
  }

  // ---------------------------------------------------------------- the whole system

  lemma SharedItemsAfter(job: Job, s: State, t: nat)
    requires Inv(job, s) && WorkerEnabled(s, t) && !HandsOver(s.workers[t].pc)
    ensures WorkerNext(job, s, t).shared.items == s.shared.items
  {
    StepFootprint(job, s, t);
  }

  /** What one worker hands on reaches the shared queue. */
  lemma Reassemble(job: Job, q: string, s: State, s': State, t: nat)
    requires t < |s.workers| == |s'.workers| && s'.workers == s.workers[t := s'.workers[t]] && s'.main == s.main
    requires Holdings(job.fs, q, s'.workers[t]) + FilesOf(job.fs, q, s'.shared.items) ==
             Holdings(job.fs, q, s.workers[t]) + FilesOf(job.fs, q, s.shared.items)
    ensures Everything(job, q, s') == Everything(job, q, s)
  {
    HoldingsUpdate(job.fs, q, s.workers, t, s'.workers[t]);
  }

  lemma WorkerConserves(job: Job, q: string, s: State, t: nat)
    requires Inv(job, s) && WorkerEnabled(s, t)
    ensures Everything(job, q, WorkerNext(job, s, t)) == Everything(job, q, s)
  {
    var s' := WorkerNext(job, s, t);
    StepFootprint(job, s, t);
    assert s'.workers == s.workers[t := s'.workers[t]];
    if HandsOver(s.workers[t].pc) {
      HandOver(job, q, s, t);
      FilesOfSnoc(job.fs, q, s.shared.items, s.workers[t].pc.element);
    } else {
      StepHolds(job, q, s, t);
      SharedItemsAfter(job, s, t);
    }
    Reassemble(job, q, s, s', t);
  }

  lemma DealtHolds(fs: FileSystem, q: string, w: Worker, e: Element)
    requires w.pc == Unborn
    ensures Holdings(fs, q, w.(elements := w.elements + [e])) == Holdings(fs, q, w) + FilesAt(fs, q, e.path)
  {
    FilesOfSnoc(fs, q, w.elements, e);
  }

  lemma DealConserves(job: Job, q: string, s: State, i: nat, j: nat)
    requires Ready(s.heap, s.main) && i < |s.workers| && s.workers[i].pc == Unborn && s.main.head.To?
    requires s.mpc == DealTo(i, j)
    ensures Everything(job, q, Deal(s, i, j)) == Everything(job, q, s)
  {
    RemoveKeeps(s.heap, s.main);
    var s', e := Deal(s, i, j), s.main.items[0];
    DealtHolds(job.fs, q, s.workers[i], e);
    HoldingsUpdate(job.fs, q, s.workers, i, s'.workers[i]);
    assert s'.main.items == s.main.items[1..] && s'.workers == s.workers[i := s'.workers[i]];
  }

  lemma CreateConserves(job: Job, q: string, s: State, s': State, i: nat)
    requires i < |s.workers| && s.workers[i].pc == Unborn && s'.main == s.main && s'.shared == s.shared
    requires s'.workers == s.workers[i := s.workers[i].(pc := Seeding(0))]
    ensures Everything(job, q, s') == Everything(job, q, s)
  {
    assert Pending(s'.workers[i]) == Pending(s.workers[i]);
    HoldingsUpdate(job.fs, q, s.workers, i, s'.workers[i]);
  }

  lemma MainConserves(job: Job, q: string, s: State)
    requires Inv(job, s) && MainEnabled(s)
    ensures Everything(job, q, MainNext(s)) == Everything(job, q, s)
  {
    if s.mpc.DealTo? && s.mpc.i < |s.workers| {
      if s.mpc.j < s.perThread && s.dealt < s.numElements {
        DealKeeps(job, s, s.mpc.i, s.mpc.j);
        DealConserves(job, q, s, s.mpc.i, s.mpc.j);
      } else {
        CreateConserves(job, q, s, MainNext(s), s.mpc.i);
      }
    }
  }

  lemma {:induction false} RunConserves(job: Job, q: string, s: State, schedule: seq<Action>)
    requires Inv(job, s) && Runs(job, s, schedule)
    ensures Inv(job, After(job, s, schedule)) && Everything(job, q, After(job, s, schedule)) == Everything(job, q, s)
    decreases |schedule|
  {
    if schedule == [] {
    } else {
      var a := schedule[0];
      StepKeeps(job, s, a);
      match a {
        case MainStep => MainConserves(job, q, s);
        case WorkerStep(t) => WorkerConserves(job, q, s, t);
      }
      RunConserves(job, q, Next(job, s, a), schedule[1..]);
    }
  }

  // ---------------------------------------------------------------- at the beginning and at the end

  lemma {:induction false} UnbornHoldNothing(fs: FileSystem, q: string, ws: seq<Worker>)
    requires forall t | 0 <= t < |ws| :: ws[t] == Worker(Unborn, [], EMPTY_QUEUE, 0, [])
    ensures AllHoldings(fs, q, ws) == 0
  {
    if ws == [] {
    } else {
      forall t | 0 <= t < |ws[1..]| ensures ws[1..][t] == Worker(Unborn, [], EMPTY_QUEUE, 0, []) { assert ws[1..][t] == ws[t + 1]; }
      UnbornHoldNothing(fs, q, ws[1..]);
    }
  }

  /** The files searched, thread by thread. */
  function Logs(ws: seq<Worker>): seq<string> {
    if ws == [] then [] else ws[0].log + Logs(ws[1..])
  }

  lemma {:induction false} ExitedHoldLogs(fs: FileSystem, q: string, ws: seq<Worker>)
    requires forall t | 0 <= t < |ws| :: ws[t].pc == Exited && ws[t].queue.items == []
    ensures AllHoldings(fs, q, ws) == Times(q, Logs(ws))
  {
    if ws == [] {
    } else {
      forall t | 0 <= t < |ws[1..]| ensures ws[1..][t].pc == Exited && ws[1..][t].queue.items == [] { assert ws[1..][t] == ws[t + 1]; }
      ExitedHoldLogs(fs, q, ws[1..]);
    }
  }

  lemma {:induction false} ResultsAddUp(fs: FileSystem, key: string, ws: seq<Worker>, results: seq<nat>)
    requires |results| == |ws|
    requires forall t | 0 <= t < |ws| :: results[t] == ws[t].count == SumAt(fs, key, ws[t].log)
    ensures Sum(results) == SumAt(fs, key, Logs(ws))
  {
    if ws == [] {
    } else {
      forall t | 0 <= t < |ws[1..]| ensures results[1..][t] == ws[1..][t].count == SumAt(fs, key, ws[1..][t].log) {
        assert ws[1..][t] == ws[t + 1] && results[1..][t] == results[t + 1];
      }
      ResultsAddUp(fs, key, ws[1..], results[1..]);
      SumAppend(fs, key, ws[0].log, Logs(ws[1..]));
    }
  }

  lemma InitialHoldings(job: Job, q: string, s: State)
    requires Initial(job, s)
    ensures Everything(job, q, s) == FilesOf(job.fs, q, s.main.items)
  {
    UnbornHoldNothing(job.fs, q, s.workers);
  }

  /** When the main thread is done, what it started with has been searched, or handed on, exactly once. */
  lemma DoneHoldings(job: Job, q: string, s: State)
    requires Inv(job, s) && s.mpc.Done?
    ensures Everything(job, q, s) == Times(q, Logs(s.workers)) + FilesOf(job.fs, q, s.shared.items)
    ensures job.mode != FindFiles ==> s.shared.items == [] && s.mpc.total == SumAt(job.fs, job.key, Logs(s.workers))
    ensures job.mode == FindFiles ==> Logs(s.workers) == []
  {
    forall t | 0 <= t < |s.workers| ensures s.workers[t].queue.items == [] && s.workers[t].pc == Exited {
      assert WorkerOk(job, s, t);
    }
    ExitedHoldLogs(job.fs, q, s.workers);
    if job.mode != FindFiles {
      forall t | 0 <= t < |s.workers|
        ensures s.results[t] == s.workers[t].count == SumAt(job.fs, job.key, s.workers[t].log)
      {
        assert WorkerOk(job, s, t);
      }
      ResultsAddUp(job.fs, job.key, s.workers, s.results);
    } else {
      forall t | 0 <= t < |s.workers| ensures s.workers[t].log == [] { assert WorkerOk(job, s, t); }
      NoLogs(s.workers);
    }
  }

  lemma {:induction false} NoLogs(ws: seq<Worker>)
    requires forall t | 0 <= t < |ws| :: ws[t].log == []
    ensures Logs(ws) == []
  {
    if ws == [] {
    } else {
      forall t | 0 <= t < |ws[1..]| ensures ws[1..][t].log == [] { assert ws[1..][t] == ws[t + 1]; }
      NoLogs(ws[1..]);
    }
  }
}
