/** Every interleaving of the searching threads comes to an end, and none gets stuck before. */
module SearchTermination {
  import opened FileTree
  import opened SearchThreads
  import opened SearchInvariant
  import opened SearchSteps

  /** An upper bound on the steps that a queued path still causes. */
  function Cost(node: Node): nat
    decreases node, 0
  {
    10 + if node.Directory? && node.openable then CostBelow(node.entries) else 0
  }

  function CostBelow(entries: seq<Entry>): nat
    decreases entries, 1
  {
    if entries == [] then 0 else 5 + Cost(entries[0].node) + CostBelow(entries[1..])
  }

  /** The same for a sequence of elements, with `extra` steps for each until it is in a worker's queue. */
  function CostOf(fs: FileSystem, items: seq<Element>, extra: nat): nat {
    if items == [] then 0 else extra + Cost(Lookup(fs, items[0].path)) + CostOf(fs, items[1..], extra)
  }

  lemma {:induction false} CostOfSnoc(fs: FileSystem, items: seq<Element>, e: Element, extra: nat)
    ensures CostOf(fs, items + [e], extra) == CostOf(fs, items, extra) + extra + Cost(Lookup(fs, e.path))
  {
    if items == [] {
      assert [] + [e] == [e];
      assert CostOf(fs, [e], extra) == extra + Cost(Lookup(fs, e.path)) + CostOf(fs, [], extra);
    } else {
      assert (items + [e])[1..] == items[1..] + [e];
      CostOfSnoc(fs, items[1..], e, extra);
    }
  }

  function UnreadCost(fs: FileSystem, e: Element, k: nat): nat {
    match Lookup(fs, e.path)
    case Directory(_, entries) => if k <= |entries| then CostBelow(entries[k..]) else 0
    case _ => 0
  }

  function StageCost(stage: Stage): nat {
    match stage
    case Detach => 3
    case Hang => 2
    case _ => 1
  }

  function PcCost(fs: FileSystem, pc: WorkerPc): nat {
    match pc
    case Unborn => 4
    case Seeding(_) => 3
    case Testing => 2
    case Visiting(e) => 1 + Cost(Lookup(fs, e.path))
    case Scanning(e, k) => 3 + UnreadCost(fs, e, k)
    case Locking(_) => 8
    case Inserting(e, stage, andThen) =>
      3 + StageCost(stage) +
      (if AtTail(stage) || andThen.ThenUnlock? then 0 else Cost(Lookup(fs, e.path))) +
      (if andThen.ThenScan? then UnreadCost(fs, andThen.directory, andThen.k) else 0)
    case Unlocking => 3
    case Finishing => 1
    case Exited => 0
  }

  function WorkerCost(fs: FileSystem, w: Worker): nat {
    CostOf(fs, Pending(w), 5) + CostOf(fs, w.queue.items, 0) + PcCost(fs, w.pc)
  }

  function AllCost(fs: FileSystem, ws: seq<Worker>): nat {
    if ws == [] then 0 else WorkerCost(fs, ws[0]) + AllCost(fs, ws[1..])
  }

  lemma {:induction false} CostUpdate(fs: FileSystem, ws: seq<Worker>, t: nat, w: Worker)
    requires t < |ws|
    ensures AllCost(fs, ws[t := w]) == AllCost(fs, ws) - WorkerCost(fs, ws[t]) + WorkerCost(fs, w)
  {
    if t == 0 {
      assert ws[0 := w][1..] == ws[1..];
    } else {
      assert ws[t := w][1..] == ws[1..][t - 1 := w];
      CostUpdate(fs, ws[1..], t - 1, w);
    }
  }

  function MainCost(s: State): int {
    match s.mpc
    case DealTo(_, _) => |s.workers| + 3
    case Joining(i) => |s.workers| + 2 - i
    case Done(_) => 0
  }

  /** Every step makes this smaller. */
  function Potential(job: Job, s: State): int {
    MainCost(s) + CostOf(job.fs, s.main.items, 6) + AllCost(job.fs, s.workers)
  }

  // ---------------------------------------------------------------- one worker's step

  lemma SeedCosts(fs: FileSystem, w: Worker, k: nat)
    requires w.pc == Seeding(k) && k < |w.elements|
    ensures WorkerCost(fs, w.(pc := Inserting(w.elements[k], Detach, ThenSeed(k + 1)))) < WorkerCost(fs, w)
  {
    PendingSeed(w, k);
  }

  lemma SeedingCosts(job: Job, s: State, t: nat)
    requires t < |s.workers| && WorkerOk(job, s, t) && s.workers[t].pc.Seeding?
    ensures WorkerCost(job.fs, WorkerNext(job, s, t).workers[t]) < WorkerCost(job.fs, s.workers[t])
  {
    var w := s.workers[t];
    if w.pc.k < |w.elements| { SeedCosts(job.fs, w, w.pc.k); }
  }

  lemma TestingCosts(job: Job, s: State, t: nat)
    requires t < |s.workers| && WorkerOk(job, s, t) && s.workers[t].pc.Testing?
    ensures WorkerCost(job.fs, WorkerNext(job, s, t).workers[t]) < WorkerCost(job.fs, s.workers[t])
  {
    if s.workers[t].queue.head.To? { RemoveKeeps(s.heap, s.workers[t].queue); }
  }

  lemma VisitingCosts(job: Job, s: State, t: nat)
    requires t < |s.workers| && WorkerOk(job, s, t) && s.workers[t].pc.Visiting?
    ensures WorkerCost(job.fs, WorkerNext(job, s, t).workers[t]) < WorkerCost(job.fs, s.workers[t])
  {
    var w := s.workers[t];
    var w' := WorkerNext(job, s, t).workers[t];
    assert Pending(w') == Pending(w) == [] && w'.queue == w.queue;
    VisitedPcCost(job, s, t);
  }

  lemma VisitedPcCost(job: Job, s: State, t: nat)
    requires t < |s.workers| && s.workers[t].pc.Visiting?
    ensures PcCost(job.fs, WorkerNext(job, s, t).workers[t].pc) < PcCost(job.fs, s.workers[t].pc)
  {
    match Lookup(job.fs, s.workers[t].pc.current.path)
    case Directory(openable, entries) => assert entries[0..] == entries;
    case _ =>
  }

  lemma ScanningCosts(job: Job, s: State, t: nat)
    requires WellFormed(job.fs.root) && t < |s.workers| && WorkerOk(job, s, t) && s.workers[t].pc.Scanning?
    ensures WorkerCost(job.fs, WorkerNext(job, s, t).workers[t]) < WorkerCost(job.fs, s.workers[t])
  {
    var w := s.workers[t];
    var w' := WorkerNext(job, s, t).workers[t];
    assert Pending(w') == Pending(w) == [] && w'.queue == w.queue;
    ScannedPcCost(job, s, t);
  }

  lemma ScannedPcCost(job: Job, s: State, t: nat)
    requires WellFormed(job.fs.root) && t < |s.workers| && s.workers[t].pc.Scanning?
    requires IsScannable(job, s.workers[t].pc.directory, s.workers[t].pc.k)
    ensures PcCost(job.fs, WorkerNext(job, s, t).workers[t].pc) < PcCost(job.fs, s.workers[t].pc)
  {
    var e, k := s.workers[t].pc.directory, s.workers[t].pc.k;
    var entries := Lookup(job.fs, e.path).entries;
    if k < |entries| {
      LookupChild(job.fs, e.path, k);
      assert entries[k..] == [entries[k]] + entries[k + 1..];
    }
  }

  lemma HangCosts(job: Job, s: State, t: nat)
    requires t < |s.workers| && s.workers[t].pc.Inserting? && s.workers[t].pc.stage.Hang?
    ensures WorkerCost(job.fs, WorkerNext(job, s, t).workers[t]) < WorkerCost(job.fs, s.workers[t])
  {
    assert Pending(WorkerNext(job, s, t).workers[t]) == Pending(s.workers[t]);
    CostOfSnoc(job.fs, s.workers[t].queue.items, s.workers[t].pc.element, 0);
  }

  lemma RelinkCosts(job: Job, s: State, t: nat)
    requires t < |s.workers| && s.workers[t].pc.Inserting? && !s.workers[t].pc.stage.Hang?
    ensures WorkerCost(job.fs, WorkerNext(job, s, t).workers[t]) < WorkerCost(job.fs, s.workers[t])
  {
    assert Pending(WorkerNext(job, s, t).workers[t]) == Pending(s.workers[t]);
    assert WorkerNext(job, s, t).workers[t].queue.items == s.workers[t].queue.items;
  }

  lemma OtherCosts(job: Job, s: State, t: nat)
    requires WorkerEnabled(s, t)
    requires s.workers[t].pc.Locking? || s.workers[t].pc.Unlocking? || s.workers[t].pc.Finishing?
    ensures WorkerCost(job.fs, WorkerNext(job, s, t).workers[t]) < WorkerCost(job.fs, s.workers[t])
  {
  }

  lemma StepCosts(job: Job, s: State, t: nat)
    requires WellFormed(job.fs.root) && WorkerEnabled(s, t) && WorkerOk(job, s, t)
    ensures WorkerCost(job.fs, WorkerNext(job, s, t).workers[t]) < WorkerCost(job.fs, s.workers[t])
  {
    match s.workers[t].pc
    case Seeding(_) => SeedingCosts(job, s, t);
    case Testing => TestingCosts(job, s, t);
    case Visiting(_) => VisitingCosts(job, s, t);
    case Scanning(_, _) => ScanningCosts(job, s, t);
    case Inserting(_, stage, _) => if stage.Hang? { HangCosts(job, s, t); } else { RelinkCosts(job, s, t); }
    case _ => OtherCosts(job, s, t);
  }

  // ---------------------------------------------------------------- the whole system

  lemma WorkerDecreases(job: Job, s: State, t: nat)
    requires Inv(job, s) && WorkerEnabled(s, t)
    ensures Potential(job, WorkerNext(job, s, t)) < Potential(job, s)
  {
    var s' := WorkerNext(job, s, t);
    StepFootprint(job, s, t);
    assert s'.workers == s.workers[t := s'.workers[t]];
    CostUpdate(job.fs, s.workers, t, s'.workers[t]);
    StepCosts(job, s, t);
  }

  lemma MainDecreases(job: Job, s: State)
    requires Inv(job, s) && MainEnabled(s)
    ensures Potential(job, MainNext(s)) < Potential(job, s)
  {
    var s' := MainNext(s);
    if s.mpc.DealTo? && s.mpc.i < |s.workers| {
      var i := s.mpc.i;
      CostUpdate(job.fs, s.workers, i, s'.workers[i]);
      if s.mpc.j < s.perThread && s.dealt < s.numElements {
        RemoveKeeps(s.heap, s.main);
        assert s'.main.items == s.main.items[1..];
        CostOfSnoc(job.fs, s.workers[i].elements, s.main.items[0], 5);
      } else {
        assert Pending(s'.workers[i]) == Pending(s.workers[i]);
      }
    }
  }

  lemma StepDecreases(job: Job, s: State, a: Action)
    requires Inv(job, s) && Enabled(s, a)
    ensures Potential(job, Next(job, s, a)) < Potential(job, s)
  {
    match a
    case MainStep => MainDecreases(job, s);
    case WorkerStep(t) => WorkerDecreases(job, s, t);
  }

  lemma PotentialNotNegative(job: Job, s: State)
    requires Inv(job, s)
    ensures Potential(job, s) >= 0
  {
  }

  /** No run is longer than the potential of the state it starts in. */
  lemma {:induction false} RunsAreBounded(job: Job, s: State, schedule: seq<Action>)
    requires Inv(job, s) && Runs(job, s, schedule)
    ensures |schedule| + Potential(job, After(job, s, schedule)) <= Potential(job, s)
    ensures Inv(job, After(job, s, schedule))
    decreases |schedule|
  {
    if schedule == [] {
    } else {
      StepKeeps(job, s, schedule[0]);
      StepDecreases(job, s, schedule[0]);
      RunsAreBounded(job, Next(job, s, schedule[0]), schedule[1..]);
    }
  }

  /** Until the main thread has its result somebody can take a step: a worker that waits for the mutex waits for one
      that holds it and can go on. */
  lemma SomebodyCanMove(job: Job, s: State) returns (a: Action)
    requires Inv(job, s) && !s.mpc.Done?
    ensures Enabled(s, a)
  {
    a := MainStep;
    if !MainEnabled(s) {
      var i := s.mpc.i;
      if s.workers[i].pc.Locking? && s.mutex != Free {
        assert Publishing(s.workers[s.mutex.t].pc) <==> s.mutex == Held(s.mutex.t);
        a := WorkerStep(s.mutex.t);
      } else {
        a := WorkerStep(i);
      }
    }
  }
}
