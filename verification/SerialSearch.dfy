/** serial_search: the breadth-first walk that serves as the specification of the parallel forms. */
module SerialSearch {
  import opened FileTree
  import opened ElementQueue
  import Tokens

  predicate AllUnder(fs: FileSystem, q: seq<string>) { forall i | 0 <= i < |q| :: Under(fs, q[i]) }

  /** The names a walk builds for the entries of the directory at a path. */
  function Names(path: string, entries: seq<Entry>): seq<string> {
    seq(|entries|, k requires 0 <= k < |entries| => Child(path, entries[k].name))
  }

  /** What a visit adds to the queue. */
  function Kids(fs: FileSystem, path: string): seq<string> {
    match Lookup(fs, path)
    case Directory(openable, entries) => if openable then Names(path, entries) else []
    case _ => []
  }

  function Size(node: Node): nat
    decreases node, 0
  {
    1 + if node.Directory? && node.openable then SizeBelow(node.entries) else 0
  }

  function SizeBelow(entries: seq<Entry>): nat
    decreases entries, 1
  {
    if entries == [] then 0 else Size(entries[0].node) + SizeBelow(entries[1..])
  }

  function QueueSize(fs: FileSystem, q: seq<string>): nat {
    if q == [] then 0 else Size(Lookup(fs, q[0])) + QueueSize(fs, q[1..])
  }

  lemma {:induction false} QueueSizeAppend(fs: FileSystem, a: seq<string>, b: seq<string>)
    ensures QueueSize(fs, a + b) == QueueSize(fs, a) + QueueSize(fs, b)
  {
    if a == [] {
      assert a + b == b;
    } else {
      assert (a + b)[1..] == a[1..] + b;
      QueueSizeAppend(fs, a[1..], b);
    }
  }

  lemma KidsAreUnder(fs: FileSystem, path: string)
    requires WellFormed(fs.root) && Under(fs, path)
    ensures AllUnder(fs, Kids(fs, path))
  {
    forall k | 0 <= k < |Kids(fs, path)| ensures Under(fs, Kids(fs, path)[k]) { LookupChild(fs, path, k); }
  }

  lemma {:induction false} KidsSize(fs: FileSystem, path: string, k: nat)
    requires WellFormed(fs.root) && Under(fs, path)
    requires Lookup(fs, path).Directory? && Lookup(fs, path).openable && k <= |Kids(fs, path)|
    ensures QueueSize(fs, Kids(fs, path)[k..]) == SizeBelow(Lookup(fs, path).entries[k..])
    decreases |Kids(fs, path)| - k
  {
    if k < |Kids(fs, path)| {
      LookupChild(fs, path, k);
      KidsSize(fs, path, k + 1);
    }
  }

  /** What is queued shrinks with every visit. */
  lemma VisitShrinks(fs: FileSystem, q: seq<string>)
    requires WellFormed(fs.root) && q != [] && AllUnder(fs, q)
    ensures AllUnder(fs, q[1..] + Kids(fs, q[0]))
    ensures QueueSize(fs, q[1..] + Kids(fs, q[0])) == QueueSize(fs, q) - 1
  {
    KidsAreUnder(fs, q[0]);
    QueueSizeAppend(fs, q[1..], Kids(fs, q[0]));
    if Lookup(fs, q[0]).Directory? && Lookup(fs, q[0]).openable { KidsSize(fs, q[0], 0); }
  }

  /** The order in which a breadth-first walk visits what is queued. */
  function Walk(fs: FileSystem, q: seq<string>): seq<string>
    requires WellFormed(fs.root) && AllUnder(fs, q)
    decreases QueueSize(fs, q)
  {
    if q == [] then [] else
      VisitShrinks(fs, q);
      [q[0]] + Walk(fs, q[1..] + Kids(fs, q[0]))
  }

  /** The order of the visits of a whole search. */
  function Order(fs: FileSystem): seq<string>
    requires WellFormed(fs.root)
  {
    Walk(fs, [fs.rootPath])
  }

  predicate IsSearched(fs: FileSystem, path: string) { Lookup(fs, path).File? && Lookup(fs, path).readable }

  /** The readable regular files among some paths. */
  function Searched(fs: FileSystem, paths: seq<string>): seq<string> {
    if paths == [] then [] else (if IsSearched(fs, paths[0]) then [paths[0]] else []) + Searched(fs, paths[1..])
  }

  lemma {:induction false} SearchedAppend(fs: FileSystem, a: seq<string>, b: seq<string>)
    ensures Searched(fs, a + b) == Searched(fs, a) + Searched(fs, b)
  {
    if a == [] {
      assert a + b == b;
    } else {
      assert (a + b)[1..] == a[1..] + b;
      SearchedAppend(fs, a[1..], b);
    }
  }

  // ---------------------------------------------------------------- the search

  /** The readdir_r loop: the names of the entries, each in a fresh element, at the end of the queue. */
  method InsertEntries(path: string, entries: seq<Entry>, queue: Queue)
    requires queue.Valid()
    modifies queue, queue.repr
    ensures queue.Valid() && fresh(queue.repr - old(queue.repr))
    ensures PathsOf(queue.items) == old(PathsOf(queue.items)) + Names(path, entries)
  {
    ghost var before, names := PathsOf(queue.items), Names(path, entries);
    for k := 0 to |entries|
      invariant queue.Valid() && fresh(queue.repr - old(queue.repr))
      invariant PathsOf(queue.items) == before + names[..k]
    {
      var element := new QueueElement(Child(path, entries[k].name));
      PathsAppend(queue.items, element);
      queue.Insert(element);
      assert names[..k + 1] == names[..k] + [Child(path, entries[k].name)];
    }
    assert names[..|entries|] == names;
  }

  /** One iteration of the walk after remove_element: a directory is expanded, a file searched. */
  method Visit(fs: FileSystem, key: string, path: string, queue: Queue) returns (found: nat)
    requires queue.Valid()
    modifies queue, queue.repr
    ensures queue.Valid() && fresh(queue.repr - old(queue.repr))
    ensures PathsOf(queue.items) == old(PathsOf(queue.items)) + Kids(fs, path)
    ensures found == SumAt(fs, key, Searched(fs, [path]))
  {
    found := 0;
    match Lookup(fs, path) {
      case Directory(openable, entries) =>
        if openable {
          InsertEntries(path, entries, queue);
        }
      case File(readable, content) =>
        if readable {
          found := Tokens.SearchContent(content, key);
        }
      case _ =>
    }
  }

  /** After some visits, with q queued and n tokens found. */
  ghost predicate Midway(fs: FileSystem, key: string, visited: seq<string>, q: seq<string>, n: nat)
    requires WellFormed(fs.root)
  {
    && AllUnder(fs, q) && Order(fs) == visited + Walk(fs, q)
    && n == SumAt(fs, key, Searched(fs, visited))
  }

  lemma MidwayStart(fs: FileSystem, key: string)
    requires WellFormed(fs.root)
    ensures Midway(fs, key, [], [fs.rootPath], 0)
  {
  }

  lemma AppendMoves(visited: seq<string>, first: string, rest: seq<string>)
    ensures visited + ([first] + rest) == (visited + [first]) + rest
  {
  }

  lemma WalkStep(fs: FileSystem, visited: seq<string>, q: seq<string>)
    requires WellFormed(fs.root) && AllUnder(fs, q) && q != []
    ensures AllUnder(fs, q[1..] + Kids(fs, q[0]))
    ensures visited + Walk(fs, q) == (visited + [q[0]]) + Walk(fs, q[1..] + Kids(fs, q[0]))
  {
    VisitShrinks(fs, q);
    AppendMoves(visited, q[0], Walk(fs, q[1..] + Kids(fs, q[0])));
  }

  lemma CountStep(fs: FileSystem, key: string, visited: seq<string>, path: string)
    ensures SumAt(fs, key, Searched(fs, visited + [path])) ==
            SumAt(fs, key, Searched(fs, visited)) + SumAt(fs, key, Searched(fs, [path]))
  {
    SearchedAppend(fs, visited, [path]);
    SumAppend(fs, key, Searched(fs, visited), Searched(fs, [path]));
  }

  /** One iteration moves the front of the queue to the visited paths and its entries to the back. */
  lemma MidwayStep(fs: FileSystem, key: string, visited: seq<string>, q: seq<string>, n: nat)
    requires WellFormed(fs.root) && Midway(fs, key, visited, q, n) && q != []
    ensures Midway(fs, key, visited + [q[0]], q[1..] + Kids(fs, q[0]), n + SumAt(fs, key, Searched(fs, [q[0]])))
    ensures QueueSize(fs, q[1..] + Kids(fs, q[0])) < QueueSize(fs, q)
  {
    VisitShrinks(fs, q);
    WalkStep(fs, visited, q);
    CountStep(fs, key, visited, q[0]);
  }

  lemma MidwayEnd(fs: FileSystem, key: string, visited: seq<string>, n: nat)
    requires WellFormed(fs.root) && Midway(fs, key, visited, [], n)
    ensures visited == Order(fs) && n == Occurrences(fs, key) == Tally(fs.root, key)
  {
    OccurrencesAreTally(fs, key);
    assert visited + [] == visited;
    WalkSearchesFiles(fs);
    SumPermutes(fs, key, Searched(fs, Order(fs)), Files(fs.rootPath, fs.root));
  }

  /** One iteration of the walk. */
  method VisitFirst(fs: FileSystem, key: string, queue: Queue, n: nat, ghost visited: seq<string>)
    returns (total: nat, ghost path: string)
    requires WellFormed(fs.root) && queue.Valid() && queue.items != []
    requires Midway(fs, key, visited, PathsOf(queue.items), n)
    modifies queue, queue.repr
    ensures queue.Valid() && fresh(queue.repr - old(queue.repr))
    ensures Midway(fs, key, visited + [path], PathsOf(queue.items), total)
    ensures QueueSize(fs, PathsOf(queue.items)) < old(QueueSize(fs, PathsOf(queue.items)))
  {
    ghost var before := PathsOf(queue.items);
    MidwayStep(fs, key, visited, before, n);
    path := before[0];
    var next := queue.Remove();
    assert PathsOf(queue.items) == before[1..];
    var found := Visit(fs, key, next.pathName, queue);
    total := n + found;
  }

  /** The queue with the initial path name in it. */
  method StartQueue(path: string) returns (queue: Queue)
    ensures queue.Valid() && fresh(queue) && fresh(queue.repr) && PathsOf(queue.items) == [path]
  {
    queue := new Queue();
    var element := new QueueElement(path);
    queue.Insert(element);
  }

  /** serial_search. `visited` lists the paths in the order of the visits. */
  method Search(fs: FileSystem, key: string) returns (n: nat, ghost visited: seq<string>)
    requires WellFormed(fs.root)
    ensures visited == Order(fs)
    ensures n == Occurrences(fs, key) == Tally(fs.root, key)
  {
    n, visited := 0, [];
    var queue := StartQueue(fs.rootPath);
    MidwayStart(fs, key);
    while queue.head != null
      invariant queue.Valid() && fresh(queue) && fresh(queue.repr)
      invariant Midway(fs, key, visited, PathsOf(queue.items), n)
      decreases QueueSize(fs, PathsOf(queue.items))
    {
      var total: nat;
      ghost var path: string;
      total, path := VisitFirst(fs, key, queue, n, visited);
      n, visited := total, visited + [path];
    }
    assert PathsOf(queue.items) == [];
    MidwayEnd(fs, key, visited, n);
  }

  // ---------------------------------------------------------------- what the walk visits

  function ReachedFrom(fs: FileSystem, q: seq<string>): seq<string> {
    if q == [] then [] else Reached(q[0], Lookup(fs, q[0])) + ReachedFrom(fs, q[1..])
  }

  lemma {:induction false} ReachedFromAppend(fs: FileSystem, a: seq<string>, b: seq<string>)
    ensures ReachedFrom(fs, a + b) == ReachedFrom(fs, a) + ReachedFrom(fs, b)
  {
    if a == [] {
      assert a + b == b;
    } else {
      assert (a + b)[1..] == a[1..] + b;
      ReachedFromAppend(fs, a[1..], b);
    }
  }

  lemma {:induction false} KidsReached(fs: FileSystem, path: string, k: nat)
    requires WellFormed(fs.root) && Under(fs, path)
    requires Lookup(fs, path).Directory? && Lookup(fs, path).openable && k <= |Kids(fs, path)|
    ensures ReachedFrom(fs, Kids(fs, path)[k..]) == ReachedBelow(path, Lookup(fs, path).entries[k..])
    decreases |Kids(fs, path)| - k
  {
    if k < |Kids(fs, path)| {
      LookupChild(fs, path, k);
      KidsReached(fs, path, k + 1);
    }
  }

  lemma ReachedSplits(fs: FileSystem, path: string)
    requires WellFormed(fs.root) && Under(fs, path)
    ensures Reached(path, Lookup(fs, path)) == [path] + ReachedFrom(fs, Kids(fs, path))
  {
    if Lookup(fs, path).Directory? && Lookup(fs, path).openable {
      KidsReached(fs, path, 0);
      assert Kids(fs, path)[0..] == Kids(fs, path);
      assert Lookup(fs, path).entries[0..] == Lookup(fs, path).entries;
    }
  }

  /** The walk visits what is reachable from its queue, each node as often as it is reachable. */
  lemma {:induction false} WalkVisits(fs: FileSystem, q: seq<string>)
    requires WellFormed(fs.root) && AllUnder(fs, q)
    ensures multiset(Walk(fs, q)) == multiset(ReachedFrom(fs, q))
    decreases QueueSize(fs, q)
  {
    if q == [] {
    } else {
      var rest := q[1..] + Kids(fs, q[0]);
      VisitShrinks(fs, q);
      WalkVisits(fs, rest);
      ReachedFromAppend(fs, q[1..], Kids(fs, q[0]));
      ReachedSplits(fs, q[0]);
    }
  }

  lemma {:induction false} SearchedReached(path: string, node: Node, fs: FileSystem)
    requires WellFormed(fs.root) && Under(fs, path) && Lookup(fs, path) == node
    ensures Searched(fs, Reached(path, node)) == Files(path, node)
    decreases node, 0
  {
    if node.Directory? && node.openable {
      SearchedReachedBelow(path, node.entries, fs, 0);
      assert node.entries[0..] == node.entries;
    }
  }

  lemma {:induction false} SearchedReachedBelow(path: string, entries: seq<Entry>, fs: FileSystem, k: nat)
    requires WellFormed(fs.root) && Under(fs, path) && k <= |entries|
    requires Lookup(fs, path).Directory? && Lookup(fs, path).entries == entries
    ensures Searched(fs, ReachedBelow(path, entries[k..])) == FilesBelow(path, entries[k..])
    decreases entries, 1, |entries| - k
  {
    if k == |entries| {
    } else {
      LookupChild(fs, path, k);
      SearchedReached(Child(path, entries[k].name), entries[k].node, fs);
      SearchedReachedBelow(path, entries, fs, k + 1);
      SearchedAppend(fs, Reached(Child(path, entries[k].name), entries[k].node), ReachedBelow(path, entries[k + 1..]));
    }
  }

  lemma {:induction false} SearchedCount(fs: FileSystem, a: seq<string>, p: string)
    ensures multiset(Searched(fs, a))[p] == if IsSearched(fs, p) then multiset(a)[p] else 0
  {
    if a == [] {
    } else {
      SearchedCount(fs, a[1..], p);
      assert a == [a[0]] + a[1..];
      assert multiset(a) == multiset{a[0]} + multiset(a[1..]);
    }
  }

  lemma SearchedPermutes(fs: FileSystem, a: seq<string>, b: seq<string>)
    requires multiset(a) == multiset(b)
    ensures multiset(Searched(fs, a)) == multiset(Searched(fs, b))
  {
    forall p ensures multiset(Searched(fs, a))[p] == multiset(Searched(fs, b))[p] {
      SearchedCount(fs, a, p);
      SearchedCount(fs, b, p);
    }
  }

  lemma WalkSearchesFiles(fs: FileSystem)
    requires WellFormed(fs.root)
    ensures multiset(Searched(fs, Order(fs))) == multiset(Files(fs.rootPath, fs.root))
  {
    LookupRoot(fs);
    WalkVisits(fs, [fs.rootPath]);
    assert ReachedFrom(fs, [fs.rootPath]) == Reached(fs.rootPath, fs.root);
    SearchedPermutes(fs, Order(fs), Reached(fs.rootPath, fs.root));
    SearchedReached(fs.rootPath, fs.root, fs);
  }

  /** Every node reachable without following links is visited exactly once, under a name of its own. */
  lemma VisitsExactlyOnce(fs: FileSystem, q: string)
    requires WellFormed(fs.root)
    ensures multiset(Order(fs))[q] == if q in Reached(fs.rootPath, fs.root) then 1 else 0
  {
    LookupRoot(fs);
    WalkVisits(fs, [fs.rootPath]);
    assert ReachedFrom(fs, [fs.rootPath]) == Reached(fs.rootPath, fs.root);
    ReachedDistinct(fs.rootPath, fs.root);
    NoDuplicatesCounts(Reached(fs.rootPath, fs.root), q);
    assert q in multiset(Reached(fs.rootPath, fs.root)) <==> q in Reached(fs.rootPath, fs.root);
  }

  // ---------------------------------------------------------------- in which order

  function Slashes(s: string): nat {
    if s == "" then 0 else (if s[0] == '/' then 1 else 0) + Slashes(s[1..])
  }

  lemma {:induction false} SlashesAppend(a: string, b: string)
    ensures Slashes(a + b) == Slashes(a) + Slashes(b)
  {
    if a == "" {
      assert a + b == b;
    } else {
      assert (a + b)[1..] == a[1..] + b;
      SlashesAppend(a[1..], b);
    }
  }

  lemma {:induction false} NoSlashes(name: string)
    requires SlashFree(name)
    ensures Slashes(name) == 0
  {
    if name == "" {
    } else {
      NoSlashes(name[1..]);
    }
  }

  /** How far a path lies below the root. */
  function Depth(fs: FileSystem, path: string): nat
    requires Under(fs, path)
  {
    Slashes(path[|fs.rootPath|..])
  }

  lemma KidsAreDeeper(fs: FileSystem, path: string, k: nat)
    requires WellFormed(fs.root) && Under(fs, path) && k < |Kids(fs, path)|
    ensures Under(fs, Kids(fs, path)[k]) && Depth(fs, Kids(fs, path)[k]) == Depth(fs, path) + 1
  {
    LookupChild(fs, path, k);
    LookupWellFormed(fs, path);
    var name := Lookup(fs, path).entries[k].name;
    assert Kids(fs, path)[k][|fs.rootPath|..] == path[|fs.rootPath|..] + ("/" + name);
    SlashesAppend(path[|fs.rootPath|..], "/" + name);
    SlashesAppend("/", name);
    NoSlashes(name);
  }

  /** A queue holds at most two neighbouring depths, the smaller one first. */
  predicate Layered(fs: FileSystem, q: seq<string>) {
    && AllUnder(fs, q)
    && (forall i, j | 0 <= i < j < |q| :: Depth(fs, q[i]) <= Depth(fs, q[j]) <= Depth(fs, q[0]) + 1)
  }

  /** A visit puts what is one deeper at the back. */
  lemma VisitKeepsLayers(fs: FileSystem, q: seq<string>)
    requires WellFormed(fs.root) && Layered(fs, q) && q != []
    ensures Layered(fs, q[1..] + Kids(fs, q[0]))
    ensures var rest := q[1..] + Kids(fs, q[0]); rest != [] ==> Depth(fs, q[0]) <= Depth(fs, rest[0])
  {
    var kids := Kids(fs, q[0]);
    VisitShrinks(fs, q);
    forall k | 0 <= k < |kids| ensures Under(fs, kids[k]) && Depth(fs, kids[k]) == Depth(fs, q[0]) + 1 {
      KidsAreDeeper(fs, q[0], k);
    }
    StillLayered(fs, q, kids);
  }

  lemma StillLayered(fs: FileSystem, q: seq<string>, kids: seq<string>)
    requires Layered(fs, q) && q != [] && AllUnder(fs, q[1..] + kids)
    requires forall k | 0 <= k < |kids| :: Under(fs, kids[k]) && Depth(fs, kids[k]) == Depth(fs, q[0]) + 1
    ensures Layered(fs, q[1..] + kids)
    ensures var rest := q[1..] + kids; rest != [] ==> Depth(fs, q[0]) <= Depth(fs, rest[0])
  {
    var rest := q[1..] + kids;
    forall i | 0 <= i < |rest|
      ensures Depth(fs, q[0]) <= Depth(fs, rest[i]) <= Depth(fs, q[0]) + 1
      ensures i >= |q| - 1 ==> Depth(fs, rest[i]) == Depth(fs, q[0]) + 1
    {
      if i >= |q| - 1 { assert rest[i] == kids[i - (|q| - 1)]; } else { assert rest[i] == q[i + 1]; }
    }
    forall i, j | 0 <= i < j < |rest| ensures Depth(fs, rest[i]) <= Depth(fs, rest[j]) <= Depth(fs, rest[0]) + 1 {
      if j < |q| - 1 { assert rest[i] == q[i + 1] && rest[j] == q[j + 1]; }
    }
  }

  predicate ByDepth(fs: FileSystem, paths: seq<string>) {
    && AllUnder(fs, paths)
    && (forall i, j | 0 <= i < j < |paths| :: Depth(fs, paths[i]) <= Depth(fs, paths[j]))
  }

  lemma InFront(fs: FileSystem, first: string, tail: seq<string>)
    requires Under(fs, first) && ByDepth(fs, tail) && (tail != [] ==> Depth(fs, first) <= Depth(fs, tail[0]))
    ensures ByDepth(fs, [first] + tail)
  {
    var all := [first] + tail;
    forall i, j | 0 <= i < j < |all| ensures Depth(fs, all[i]) <= Depth(fs, all[j]) {
      assert all[j] == tail[j - 1];
      if i > 0 { assert all[i] == tail[i - 1]; }
    }
  }

  /** The walk never comes back to a smaller depth. */
  lemma {:induction false} WalkByDepth(fs: FileSystem, q: seq<string>)
    requires WellFormed(fs.root) && Layered(fs, q)
    ensures ByDepth(fs, Walk(fs, q))
    ensures q != [] ==> Walk(fs, q) != [] && Walk(fs, q)[0] == q[0]
    decreases QueueSize(fs, q)
  {
    if q == [] {
    } else {
      var rest := q[1..] + Kids(fs, q[0]);
      VisitShrinks(fs, q);
      VisitKeepsLayers(fs, q);
      WalkByDepth(fs, rest);
      InFront(fs, q[0], Walk(fs, rest));
    }
  }

  lemma VisitsByDepth(fs: FileSystem, i: nat, j: nat)
    requires WellFormed(fs.root) && i < j < |Order(fs)|
    ensures AllUnder(fs, Order(fs)) && Depth(fs, Order(fs)[i]) <= Depth(fs, Order(fs)[j])
  {
    WalkByDepth(fs, [fs.rootPath]);
  }
}
