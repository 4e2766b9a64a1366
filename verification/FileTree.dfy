/**
 The file system as the searches see it: an immutable finite tree, addressed by path names.
 */
module FileTree {
  import Tokens

  /** What lstat, opendir/readdir_r and fopen find at a path. `entries` are the names readdir_r delivers before it
      ends or fails, without "." and "..". */
  datatype Node =
    | Gone
    | SymLink
    | Special
    | File(readable: bool, content: string)
    | Directory(openable: bool, entries: seq<Entry>)

  datatype Entry = Entry(name: string, node: Node)

  datatype FileSystem = FileSystem(rootPath: string, root: Node)

  predicate SlashFree(name: string) { '/' !in name }

  /** Sibling names are distinct and contain no slash. */
  predicate WellFormed(node: Node) {
    node.Directory? ==>
      && (forall i | 0 <= i < |node.entries| :: SlashFree(node.entries[i].name) && WellFormed(node.entries[i].node))
      && (forall i, j | 0 <= i < j < |node.entries| :: node.entries[i].name != node.entries[j].name)
  }

  // ---------------------------------------------------------------- path names

  function Child(path: string, name: string): string { path + "/" + name }

  function NameEnd(rest: string, i: nat): (e: nat)
    requires i <= |rest|
    ensures i <= e <= |rest|
    ensures forall k | i <= k < e :: rest[k] != '/'
    ensures e < |rest| ==> rest[e] == '/'
    decreases |rest| - i
  {
    if i == |rest| || rest[i] == '/' then i else NameEnd(rest, i + 1)
  }

  lemma {:induction false} NameEndIs(rest: string, i: nat, e: nat)
    requires i <= e <= |rest|
    requires forall k | i <= k < e :: rest[k] != '/'
    requires e < |rest| ==> rest[e] == '/'
    ensures NameEnd(rest, i) == e
    decreases e - i
  {
    if i < e { NameEndIs(rest, i + 1, e); }
  }

  function Find(entries: seq<Entry>, name: string): Node {
    if entries == [] then Gone
    else if entries[0].name == name then entries[0].node
    else Find(entries[1..], name)
  }

  lemma {:induction false} FindsEntry(entries: seq<Entry>, k: nat)
    requires k < |entries|
    requires forall i, j | 0 <= i < j < |entries| :: entries[i].name != entries[j].name
    ensures Find(entries, entries[k].name) == entries[k].node
  {
    if k == 0 {
    } else {
      assert entries[0].name != entries[k].name;
      FindsEntry(entries[1..], k - 1);
    }
  }

  lemma {:induction false} FindsInside(entries: seq<Entry>, name: string)
    ensures Find(entries, name) == Gone || exists k :: 0 <= k < |entries| && entries[k].node == Find(entries, name)
  {
    if entries != [] && entries[0].name != name {
      FindsInside(entries[1..], name);
      if Find(entries, name) != Gone {
        var k :| 0 <= k < |entries[1..]| && entries[1..][k].node == Find(entries[1..], name);
        assert entries[k + 1].node == Find(entries, name);
      }
    }
  }

  /** Follows the components of `rest`, each introduced by a slash. */
  function Descend(node: Node, rest: string): Node
    decreases |rest|
  {
    if rest == "" then node
    else if rest[0] == '/' && node.Directory? then
      var e := NameEnd(rest, 1);
      Descend(Find(node.entries, rest[1..e]), rest[e..])
    else Gone
  }

  predicate Under(fs: FileSystem, path: string) { fs.rootPath <= path }

  /** What is at a path. */
  function Lookup(fs: FileSystem, path: string): Node {
    if Under(fs, path) then Descend(fs.root, path[|fs.rootPath|..]) else Gone
  }

  lemma {:induction false} DescendKeepsWellFormed(node: Node, rest: string)
    requires WellFormed(node)
    ensures WellFormed(Descend(node, rest))
    decreases |rest|
  {
    if rest != "" && rest[0] == '/' && node.Directory? {
      var e := NameEnd(rest, 1);
      FindsInside(node.entries, rest[1..e]);
      DescendKeepsWellFormed(Find(node.entries, rest[1..e]), rest[e..]);
    }
  }

  lemma {:induction false} DescendToChild(node: Node, rest: string, k: nat)
    requires WellFormed(node)
    requires Descend(node, rest).Directory? && k < |Descend(node, rest).entries|
    ensures var entry := Descend(node, rest).entries[k]; Descend(node, rest + "/" + entry.name) == entry.node
    decreases |rest|
  {
    var entry := Descend(node, rest).entries[k];
    var longer := rest + "/" + entry.name;
    if rest == "" {
      assert longer == "/" + entry.name;
      NameEndIs(longer, 1, |longer|);
      assert longer[1..|longer|] == entry.name && longer[|longer|..] == "";
      FindsEntry(node.entries, k);
      assert Descend(node, longer) == Descend(Find(node.entries, entry.name), "");
    } else {
      var e := NameEnd(rest, 1);
      NameEndIs(longer, 1, e);
      assert longer[1..e] == rest[1..e] && longer[e..] == rest[e..] + "/" + entry.name;
      FindsInside(node.entries, rest[1..e]);
      DescendToChild(Find(node.entries, rest[1..e]), rest[e..], k);
    }
  }

  /** The path built by strcpy and strcat names the entry it was built for. */
  lemma LookupChild(fs: FileSystem, path: string, k: nat)
    requires WellFormed(fs.root) && Under(fs, path)
    requires Lookup(fs, path).Directory? && k < |Lookup(fs, path).entries|
    ensures var entry := Lookup(fs, path).entries[k];
            && Child(path, entry.name) == path + "/" + entry.name
            && Under(fs, path + "/" + entry.name) && Lookup(fs, path + "/" + entry.name) == entry.node
  {
    var name := Lookup(fs, path).entries[k].name;
    DescendToChild(fs.root, path[|fs.rootPath|..], k);
    assert Child(path, name)[|fs.rootPath|..] == path[|fs.rootPath|..] + "/" + name;
  }

  lemma LookupWellFormed(fs: FileSystem, path: string)
    requires WellFormed(fs.root)
    ensures WellFormed(Lookup(fs, path))
  {
    if Under(fs, path) { DescendKeepsWellFormed(fs.root, path[|fs.rootPath|..]); }
  }

  lemma LookupRoot(fs: FileSystem)
    ensures Under(fs, fs.rootPath) && Lookup(fs, fs.rootPath) == fs.root
  {
  }

  // ---------------------------------------------------------------- what there is to visit and to search

  /** Every path at or below a node that a walk reaches: links are not followed, unopenable directories not read. */
  function Reached(path: string, node: Node): seq<string>
    decreases node, 0
  {
    [path] + if node.Directory? && node.openable then ReachedBelow(path, node.entries) else []
  }

  function ReachedBelow(path: string, entries: seq<Entry>): seq<string>
    decreases entries, 1
  {
    if entries == [] then []
    else Reached(Child(path, entries[0].name), entries[0].node) + ReachedBelow(path, entries[1..])
  }

  /** The readable regular files among them. */
  function Files(path: string, node: Node): seq<string>
    decreases node, 0
  {
    match node
    case File(readable, _) => if readable then [path] else []
    case Directory(openable, entries) => if openable then FilesBelow(path, entries) else []
    case _ => []
  }

  function FilesBelow(path: string, entries: seq<Entry>): seq<string>
    decreases entries, 1
  {
    if entries == [] then []
    else Files(Child(path, entries[0].name), entries[0].node) + FilesBelow(path, entries[1..])
  }

  function CountAt(fs: FileSystem, key: string, path: string): nat {
    match Lookup(fs, path)
    case File(_, content) => Tokens.CountFile(content, key)
    case _ => 0
  }

  function SumAt(fs: FileSystem, key: string, paths: seq<string>): nat {
    if paths == [] then 0 else CountAt(fs, key, paths[0]) + SumAt(fs, key, paths[1..])
  }

  /** The occurrences of the key in the file system: every reachable readable file counted once. */
  function Occurrences(fs: FileSystem, key: string): nat {
    SumAt(fs, key, Files(fs.rootPath, fs.root))
  }

  /** The tokens containing the key in all files of a tree, by recursion over the tree alone. */
  function Tally(node: Node, key: string): nat
    decreases node, 0
  {
    match node
    case File(readable, content) => if readable then Tokens.CountFile(content, key) else 0
    case Directory(openable, entries) => if openable then TallyEntries(entries, key) else 0
    case _ => 0
  }

  function TallyEntries(entries: seq<Entry>, key: string): nat
    decreases entries, 1
  {
    if entries == [] then 0 else Tally(entries[0].node, key) + TallyEntries(entries[1..], key)
  }

  lemma {:induction false} SumAppend(fs: FileSystem, key: string, a: seq<string>, b: seq<string>)
    ensures SumAt(fs, key, a + b) == SumAt(fs, key, a) + SumAt(fs, key, b)
  {
    if a == [] {
      assert a + b == b;
    } else {
      assert (a + b)[1..] == a[1..] + b;
      SumAppend(fs, key, a[1..], b);
    }
  }

  lemma {:induction false} SumIsTally(fs: FileSystem, key: string, path: string, node: Node)
    requires WellFormed(fs.root) && Under(fs, path) && Lookup(fs, path) == node
    ensures SumAt(fs, key, Files(path, node)) == Tally(node, key)
    decreases node, 0
  {
    match node
    case File(readable, content) =>
      if readable { assert SumAt(fs, key, [path]) == CountAt(fs, key, path) + SumAt(fs, key, []); }
    case Directory(openable, entries) =>
      if openable {
        SumIsTallyBelow(fs, key, path, entries, 0);
        assert entries[0..] == entries;
      }
    case _ =>
  }

  lemma {:induction false} SumIsTallyBelow(fs: FileSystem, key: string, path: string, entries: seq<Entry>, k: nat)
    requires WellFormed(fs.root) && Under(fs, path) && k <= |entries|
    requires Lookup(fs, path).Directory? && Lookup(fs, path).entries == entries
    ensures SumAt(fs, key, FilesBelow(path, entries[k..])) == TallyEntries(entries[k..], key)
    decreases entries, 1, |entries| - k
  {
    if k == |entries| {
    } else {
      var first := Child(path, entries[k].name);
      LookupChild(fs, path, k);
      SumIsTally(fs, key, first, entries[k].node);
      SumIsTallyBelow(fs, key, path, entries, k + 1);
      SumAppend(fs, key, Files(first, entries[k].node), FilesBelow(path, entries[k + 1..]));
    }
  }

  /** The occurrences, summed over paths, are those of the tree. */
  lemma OccurrencesAreTally(fs: FileSystem, key: string)
    requires WellFormed(fs.root)
    ensures Occurrences(fs, key) == Tally(fs.root, key)
  {
    LookupRoot(fs);
    SumIsTally(fs, key, fs.rootPath, fs.root);
  }

  lemma TakeOut(fs: FileSystem, key: string, b: seq<string>, k: nat)
    requires k < |b|
    ensures SumAt(fs, key, b) == CountAt(fs, key, b[k]) + SumAt(fs, key, b[..k] + b[k + 1..])
    ensures multiset(b) == multiset{b[k]} + multiset(b[..k] + b[k + 1..])
  {
    assert b == b[..k] + ([b[k]] + b[k + 1..]);
    SumAppend(fs, key, b[..k], b[k + 1..]);
    SumAppend(fs, key, b[..k], [b[k]] + b[k + 1..]);
  }

  lemma TailPermutes(a: seq<string>, b: seq<string>, k: nat)
    requires a != [] && k < |b| && b[k] == a[0]
    requires multiset(a) == multiset(b) == multiset{b[k]} + multiset(b[..k] + b[k + 1..])
    ensures multiset(a[1..]) == multiset(b[..k] + b[k + 1..])
  {
    var rest := b[..k] + b[k + 1..];
    assert a == [a[0]] + a[1..];
    assert multiset(a) == multiset{a[0]} + multiset(a[1..]);
    assert multiset(a[1..]) == multiset(a) - multiset{a[0]};
    assert multiset(rest) == multiset(b) - multiset{a[0]};
  }

  /** The order in which the files are searched does not matter. */
  lemma {:induction false} SumPermutes(fs: FileSystem, key: string, a: seq<string>, b: seq<string>)
    requires multiset(a) == multiset(b)
    ensures SumAt(fs, key, a) == SumAt(fs, key, b)
    decreases |a|
  {
    if a == [] {
      assert |b| == |multiset(b)| == |multiset(a)|;
    } else {
      assert a[0] in multiset(b);
      var k :| 0 <= k < |b| && b[k] == a[0];
      TakeOut(fs, key, b, k);
      TailPermutes(a, b, k);
      SumPermutes(fs, key, a[1..], b[..k] + b[k + 1..]);
    }
  }

  // ---------------------------------------------------------------- paths are distinct

  /** q is path itself or lies below it. */
  predicate AtOrBelow(path: string, q: string) { q == path || Child(path, "") <= q }

  lemma BelowIsBelow(path: string, name: string, q: string)
    requires AtOrBelow(Child(path, name), q)
    ensures q != path && AtOrBelow(path, q)
    ensures Child(path, name) <= q && (|Child(path, name)| < |q| ==> q[|Child(path, name)|] == '/')
  {
    assert Child(path, "") <= Child(path, name) <= q;
    if q != Child(path, name) { assert Child(Child(path, name), "")[|Child(path, name)|] == '/'; }
  }

  lemma SiblingsAreApart(path: string, name: string, other: string, q: string)
    requires SlashFree(name) && SlashFree(other) && AtOrBelow(Child(path, name), q) && AtOrBelow(Child(path, other), q)
    ensures name == other
  {
    BelowIsBelow(path, name, q);
    BelowIsBelow(path, other, q);
    var k := |path| + 1;
    assert name == q[k..k + |name|] && other == q[k..k + |other|];
    NameInside(name, q, k);
    NameInside(other, q, k);
    NameEndIs(q, k, k + |name|);
    NameEndIs(q, k, k + |other|);
  }

  lemma NameInside(name: string, q: string, k: nat)
    requires k + |name| <= |q| && name == q[k..k + |name|] && SlashFree(name)
    ensures forall i | k <= i < k + |name| :: q[i] != '/'
  {
    forall i | k <= i < k + |name| ensures q[i] != '/' { assert q[i] == name[i - k]; }
  }

  lemma {:induction false} ReachedIsBelow(path: string, node: Node, q: string)
    requires q in Reached(path, node)
    ensures AtOrBelow(path, q)
    decreases node, 0
  {
    if q != path { ReachedBelowIsBelow(path, node.entries, q); }
  }

  lemma {:induction false} ReachedBelowIsBelow(path: string, entries: seq<Entry>, q: string)
    requires q in ReachedBelow(path, entries)
    ensures q != path && AtOrBelow(path, q)
    ensures exists k :: 0 <= k < |entries| && AtOrBelow(Child(path, entries[k].name), q)
    decreases entries, 1
  {
    var name := entries[0].name;
    if q in Reached(Child(path, name), entries[0].node) {
      ReachedIsBelow(Child(path, name), entries[0].node, q);
      BelowIsBelow(path, name, q);
    } else {
      ReachedBelowIsBelow(path, entries[1..], q);
      var k :| 0 <= k < |entries[1..]| && AtOrBelow(Child(path, entries[1..][k].name), q);
      assert entries[1..][k] == entries[k + 1];
    }
  }

  predicate NoDuplicates(s: seq<string>) { forall i, j | 0 <= i < j < |s| :: s[i] != s[j] }

  lemma AppendNoDuplicates(a: seq<string>, b: seq<string>)
    requires NoDuplicates(a) && NoDuplicates(b) && forall q | q in a :: q !in b
    ensures NoDuplicates(a + b)
  {
    forall i, j | 0 <= i < j < |a + b| ensures (a + b)[i] != (a + b)[j] {
      if j < |a| {
        assert (a + b)[i] == a[i] && (a + b)[j] == a[j];
      } else if i < |a| {
        assert (a + b)[i] == a[i] && a[i] in a && (a + b)[j] == b[j - |a|] && b[j - |a|] in b;
      } else {
        assert (a + b)[i] == b[i - |a|] && (a + b)[j] == b[j - |a|];
      }
    }
  }

  /** Each reachable node has a path name of its own. */
  lemma {:induction false} ReachedDistinct(path: string, node: Node)
    requires WellFormed(node)
    ensures NoDuplicates(Reached(path, node))
    decreases node, 0
  {
    if node.Directory? && node.openable {
      ReachedBelowDistinct(path, node.entries);
      if path in ReachedBelow(path, node.entries) { ReachedBelowIsBelow(path, node.entries, path); }
      AppendNoDuplicates([path], ReachedBelow(path, node.entries));
    }
  }

  lemma {:induction false} ReachedBelowDistinct(path: string, entries: seq<Entry>)
    requires forall i | 0 <= i < |entries| :: SlashFree(entries[i].name) && WellFormed(entries[i].node)
    requires forall i, j | 0 <= i < j < |entries| :: entries[i].name != entries[j].name
    ensures NoDuplicates(ReachedBelow(path, entries))
    decreases entries, 1
  {
    if entries == [] {
    } else {
      var first := Reached(Child(path, entries[0].name), entries[0].node);
      ReachedDistinct(Child(path, entries[0].name), entries[0].node);
      ReachedBelowDistinct(path, entries[1..]);
      forall q | q in first ensures q !in ReachedBelow(path, entries[1..]) {
        if q in ReachedBelow(path, entries[1..]) {
          ReachedIsBelow(Child(path, entries[0].name), entries[0].node, q);
          ReachedBelowIsBelow(path, entries[1..], q);
          var k :| 0 <= k < |entries[1..]| && AtOrBelow(Child(path, entries[1..][k].name), q);
          SiblingsAreApart(path, entries[0].name, entries[k + 1].name, q);
        }
      }
      AppendNoDuplicates(first, ReachedBelow(path, entries[1..]));
    }
  }

  // ---------------------------------------------------------------- the searched files are reached

  lemma {:induction false} FilesAreReached(path: string, node: Node)
    ensures multiset(Files(path, node)) <= multiset(Reached(path, node))
    decreases node, 0
  {
    match node
    case Directory(openable, entries) =>
      if openable {
        FilesBelowAreReached(path, entries);
        assert multiset(Reached(path, node)) == multiset{path} + multiset(ReachedBelow(path, entries));
      }
    case _ =>
  }

  lemma {:induction false} FilesBelowAreReached(path: string, entries: seq<Entry>)
    ensures multiset(FilesBelow(path, entries)) <= multiset(ReachedBelow(path, entries))
    decreases entries, 1
  {
    if entries == [] {
    } else {
      FilesAreReached(Child(path, entries[0].name), entries[0].node);
      FilesBelowAreReached(path, entries[1..]);
    }
  }

  lemma {:induction false} NoDuplicatesCounts(s: seq<string>, q: string)
    requires NoDuplicates(s)
    ensures multiset(s)[q] <= 1
  {
    if s == [] {
    } else {
      assert s == [s[0]] + s[1..];
      assert forall k | 0 <= k < |s[1..]| :: s[1..][k] == s[k + 1] != s[0];
      NoDuplicatesCounts(s[1..], q);
      assert multiset(s) == multiset{s[0]} + multiset(s[1..]);
    }
  }

  /** No file is to be searched twice. */
  lemma FilesDistinct(fs: FileSystem, q: string)
    requires WellFormed(fs.root)
    ensures multiset(Files(fs.rootPath, fs.root))[q] <= 1
  {
    ReachedDistinct(fs.rootPath, fs.root);
    NoDuplicatesCounts(Reached(fs.rootPath, fs.root), q);
    FilesAreReached(fs.rootPath, fs.root);
  }

  // ---------------------------------------------------------------- regular files, readable or not

  /** The same tree with every file readable. */
  function AllReadable(node: Node): Node
    decreases node, 0
  {
    match node
    case File(_, content) => File(true, content)
    case Directory(openable, entries) => Directory(openable, AllReadableEntries(entries))
    case _ => node
  }

  function AllReadableEntries(entries: seq<Entry>): (all: seq<Entry>)
    ensures |all| == |entries|
    ensures forall k | 0 <= k < |entries| :: all[k] == Entry(entries[k].name, AllReadable(entries[k].node))
    decreases entries, 1
  {
    if entries == [] then [] else [Entry(entries[0].name, AllReadable(entries[0].node))] + AllReadableEntries(entries[1..])
  }

  function Unlocked(fs: FileSystem): FileSystem { fs.(root := AllReadable(fs.root)) }

  lemma {:induction false} AllReadableWellFormed(node: Node)
    requires WellFormed(node)
    ensures WellFormed(AllReadable(node))
  {
    if node.Directory? {
      forall k | 0 <= k < |node.entries| ensures WellFormed(AllReadable(node.entries[k].node)) {
        AllReadableWellFormed(node.entries[k].node);
      }
    }
  }

  lemma {:induction false} FindAllReadable(entries: seq<Entry>, name: string)
    ensures Find(AllReadableEntries(entries), name) == AllReadable(Find(entries, name))
  {
    if entries == [] {
    } else {
      assert AllReadableEntries(entries)[1..] == AllReadableEntries(entries[1..]);
      FindAllReadable(entries[1..], name);
    }
  }

  lemma {:induction false} DescendAllReadable(node: Node, rest: string)
    ensures Descend(AllReadable(node), rest) == AllReadable(Descend(node, rest))
    decreases |rest|
  {
    if rest != "" && rest[0] == '/' && node.Directory? {
      var e := NameEnd(rest, 1);
      FindAllReadable(node.entries, rest[1..e]);
      DescendAllReadable(Find(node.entries, rest[1..e]), rest[e..]);
    }
  }

  lemma LookupUnlocked(fs: FileSystem, path: string)
    ensures Under(Unlocked(fs), path) == Under(fs, path) && Lookup(Unlocked(fs), path) == AllReadable(Lookup(fs, path))
  {
    if Under(fs, path) { DescendAllReadable(fs.root, path[|fs.rootPath|..]); }
  }
}
