/** serial_search visits level by level, and within a level in the order in which the directories list their entries. */
module LevelOrder {
  import opened FileTree
  import opened SerialSearch

  // ---------------------------------------------------------------- the levels of a tree

  /** The paths d levels below a node, in the order of the entries. */
  function Level(path: string, node: Node, d: nat): seq<string>
    decreases node, 0
  {
    if d == 0 then [path]
    else if node.Directory? && node.openable then LevelBelow(path, node.entries, d - 1)
    else []
  }

  function LevelBelow(path: string, entries: seq<Entry>, d: nat): seq<string>
    decreases entries, 1
  {
    if entries == [] then []
    else Level(path + "/" + entries[0].name, entries[0].node, d) + LevelBelow(path, entries[1..], d)
  }

  function Height(node: Node): nat
    decreases node, 0
  {
    1 + if node.Directory? && node.openable then HeightBelow(node.entries) else 0
  }

  function HeightBelow(entries: seq<Entry>): nat
    decreases entries, 1
  {
    if entries == [] then 0
    else
      var first, rest := Height(entries[0].node), HeightBelow(entries[1..]);
      if first > rest then first else rest
  }

  /** The levels from d up to the height h, one after the other. */
  function Levels(path: string, node: Node, d: nat, h: nat): seq<string>
    requires d <= h
    decreases h - d
  {
    if d == h then [] else Level(path, node, d) + Levels(path, node, d + 1, h)
  }

  lemma {:induction false} NothingDeeper(path: string, node: Node, d: nat)
    requires d >= Height(node)
    ensures Level(path, node, d) == []
    decreases node, 0
  {
    if node.Directory? && node.openable { NothingDeeperBelow(path, node.entries, d - 1); }
  }

  lemma {:induction false} NothingDeeperBelow(path: string, entries: seq<Entry>, d: nat)
    requires d >= HeightBelow(entries)
    ensures LevelBelow(path, entries, d) == []
    decreases entries, 1
  {
    if entries == [] {
    } else {
      NothingDeeper(path + "/" + entries[0].name, entries[0].node, d);
      NothingDeeperBelow(path, entries[1..], d);
    }
  }

  // ---------------------------------------------------------------- a walk goes through its queue first

  /** What the visits of a whole queue add. */
  function AllKids(fs: FileSystem, q: seq<string>): seq<string> {
    if q == [] then [] else Kids(fs, q[0]) + AllKids(fs, q[1..])
  }

  lemma {:induction false} AllKidsAppend(fs: FileSystem, a: seq<string>, b: seq<string>)
    ensures AllKids(fs, a + b) == AllKids(fs, a) + AllKids(fs, b)
  {
    if a == [] {
      assert a + b == b;
    } else {
      assert (a + b)[1..] == a[1..] + b;
      AllKidsAppend(fs, a[1..], b);
    }
  }

  lemma {:induction false} AllKidsAreUnder(fs: FileSystem, q: seq<string>)
    requires WellFormed(fs.root) && AllUnder(fs, q)
    ensures AllUnder(fs, AllKids(fs, q))
  {
    if q == [] {
    } else {
      KidsAreUnder(fs, q[0]);
      AllKidsAreUnder(fs, q[1..]);
    }
  }

  lemma UnderAppend(fs: FileSystem, a: seq<string>, b: seq<string>)
    requires AllUnder(fs, a) && AllUnder(fs, b)
    ensures AllUnder(fs, a + b)
  {
  }

  /** One visit. */
  lemma WalkOne(fs: FileSystem, first: string, rest: seq<string>, q: seq<string>)
    requires WellFormed(fs.root) && q == [first] + rest && AllUnder(fs, q)
    ensures AllUnder(fs, rest + Kids(fs, first)) && Walk(fs, q) == [first] + Walk(fs, rest + Kids(fs, first))
  {
    VisitShrinks(fs, q);
    assert q[1..] == rest;
  }

  lemma {:induction false} WalkAhead(fs: FileSystem, a: seq<string>, b: seq<string>)
    requires WellFormed(fs.root) && AllUnder(fs, a) && AllUnder(fs, b)
    ensures AllUnder(fs, a + b) && AllUnder(fs, b + AllKids(fs, a))
    ensures Walk(fs, a + b) == a + Walk(fs, b + AllKids(fs, a))
    decreases |a|
  {
    UnderAppend(fs, a, b);
    AllKidsAreUnder(fs, a);
    UnderAppend(fs, b, AllKids(fs, a));
    if a == [] {
      assert a + b == b && b + AllKids(fs, a) == b;
    } else {
      var kids := Kids(fs, a[0]);
      KidsAreUnder(fs, a[0]);
      UnderAppend(fs, b, kids);
      WalkAhead(fs, a[1..], b + kids);
      assert a + b == [a[0]] + (a[1..] + b);
      WalkOne(fs, a[0], a[1..] + b, a + b);
      Regroup(a[1..], b, kids);
      Regroup(b, kids, AllKids(fs, a[1..]));
      Regroup([a[0]], a[1..], Walk(fs, b + AllKids(fs, a)));
      assert [a[0]] + a[1..] == a;
    }
  }

  lemma Regroup(a: seq<string>, b: seq<string>, c: seq<string>)
    ensures (a + b) + c == a + (b + c)
  {
  }

  // ---------------------------------------------------------------- level by level

  lemma {:induction false} LevelIsUnder(fs: FileSystem, path: string, node: Node, d: nat)
    requires Under(fs, path)
    ensures AllUnder(fs, Level(path, node, d))
    decreases node, 0
  {
    if d > 0 && node.Directory? && node.openable { LevelBelowIsUnder(fs, path, node.entries, d - 1); }
  }

  lemma {:induction false} LevelBelowIsUnder(fs: FileSystem, path: string, entries: seq<Entry>, d: nat)
    requires Under(fs, path)
    ensures AllUnder(fs, LevelBelow(path, entries, d))
    decreases entries, 1
  {
    if entries == [] {
    } else {
      LevelIsUnder(fs, path + "/" + entries[0].name, entries[0].node, d);
      LevelBelowIsUnder(fs, path, entries[1..], d);
    }
  }

  lemma {:induction false} FirstLevel(path: string, entries: seq<Entry>)
    ensures LevelBelow(path, entries, 0) == Names(path, entries)
  {
    if entries == [] {
    } else {
      FirstLevel(path, entries[1..]);
      assert Names(path, entries) == [path + "/" + entries[0].name] + Names(path, entries[1..]);
    }
  }

  lemma KidsAreFirstLevel(fs: FileSystem, path: string, node: Node)
    requires Lookup(fs, path) == node
    ensures AllKids(fs, Level(path, node, 0)) == Level(path, node, 1)
  {
    assert AllKids(fs, [path]) == Kids(fs, path) + AllKids(fs, []);
    if node.Directory? && node.openable { FirstLevel(path, node.entries); }
  }

  /** The entries are found below the path. */
  predicate Hang(fs: FileSystem, path: string, entries: seq<Entry>) {
    forall k | 0 <= k < |entries| :: IsAt(fs, path + "/" + entries[k].name, entries[k].node)
  }

  predicate IsAt(fs: FileSystem, path: string, node: Node) { Under(fs, path) && Lookup(fs, path) == node }

  lemma EntriesHang(fs: FileSystem, path: string, node: Node)
    requires WellFormed(fs.root) && IsAt(fs, path, node) && node.Directory?
    ensures Hang(fs, path, node.entries)
  {
    forall k | 0 <= k < |node.entries| ensures IsAt(fs, path + "/" + node.entries[k].name, node.entries[k].node) {
      LookupChild(fs, path, k);
    }
  }

  lemma {:induction false} NextLevel(fs: FileSystem, path: string, node: Node, d: nat)
    requires WellFormed(fs.root) && IsAt(fs, path, node)
    ensures AllKids(fs, Level(path, node, d)) == Level(path, node, d + 1)
    decreases node, 1
  {
    if d == 0 {
      KidsAreFirstLevel(fs, path, node);
    } else if node.Directory? && node.openable {
      NextOpenLevel(fs, path, node, d - 1);
      OpenLevel(path, node, d);
    } else {
      ClosedLevel(fs, path, node, d);
    }
  }

  lemma {:induction false} NextOpenLevel(fs: FileSystem, path: string, node: Node, d: nat)
    requires WellFormed(fs.root) && IsAt(fs, path, node) && node.Directory?
    ensures AllKids(fs, LevelBelow(path, node.entries, d)) == LevelBelow(path, node.entries, d + 1)
    decreases node, 0
  {
    EntriesHang(fs, path, node);
    NextLevelBelow(fs, path, node.entries, d);
  }

  lemma OpenLevel(path: string, node: Node, d: nat)
    requires node.Directory? && node.openable && d > 0
    ensures Level(path, node, d) == LevelBelow(path, node.entries, d - 1)
    ensures Level(path, node, d + 1) == LevelBelow(path, node.entries, d)
  {
  }

  lemma ClosedLevel(fs: FileSystem, path: string, node: Node, d: nat)
    requires !(node.Directory? && node.openable) && d > 0
    ensures Level(path, node, d) == Level(path, node, d + 1) == AllKids(fs, Level(path, node, d))
  {
  }

  lemma {:induction false} NextLevelBelow(fs: FileSystem, path: string, entries: seq<Entry>, d: nat)
    requires WellFormed(fs.root) && Hang(fs, path, entries)
    ensures AllKids(fs, LevelBelow(path, entries, d)) == LevelBelow(path, entries, d + 1)
    decreases entries, 1
  {
    if entries == [] {
    } else {
      var child, node := path + "/" + entries[0].name, entries[0].node;
      assert IsAt(fs, child, node);
      NextLevel(fs, child, node, d);
      NextLevelBelow(fs, path, entries[1..], d);
      AllKidsAppend(fs, Level(child, node, d), LevelBelow(path, entries[1..], d));
    }
  }

  lemma LevelThenNext(fs: FileSystem, d: nat)
    requires WellFormed(fs.root)
    ensures AllUnder(fs, Level(fs.rootPath, fs.root, d)) && AllUnder(fs, Level(fs.rootPath, fs.root, d + 1))
    ensures Walk(fs, Level(fs.rootPath, fs.root, d)) ==
            Level(fs.rootPath, fs.root, d) + Walk(fs, Level(fs.rootPath, fs.root, d + 1))
  {
    LookupRoot(fs);
    var level, next := Level(fs.rootPath, fs.root, d), Level(fs.rootPath, fs.root, d + 1);
    LevelIsUnder(fs, fs.rootPath, fs.root, d);
    LevelIsUnder(fs, fs.rootPath, fs.root, d + 1);
    NextLevel(fs, fs.rootPath, fs.root, d);
    WalkAhead(fs, level, []);
    assert level + [] == level && [] + next == next;
  }

  lemma {:induction false} WalkFromLevel(fs: FileSystem, d: nat)
    requires WellFormed(fs.root) && d <= Height(fs.root)
    ensures AllUnder(fs, Level(fs.rootPath, fs.root, d))
    ensures Walk(fs, Level(fs.rootPath, fs.root, d)) == Levels(fs.rootPath, fs.root, d, Height(fs.root))
    decreases Height(fs.root) - d
  {
    if d == Height(fs.root) {
      NothingDeeper(fs.rootPath, fs.root, d);
    } else {
      LevelThenNext(fs, d);
      WalkFromLevel(fs, d + 1);
    }
  }

  /** The visits of serial_search, in order, are the levels of the tree, one after the other. */
  lemma VisitsByLevel(fs: FileSystem)
    requires WellFormed(fs.root)
    ensures Order(fs) == Levels(fs.rootPath, fs.root, 0, Height(fs.root))
  {
    WalkFromLevel(fs, 0);
  }
}
