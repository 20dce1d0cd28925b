/**
  The embedded runtime's cache (src/backend/embedded.rs): files are extracted into a staging directory, and a
  directory tree is trusted only after it has been compared with the manifest.
 */
module RuntimeTree {
  import opened Prelude

  type Name = string
  type Path = seq<Name>   // below the runtime root, which is the empty path
  type Bytes = seq<bv8>

  const MANIFEST: Name := "BUNDLE-MANIFEST.json"

  datatype Node = Dir | File(content: Bytes, executable: bool) | Link | Special

  type Tree = map<Path, Node>

  datatype Entry = Entry(path: Path, size: nat, sha256: string, executable: bool)

  function Parent(p: Path): Path
    requires p != []
  {
    p[..|p| - 1]
  }

  /** A file system: everything lies in a directory. */
  predicate WellFormed(tree: Tree) {
    forall p <- tree :: p != [] && (Parent(p) == [] || (Parent(p) in tree && tree[Parent(p)].Dir?))
  }

  function Children(tree: Tree, directory: Path): set<Path> {
    set p | p in tree && p != [] && Parent(p) == directory
  }

  // ---------------------------------------------------------------- what the manifest asks for

  function Ancestors(p: Path): set<Path> { set k | 0 < k < |p| :: p[..k] }

  function FilesOf(entries: seq<Entry>): set<Path> { (set e | e in entries :: e.path) + {[MANIFEST]} }

  function DirectoriesOf(entries: seq<Entry>): set<Path> { set e, d | e in entries && d in Ancestors(e.path) :: d }

  predicate EntryFits(tree: Tree, entry: Entry, digest: Bytes -> string) {
    && entry.path in tree && tree[entry.path].File?
    && |tree[entry.path].content| == entry.size
    && tree[entry.path].executable == entry.executable
    && digest(tree[entry.path].content) == entry.sha256
  }

  predicate Expected(node: Node, path: Path, files: set<Path>, directories: set<Path>) {
    (node.Dir? && path in directories) || (node.File? && path in files)
  }

  /** The tree holds the manifest's files as described, the directories they need, and nothing else. */
  ghost predicate Matches(tree: Tree, entries: seq<Entry>, manifest: Bytes, digest: Bytes -> string) {
    && (forall p <- tree :: Expected(tree[p], p, FilesOf(entries), DirectoriesOf(entries)))
    && [MANIFEST] in tree && tree[[MANIFEST]].File? && tree[[MANIFEST]].content == manifest
    && forall entry <- entries :: EntryFits(tree, entry, digest)
  }

  lemma {:induction false} AncestorsPresent(tree: Tree, p: Path, k: nat)
    requires WellFormed(tree) && p in tree && 0 < k < |p|
    ensures p[..k] in tree && tree[p[..k]].Dir?
    decreases |p| - k
  {
    if k < |p| - 1 {
      AncestorsPresent(tree, p, k + 1);
      assert Parent(p[..k + 1]) == p[..k];
    } else {
      assert Parent(p) == p[..k];
    }
  }

  /** A tree that matches has exactly the paths of the manifest. */
  lemma MatchesExactly(tree: Tree, entries: seq<Entry>, manifest: Bytes, digest: Bytes -> string)
    requires WellFormed(tree) && Matches(tree, entries, manifest, digest)
    ensures tree.Keys == FilesOf(entries) + DirectoriesOf(entries)
    ensures FilesOf(entries) !! DirectoriesOf(entries)
    ensures forall p <- tree :: if p in FilesOf(entries) then tree[p].File? else tree[p].Dir?
  {
    forall d | d in DirectoriesOf(entries) ensures d in tree && tree[d].Dir? {
      var e :| e in entries && d in Ancestors(e.path);
      var k :| 0 < k < |e.path| && d == e.path[..k];
      assert EntryFits(tree, e, digest);
      AncestorsPresent(tree, e.path, k);
    }
    forall p | p in FilesOf(entries) ensures p in tree && tree[p].File? {
      if p != [MANIFEST] {
        var e :| e in entries && e.path == p;
        assert EntryFits(tree, e, digest);
      }
    }
  }

  // ---------------------------------------------------------------- verification

  method ExpectedPaths(entries: seq<Entry>) returns (files: set<Path>, directories: set<Path>)
    ensures files == FilesOf(entries) && directories == DirectoriesOf(entries)
  {
    files, directories := {}, {};
    for i := 0 to |entries|
      invariant files == set e | e in entries[..i] :: e.path
      invariant directories == DirectoriesOf(entries[..i])
    {
      var path := entries[i].path;
      assert entries[..i + 1] == entries[..i] + [entries[i]];
      files := files + {path};
      var k := |path|;
      ghost var before := directories;
      while k > 1
        invariant k <= |path|
        invariant directories == before + set j | k <= j < |path| && 0 < j :: path[..j]
      {
        k := k - 1;
        directories := directories + {path[..k]};
      }
      assert directories == before + Ancestors(path);
    }
    assert entries[..|entries|] == entries;
    files := files + {[MANIFEST]};
  }

  /** Everything below the root is met when the directories that were met have all been read. */
  lemma {:induction false} AllReached(tree: Tree, done: set<Path>, p: Path)
    requires WellFormed(tree) && [] in done && p in tree
    requires forall d <- tree :: tree[d].Dir? && Parent(d) in done ==> d in done
    ensures Parent(p) in done
    decreases |p|
  {
    if Parent(p) != [] {
      AllReached(tree, done, Parent(p));
    }
  }

  ghost function Directories(tree: Tree): set<Path> { {[]} + set p | p in tree && tree[p].Dir? }

  ghost predicate Distinct(paths: seq<Path>) { forall i, j | 0 <= i < j < |paths| :: paths[i] != paths[j] }

  /** The stack of directories still to be read. */
  ghost predicate Stacked(tree: Tree, pending: seq<Path>, done: set<Path>) {
    && Distinct(pending)
    && (forall d <- done :: d == [] || Parent(d) in done)
    && forall d <- pending :: d !in done && (d == [] || (d in tree && tree[d].Dir? && Parent(d) in done))
  }

  /** What the directories read so far have shown. */
  ghost predicate Walked(tree: Tree, files: set<Path>, directories: set<Path>, pending: seq<Path>, done: set<Path>) {
    && done <= Directories(tree) && ([] in done || [] in pending)
    && (forall p <- tree :: p != [])
    && (forall p <- tree :: Parent(p) in done ==>
          Expected(tree[p], p, files, directories) && (tree[p].Dir? ==> p in done || p in pending))
  }

  /** The entries of a directory that is read now are not on the stack yet. */
  lemma ChildrenNew(tree: Tree, before: seq<Path>, done: set<Path>, directory: Path)
    requires (forall p <- tree :: p != []) && Stacked(tree, before, done) && directory !in done && directory !in before
    requires directory == [] || Parent(directory) in done
    ensures Distinct(before) && Stacked(tree, before, done + {directory})
    ensures forall p <- Children(tree, directory) :: p in tree && p != [] && Parent(p) == directory && p !in before && p !in done && p != directory
  {
  }

  lemma StackPushed(tree: Tree, pending: seq<Path>, done: set<Path>, path: Path)
    requires Stacked(tree, pending, done) && path !in pending && path !in done
    requires path in tree && tree[path].Dir? && path != [] && Parent(path) in done
    ensures Stacked(tree, pending + [path], done) && Distinct(pending + [path])
  {
  }

  lemma StackPopped(tree: Tree, pending: seq<Path>, done: set<Path>)
    requires Stacked(tree, pending, done) && pending != []
    ensures pending[|pending| - 1] in Directories(tree)
    ensures Stacked(tree, pending[..|pending| - 1], done) && pending[|pending| - 1] !in pending[..|pending| - 1]
  {
  }

  lemma WalkedOn(tree: Tree, files: set<Path>, directories: set<Path>, pending: seq<Path>, stack: seq<Path>, directory: Path, done: set<Path>)
    requires Walked(tree, files, directories, pending, done) && directory in Directories(tree) && directory !in done
    requires forall d <- pending :: d == directory || d in stack
    requires forall p <- Children(tree, directory) :: Expected(tree[p], p, files, directories) && (tree[p].Dir? ==> p in stack)
    ensures Walked(tree, files, directories, stack, done + {directory})
    ensures |Directories(tree) - (done + {directory})| < |Directories(tree) - done|
  {
    hide Directories;
    var before, after := Directories(tree) - done, Directories(tree) - (done + {directory});
    assert before == after + {directory};
  }

  /** The walk over the tree. */
  method OnlyExpected(tree: Tree, files: set<Path>, directories: set<Path>) returns (ok: bool)
    requires WellFormed(tree)
    ensures ok <==> forall p <- tree :: Expected(tree[p], p, files, directories)
  {
    hide Directories;
    var pending: seq<Path> := [[]];
    ghost var done: set<Path> := {};
    while pending != []
      invariant Stacked(tree, pending, done) && Walked(tree, files, directories, pending, done)
      decreases |Directories(tree) - done|
    {
      var directory := pending[|pending| - 1];
      StackPopped(tree, pending, done);
      assert forall d <- pending :: d == directory || d in pending[..|pending| - 1];
      var expected, stack := ReadDirectory(tree, files, directories, directory, pending[..|pending| - 1], done);
      if !expected {
        return false;
      }
      WalkedOn(tree, files, directories, pending, stack, directory, done);
      pending := stack;
      done := done + {directory};
    }
    forall p | p in tree ensures Expected(tree[p], p, files, directories) {
      AllReached(tree, done, p);
    }
    return true;
  }

  method ReadDirectory(tree: Tree, files: set<Path>, directories: set<Path>, directory: Path, before: seq<Path>, ghost done: set<Path>)
    returns (ok: bool, pending: seq<Path>)
    requires (forall p <- tree :: p != []) && Stacked(tree, before, done) && directory !in done && directory !in before
    requires directory == [] || Parent(directory) in done
    ensures ok <==> forall p <- Children(tree, directory) :: Expected(tree[p], p, files, directories)
    ensures forall d <- before :: d in pending
    ensures ok ==> forall p <- Children(tree, directory) :: tree[p].Dir? ==> p in pending
    ensures Stacked(tree, pending, done + {directory})
  {
    hide Stacked, Children;
    ChildrenNew(tree, before, done, directory);
    pending := before;
    var todo := Children(tree, directory);
    while todo != {}
      invariant todo <= Children(tree, directory) && forall d <- before :: d in pending
      invariant forall p <- Children(tree, directory) - todo :: Expected(tree[p], p, files, directories)
      invariant forall p <- Children(tree, directory) - todo :: tree[p].Dir? ==> p in pending
      invariant forall d <- pending :: d in before || (d in Children(tree, directory) - todo && tree[d].Dir?)
      invariant Distinct(pending) && Stacked(tree, pending, done + {directory})
      decreases |todo|
    {
      var path :| path in todo;
      var node := tree[path];
      if node.Link? {
        return false, pending;
      }
      if node.Dir? {
        if path !in directories {
          return false, pending;
        }
        StackPushed(tree, pending, done + {directory}, path);
        pending := pending + [path];
      } else if !(node.File? && path in files) {
        return false, pending;
      }
      todo := todo - {path};
    }
    return true, pending;
  }

  /** Verification accepts exactly the trees that match the manifest. */
  method Verify(root: Node, tree: Tree, entries: seq<Entry>, manifest: Bytes, digest: Bytes -> string) returns (ok: bool)
    requires WellFormed(tree)
    ensures ok <==> root.Dir? && Matches(tree, entries, manifest, digest)
  {
    if !root.Dir? {
      return false;
    }
    var files, directories := ExpectedPaths(entries);
    var expected := OnlyExpected(tree, files, directories);
    if !expected {
      return false;
    }
    if [MANIFEST] !in tree || !tree[[MANIFEST]].File? || tree[[MANIFEST]].content != manifest {
      return false;
    }
    for i := 0 to |entries|
      invariant forall entry <- entries[..i] :: EntryFits(tree, entry, digest)
    {
      var entry := entries[i];
      assert entries[..i + 1] == entries[..i] + [entry] && entry in entries;
      if entry.path !in tree || !tree[entry.path].File? || |tree[entry.path].content| != entry.size {
        return false;
      }
      if tree[entry.path].executable != entry.executable || digest(tree[entry.path].content) != entry.sha256 {
        return false;
      }
    }
    assert entries[..|entries|] == entries;
    return true;
  }

  // ---------------------------------------------------------------- extraction

  datatype Item = Item(path: Path, content: Bytes, executable: bool)

  function ItemPaths(items: seq<Item>): set<Path> { set item | item in items :: item.path }

  function ItemDirectories(items: seq<Item>): set<Path> { set item, d | item in items && d in Ancestors(item.path) :: d }

  /** Just these files, and the directories that they need. */
  ghost predicate Holds(tree: Tree, items: seq<Item>) {
    && tree.Keys == ItemPaths(items) + ItemDirectories(items)
    && (forall d <- ItemDirectories(items) :: tree[d] == Dir)
    && (forall item <- items :: tree[item.path] == File(item.content, item.executable))
  }

  /** No file is in the way of another. */
  ghost predicate Compatible(items: seq<Item>) {
    && (forall i, j | 0 <= i < j < |items| :: items[i].path != items[j].path)
    && ItemPaths(items) !! ItemDirectories(items)
  }

  method MakeDirectories(before: Tree, path: Path) returns (ok: bool, tree: Tree)
    requires path != []
    ensures ok <==> forall d <- Ancestors(path) :: d in before ==> before[d].Dir?
    ensures ok ==> tree == Made(before, path)
  {
    tree := before;
    ghost var made: set<Path> := {};
    for k := 1 to |path|
      invariant made == set j | 0 < j < k :: path[..j]
      invariant tree.Keys == before.Keys + made
      invariant forall p <- before :: tree[p] == before[p]
      invariant forall p <- made :: tree[p].Dir?
    {
      if path[..k] in tree {
        if !tree[path[..k]].Dir? {
          assert path[..k] in Ancestors(path) && path[..k] in before;
          return false, tree;
        }
      } else {
        tree := tree[path[..k] := Dir];
      }
      made := made + {path[..k]};
    }
    assert made == Ancestors(path);
    return true, tree;
  }

  lemma OneMoreItem(items: seq<Item>, item: Item)
    ensures ItemPaths(items + [item]) == ItemPaths(items) + {item.path}
    ensures ItemDirectories(items + [item]) == ItemDirectories(items) + Ancestors(item.path)
  {
    forall d | d in Ancestors(item.path) ensures d in ItemDirectories(items + [item]) {
      assert item in items + [item];
    }
  }

  lemma NotItsOwnAncestor(p: Path)
    ensures p !in Ancestors(p)
  {
  }

  function Made(tree: Tree, path: Path): Tree { tree + map d | d in Ancestors(path) :: Dir }

  lemma MadeKeeps(tree: Tree, path: Path)
    requires WellFormed(tree) && path != [] && forall d <- Ancestors(path) :: d in tree ==> tree[d].Dir?
    ensures var made := Made(tree, path);
            && WellFormed(made) && (forall p <- tree :: made[p] == tree[p])
            && (|path| > 1 ==> Parent(path) in made && made[Parent(path)].Dir?)
            && (path in made ==> path in tree)
  {
    NotItsOwnAncestor(path);
    var made := Made(tree, path);
    forall p | p in made ensures p != [] && (Parent(p) == [] || (Parent(p) in made && made[Parent(p)].Dir?)) {
      if p in Ancestors(path) && |p| > 1 {
        assert Parent(p) == path[..|p| - 1];
        assert Parent(p) in Ancestors(path);
      }
    }
    if |path| > 1 {
      assert Parent(path) in Ancestors(path);
    }
  }

  lemma Extracted(tree: Tree, items: seq<Item>, item: Item)
    requires WellFormed(tree) && Holds(tree, items) && item.path != []
    requires forall d <- Ancestors(item.path) :: d in tree ==> tree[d].Dir?
    requires item.path !in tree
    ensures var after := Made(tree, item.path)[item.path := File(item.content, item.executable)];
            Holds(after, items + [item]) && WellFormed(after)
  {
    hide Ancestors, ItemDirectories, ItemPaths, WellFormed;
    MadeKeeps(tree, item.path);
    FileAdded(Made(tree, item.path), item.path, File(item.content, item.executable));
    OneMoreItem(items, item);
    forall i | i in items ensures i.path in ItemPaths(items) && i.path != item.path {
      PathOfItem(items, i);
    }
  }

  lemma PathOfItem(items: seq<Item>, item: Item)
    requires item in items
    ensures item.path in ItemPaths(items)
  {
  }

  lemma FileAdded(tree: Tree, path: Path, file: Node)
    requires WellFormed(tree) && path != [] && path !in tree
    requires |path| > 1 ==> Parent(path) in tree && tree[Parent(path)].Dir?
    ensures WellFormed(tree[path := file])
  {
    assert |path| == 1 ==> Parent(path) == [];
  }

  lemma CompatiblePrefix(items: seq<Item>, item: Item)
    ensures Compatible(items + [item])
            <==> && Compatible(items) && item.path !in ItemPaths(items) && item.path !in ItemDirectories(items)
                 && ItemPaths(items) !! Ancestors(item.path)
  {
    OneMoreItem(items, item);
    NotItsOwnAncestor(item.path);
    var more := items + [item];
    assert more[|items|] == item && forall i | 0 <= i < |items| :: more[i] == items[i];
  }

  lemma {:induction false} CompatibleMore(items: seq<Item>, n: nat)
    requires n <= |items| && Compatible(items)
    ensures Compatible(items[..n])
    decreases |items|
  {
    if n < |items| {
      var last := |items| - 1;
      assert items == items[..last] + [items[last]];
      CompatiblePrefix(items[..last], items[last]);
      CompatibleMore(items[..last], n);
      assert items[..last][..n] == items[..n];
    } else {
      assert items[..n] == items;
    }
  }

  /** Extraction succeeds exactly if no file is in the way of another, and then makes just the files. */
  method Extract(items: seq<Item>) returns (ok: bool, tree: Tree)
    requires forall item <- items :: item.path != []
    ensures ok <==> Compatible(items)
    ensures ok ==> WellFormed(tree) && Holds(tree, items)
  {
    tree := map[];
    for i := 0 to |items|
      invariant WellFormed(tree) && Holds(tree, items[..i]) && Compatible(items[..i])
    {
      var item := items[i];
      assert items[..i + 1] == items[..i] + [item];
      CompatiblePrefix(items[..i], item);
      ghost var before := tree;
      var made;
      made, tree := MakeDirectories(tree, item.path);
      if !made || item.path in tree {
        NotItsOwnAncestor(item.path);
        if Compatible(items) {
          CompatibleMore(items, i + 1);
          assert false;
        }
        return false, tree;
      }
      Extracted(before, items[..i], item);
      tree := tree[item.path := File(item.content, item.executable)];
    }
    assert items[..|items|] == items;
    return true, tree;
  }

  /** The archive's items are the manifest and the files that it describes. */
  ghost predicate Described(items: seq<Item>, entries: seq<Entry>, manifest: Bytes, digest: Bytes -> string) {
    && ItemPaths(items) == FilesOf(entries)
    && (forall item <- items :: item.path == [MANIFEST] ==> item.content == manifest)
    && (forall item, entry | item in items && entry in entries && item.path == entry.path ::
          |item.content| == entry.size && item.executable == entry.executable && digest(item.content) == entry.sha256)
  }

  lemma SameDirectories(items: seq<Item>, entries: seq<Entry>)
    requires ItemPaths(items) == FilesOf(entries)
    ensures ItemDirectories(items) == DirectoriesOf(entries)
  {
    forall d | d in ItemDirectories(items) ensures d in DirectoriesOf(entries) {
      var item :| item in items && d in Ancestors(item.path);
      assert item.path in FilesOf(entries);
      var entry :| entry in entries && entry.path == item.path;
    }
    forall d | d in DirectoriesOf(entries) ensures d in ItemDirectories(items) {
      var entry :| entry in entries && d in Ancestors(entry.path);
      assert entry.path in ItemPaths(items);
      var item :| item in items && item.path == entry.path;
    }
  }

  lemma DescribedMatches(tree: Tree, items: seq<Item>, entries: seq<Entry>, manifest: Bytes, digest: Bytes -> string)
    requires Holds(tree, items) && Described(items, entries, manifest, digest)
    ensures Matches(tree, entries, manifest, digest)
  {
    SameDirectories(items, entries);
    forall entry | entry in entries ensures EntryFits(tree, entry, digest) {
      assert entry.path in ItemPaths(items);
      var item :| item in items && item.path == entry.path;
    }
    assert [MANIFEST] in ItemPaths(items);
    var item :| item in items && item.path == [MANIFEST];
  }

  lemma MatchesDescribed(tree: Tree, items: seq<Item>, entries: seq<Entry>, manifest: Bytes, digest: Bytes -> string)
    requires WellFormed(tree) && Holds(tree, items) && Matches(tree, entries, manifest, digest)
    ensures Described(items, entries, manifest, digest)
  {
    MatchesExactly(tree, entries, manifest, digest);
    forall p | p in ItemPaths(items) ensures p in FilesOf(entries) {
      var item :| item in items && item.path == p;
      assert tree[p].File?;
    }
    forall p | p in FilesOf(entries) ensures p in ItemPaths(items) {
      if p != [MANIFEST] {
        var entry :| entry in entries && entry.path == p;
        assert EntryFits(tree, entry, digest);
      }
      assert tree[p].File?;
    }
    forall item, entry | item in items && entry in entries && item.path == entry.path
      ensures |item.content| == entry.size && item.executable == entry.executable && digest(item.content) == entry.sha256
    {
      assert EntryFits(tree, entry, digest);
    }
  }

  /**
    What has been extracted passes verification exactly if the archive was the one the manifest describes:
    the staged tree that is renamed into the cache is then accepted by every later start.
   */
  lemma InstallVerifies(tree: Tree, items: seq<Item>, entries: seq<Entry>, manifest: Bytes, digest: Bytes -> string)
    requires WellFormed(tree) && Holds(tree, items)
    ensures Matches(tree, entries, manifest, digest) <==> Described(items, entries, manifest, digest)
  {
    if Described(items, entries, manifest, digest) {
      DescribedMatches(tree, items, entries, manifest, digest);
    }
    if Matches(tree, entries, manifest, digest) {
      MatchesDescribed(tree, items, entries, manifest, digest);
    }
  }
}
