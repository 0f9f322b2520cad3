/** The walker over SFTP, which keeps no visited set, and its agreement with the local one. */
module RemoteGlob {
  import opened Options
  import opened GlobWalk

  // What readdir reports: it lists `.` and `..`, and carries the entry's kind.
  datatype RemoteEntry = RemoteEntry(filename: string, isDirectory: bool, target: nat)

  // Nodes that can be listed.
  type RemoteFs = map<nat, seq<RemoteEntry>>

  predicate IsDot(entry: RemoteEntry) {
    entry.filename == "." || entry.filename == ".."
  }

  function RemoteListing(r: RemoteFs, node: nat): seq<RemoteEntry> {
    if node in r then r[node] else []
  }

  // Going into an entry always goes down, so there are no cycles.
  ghost predicate Ranked(r: RemoteFs, rank: nat -> nat) {
    forall node <- r :: forall i | 0 <= i < |r[node]| ::
      !IsDot(r[node][i]) && r[node][i].isDirectory ==> rank(r[node][i].target) < rank(node)
  }

  // A walk ends if no part can match any number of directories, or else if there are no cycles.
  ghost predicate Ends(r: RemoteFs, rank: nat -> nat, parts: seq<string>) {
    STARS in parts ==> Ranked(r, rank)
  }

  function Level(rank: nat -> nat, parts: seq<string>, node: nat): nat {
    if STARS in parts then rank(node) else 0
  }

  ghost function RemoteWalk(r: RemoteFs, rank: nat -> nat, m: Matcher, node: nat, path: Path, parts: seq<string>)
    : seq<Path>
    requires Ends(r, rank, parts)
    decreases Stage(parts), Level(rank, parts, node), |parts|, |RemoteListing(r, node)| + 1
  {
    if parts == [] then []
    else if parts[0] == STARS then
      (if |parts| > 1 then RemoteWalk(r, rank, m, node, path, parts[1..]) else [path])
      + RemoteEntries(r, rank, m, node, RemoteListing(r, node), path, parts)
    else RemoteEntries(r, rank, m, node, RemoteListing(r, node), path, parts)
  }

  ghost function RemoteEntries(r: RemoteFs, rank: nat -> nat, m: Matcher, node: nat, entries: seq<RemoteEntry>,
                               path: Path, parts: seq<string>): seq<Path>
    requires Ends(r, rank, parts) && parts != [] && Downward(rank, parts, node, entries)
    decreases Stage(parts), Level(rank, parts, node), |parts|, |entries|
  {
    if entries == [] then []
    else
      RemoteEntryWalk(r, rank, m, node, entries[0], path, parts)
      + RemoteEntries(r, rank, m, node, entries[1..], path, parts)
  }

  predicate Downward(rank: nat -> nat, parts: seq<string>, node: nat, entries: seq<RemoteEntry>) {
    STARS in parts ==> forall i | 0 <= i < |entries| ::
      !IsDot(entries[i]) && entries[i].isDirectory ==> rank(entries[i].target) < rank(node)
  }

  ghost function RemoteEntryWalk(r: RemoteFs, rank: nat -> nat, m: Matcher, node: nat, entry: RemoteEntry, path: Path,
                                 parts: seq<string>): seq<Path>
    requires Ends(r, rank, parts) && parts != [] && Downward(rank, parts, node, [entry])
    decreases Stage(parts), Level(rank, parts, node), |parts|, 0
  {
    var full := path + [entry.filename];
    assert [entry][0] == entry;
    if IsDot(entry) then []
    else if parts[0] == STARS then
      if entry.isDirectory then RemoteWalk(r, rank, m, entry.target, full, parts)
      else if |parts| == 1 then [full]
      else []
    else if !m(parts[0], entry.filename) then []
    else if |parts| == 1 then [full]
    else if entry.isDirectory then RemoteWalk(r, rank, m, entry.target, full, parts[1..])
    else []
  }

  // The walker itself, one entry at a time.
  method RemoteGlobWalk(r: RemoteFs, ghost rank: nat -> nat, m: Matcher, node: nat, basePath: Path,
                        patternParts: seq<string>)
    returns (yielded: seq<Path>)
    requires Ends(r, rank, patternParts)
    ensures yielded == RemoteWalk(r, rank, m, node, basePath, patternParts)
    decreases Stage(patternParts), Level(rank, patternParts, node), |patternParts|, 1
  {
    yielded := [];
    if |patternParts| == 0 {
      return;
    }
    var remainingParts := patternParts[1..];
    if patternParts[0] == STARS {
      if |remainingParts| > 0 {
        yielded := RemoteGlobWalk(r, rank, m, node, basePath, remainingParts);
      } else {
        yielded := [basePath];
      }
    }
    ghost var all := RemoteWalk(r, rank, m, node, basePath, patternParts);
    var entries := RemoteListing(r, node);
    var i := 0;
    assert entries[0..] == entries;
    while i < |entries|
      invariant Left(r, rank, m, node, entries, i, basePath, patternParts, yielded, all)
    {
      EntryStep(r, rank, m, node, entries, i, basePath, patternParts, yielded, all);
      assert Downward(rank, patternParts, node, [entries[i]]);
      var found := RemoteGlobEntry(r, rank, m, node, entries[i], basePath, patternParts);
      yielded := yielded + found;
      i := i + 1;
    }
  }

  method RemoteGlobEntry(r: RemoteFs, ghost rank: nat -> nat, m: Matcher, ghost node: nat, entry: RemoteEntry,
                         basePath: Path, patternParts: seq<string>)
    returns (found: seq<Path>)
    requires Ends(r, rank, patternParts) && patternParts != [] && Downward(rank, patternParts, node, [entry])
    ensures found == RemoteEntryWalk(r, rank, m, node, entry, basePath, patternParts)
    decreases Stage(patternParts), Level(rank, patternParts, node), |patternParts|, 0
  {
    found := [];
    if entry.filename == "." || entry.filename == ".." {
      return;
    }
    assert [entry][0] == entry;
    var remainingParts := patternParts[1..];
    var fullPath := basePath + [entry.filename];
    if patternParts[0] == STARS {
      if entry.isDirectory {
        found := RemoteGlobWalk(r, rank, m, entry.target, fullPath, patternParts);
      } else if |remainingParts| == 0 {
        found := [fullPath];
      }
    } else {
      if !m(patternParts[0], entry.filename) {
        return;
      }
      if |remainingParts| == 0 {
        found := [fullPath];
      } else if entry.isDirectory {
        found := RemoteGlobWalk(r, rank, m, entry.target, fullPath, remainingParts);
      }
    }
  }

  ghost predicate Left(r: RemoteFs, rank: nat -> nat, m: Matcher, node: nat, entries: seq<RemoteEntry>, i: nat,
                       path: Path, parts: seq<string>, yielded: seq<Path>, all: seq<Path>)
    requires Ends(r, rank, parts) && parts != [] && Downward(rank, parts, node, entries)
  {
    i <= |entries| && yielded + RemoteEntries(r, rank, m, node, entries[i..], path, parts) == all
  }

  lemma EntryStep(r: RemoteFs, rank: nat -> nat, m: Matcher, node: nat, entries: seq<RemoteEntry>, i: nat,
                  path: Path, parts: seq<string>, yielded: seq<Path>, all: seq<Path>)
    requires Ends(r, rank, parts) && parts != [] && Downward(rank, parts, node, entries) && i < |entries|
    requires Left(r, rank, m, node, entries, i, path, parts, yielded, all)
    ensures Downward(rank, parts, node, [entries[i]])
    ensures Left(r, rank, m, node, entries, i + 1, path, parts,
                 yielded + RemoteEntryWalk(r, rank, m, node, entries[i], path, parts), all)
  {
    assert entries[i..][0] == entries[i] && entries[i..][1..] == entries[i + 1..];
  }

  // ---------- The dots ----------

  // Below this path no name is a dot.
  predicate NoDotsBelow(path: Path, y: Path) {
    path <= y && forall k :: |path| <= k < |y| ==> y[k] != "." && y[k] != ".."
  }

  /** No path is yielded, or gone into, through the entries `.` and `..` that every listing has. */
  lemma {:induction false} NoDots(r: RemoteFs, rank: nat -> nat, m: Matcher, node: nat, path: Path, parts: seq<string>)
    requires Ends(r, rank, parts)
    ensures forall y <- RemoteWalk(r, rank, m, node, path, parts) :: NoDotsBelow(path, y)
    decreases Stage(parts), Level(rank, parts, node), |parts|, |RemoteListing(r, node)| + 1
  {
    if parts != [] {
      if parts[0] == STARS && |parts| > 1 {
        NoDots(r, rank, m, node, path, parts[1..]);
      }
      NoDotsAmong(r, rank, m, node, RemoteListing(r, node), path, parts);
    }
  }

  lemma {:induction false} NoDotsAmong(r: RemoteFs, rank: nat -> nat, m: Matcher, node: nat,
                                       entries: seq<RemoteEntry>, path: Path, parts: seq<string>)
    requires Ends(r, rank, parts) && parts != [] && Downward(rank, parts, node, entries)
    ensures forall y <- RemoteEntries(r, rank, m, node, entries, path, parts) :: NoDotsBelow(path, y)
    decreases Stage(parts), Level(rank, parts, node), |parts|, |entries|
  {
    if entries != [] {
      var entry := entries[0];
      var full := path + [entry.filename];
      NoDotsAmong(r, rank, m, node, entries[1..], path, parts);
      assert [entry][0] == entry;
      if entry.isDirectory && !IsDot(entry) {
        if parts[0] == STARS {
          NoDots(r, rank, m, entry.target, full, parts);
        } else if |parts| > 1 {
          NoDots(r, rank, m, entry.target, full, parts[1..]);
        }
      }
      forall y <- RemoteEntryWalk(r, rank, m, node, entry, path, parts) ensures NoDotsBelow(path, y) {
        assert NoDotsBelow(full, y) && entry.filename != "." && entry.filename != "..";
        assert y[..|full|] == full && full[|path|] == entry.filename;
      }
    }
  }

  // ---------- Agreement with the local walker ----------

  // The same entries in the same order, apart from the dots; every one can be statted, and as there
  // are no symlinks its reported kind is its own.
  predicate Mirrors(fs: FileSystem, entries: seq<RemoteEntry>, local: seq<Entry>) {
    if entries == [] then local == []
    else if IsDot(entries[0]) then Mirrors(fs, entries[1..], local)
    else
      && local != []
      && local[0] == Entry(entries[0].filename, entries[0].target)
      && entries[0].target in fs && (entries[0].isDirectory <==> IsDir(fs, entries[0].target))
      && Mirrors(fs, entries[1..], local[1..])
  }

  ghost predicate SameTree(r: RemoteFs, fs: FileSystem) {
    forall node: nat :: Mirrors(fs, RemoteListing(r, node), Listing(fs, node))
  }

  ghost predicate UniqueKeys(fs: FileSystem) {
    forall a <- fs, b <- fs :: fs[a].Dir? && fs[b].Dir? && fs[a].key.Some? && fs[a].key == fs[b].key ==> a == b
  }

  // Only directories at or above this one have been visited.
  ghost predicate Above(fs: FileSystem, rank: nat -> nat, node: nat, visited: set<nat>) {
    forall a <- fs :: fs[a].Dir? && Seen(fs, a, visited) ==> rank(node) <= rank(a)
  }

  lemma ChildUnseen(fs: FileSystem, rank: nat -> nat, node: nat, child: nat, visited: set<nat>)
    requires UniqueKeys(fs) && Above(fs, rank, node, visited)
    requires IsDir(fs, child) && rank(child) < rank(node)
    ensures !Seen(fs, child, visited) && Above(fs, rank, child, Visit(fs, child, visited))
  {
  }

  lemma {:induction false} WalkersAgree(r: RemoteFs, fs: FileSystem, rank: nat -> nat, m: Matcher, node: nat,
                                        path: Path, parts: seq<string>, visited: set<nat>)
    requires Ranked(r, rank) && SameTree(r, fs)
    requires Finite(fs, parts) && UniqueKeys(fs) && Above(fs, rank, node, visited)
    ensures RemoteWalk(r, rank, m, node, path, parts) == Walk(fs, m, node, path, parts, visited)
    decreases rank(node), |parts|, |RemoteListing(r, node)| + 1
  {
    if parts != [] {
      if parts[0] == STARS && |parts| > 1 {
        WalkersAgree(r, fs, rank, m, node, path, parts[1..], visited);
      }
      assert Mirrors(fs, RemoteListing(r, node), Listing(fs, node));
      EntriesAgree(r, fs, rank, m, node, RemoteListing(r, node), Listing(fs, node), path, parts, visited);
    }
  }

  lemma {:induction false} EntriesAgree(r: RemoteFs, fs: FileSystem, rank: nat -> nat, m: Matcher, node: nat,
                                        entries: seq<RemoteEntry>, local: seq<Entry>,
                                        path: Path, parts: seq<string>, visited: set<nat>)
    requires Ranked(r, rank) && SameTree(r, fs) && Downward(rank, [STARS], node, entries) && Mirrors(fs, entries, local)
    requires Finite(fs, parts) && UniqueKeys(fs) && Above(fs, rank, node, visited) && parts != []
    ensures RemoteEntries(r, rank, m, node, entries, path, parts) == WalkEntries(fs, m, local, path, parts, visited)
    decreases rank(node), |parts|, |entries|
  {
    if entries == [] {
      return;
    }
    var entry := entries[0];
    if IsDot(entry) {
      EntriesAgree(r, fs, rank, m, node, entries[1..], local, path, parts, visited);
      return;
    }
    EntriesAgree(r, fs, rank, m, node, entries[1..], local[1..], path, parts, visited);
    EntryAgrees(r, fs, rank, m, node, entry, path, parts, visited);
  }

  lemma {:induction false} EntryAgrees(r: RemoteFs, fs: FileSystem, rank: nat -> nat, m: Matcher, node: nat,
                                       entry: RemoteEntry, path: Path, parts: seq<string>, visited: set<nat>)
    requires Ranked(r, rank) && SameTree(r, fs) && Downward(rank, [STARS], node, [entry]) && !IsDot(entry)
    requires entry.target in fs && (entry.isDirectory <==> IsDir(fs, entry.target))
    requires Finite(fs, parts) && UniqueKeys(fs) && Above(fs, rank, node, visited) && parts != []
    ensures RemoteEntryWalk(r, rank, m, node, entry, path, parts)
      == WalkEntry(fs, m, Entry(entry.filename, entry.target), path, parts, visited)
    decreases rank(node), |parts|, 0
  {
    assert [entry][0] == entry;
    if entry.isDirectory {
      ChildUnseen(fs, rank, node, entry.target, visited);
      var full, below := path + [entry.filename], Visit(fs, entry.target, visited);
      WalkersAgree(r, fs, rank, m, entry.target, full, parts, below);
      WalkersAgree(r, fs, rank, m, entry.target, full, parts[1..], below);
    }
  }

  lemma TreeIsFinite(r: RemoteFs, fs: FileSystem, rank: nat -> nat, parts: seq<string>)
    requires Ranked(r, rank) && SameTree(r, fs)
    ensures Finite(fs, parts)
  {
    forall node, i | 0 <= i < |Listing(fs, node)| && Untracked(fs, Listing(fs, node)[i].target)
      ensures rank(Listing(fs, node)[i].target) < rank(node)
    {
      assert Mirrors(fs, RemoteListing(r, node), Listing(fs, node));
      EntryIsBelow(fs, rank, node, RemoteListing(r, node), Listing(fs, node), i);
    }
    assert GroundedBy(fs, rank);
  }

  lemma {:induction false} EntryIsBelow(fs: FileSystem, rank: nat -> nat, node: nat, entries: seq<RemoteEntry>,
                                        local: seq<Entry>, i: nat)
    requires Mirrors(fs, entries, local) && i < |local| && IsDir(fs, local[i].target)
    requires Downward(rank, [STARS], node, entries)
    ensures rank(local[i].target) < rank(node)
  {
    if IsDot(entries[0]) {
      EntryIsBelow(fs, rank, node, entries[1..], local, i);
    } else if i > 0 {
      EntryIsBelow(fs, rank, node, entries[1..], local[1..], i - 1);
    }
  }

  // On the same symlink-free tree, whose inodes are unique where there are any, both walkers yield the
  // same sequence of paths for every pattern.
  lemma GlobsAgree(r: RemoteFs, fs: FileSystem, rank: nat -> nat, m: Matcher, root: nat, parts: seq<string>)
    requires Ranked(r, rank) && SameTree(r, fs) && UniqueKeys(fs)
    ensures Finite(fs, parts)
    ensures RemoteWalk(r, rank, m, root, [], parts) == Walk(fs, m, root, [], parts, InitVisited(fs, root))
  {
    TreeIsFinite(r, fs, rank, parts);
    assert Above(fs, rank, root, InitVisited(fs, root));
    WalkersAgree(r, fs, rank, m, root, [], parts, InitVisited(fs, root));
  }
}
