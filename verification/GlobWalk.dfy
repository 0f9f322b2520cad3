/** The recursive glob walkers over a directory graph.

    The graph is static but otherwise arbitrary: entries may lead back to an ancestor through symlinks,
    a stat may fail (the target is no node), and a directory may refuse to be listed. */
module GlobWalk {
  import opened Options

  type Path = seq<string>
  type Matcher = (string, string) -> bool

  datatype Entry = Entry(name: string, target: nat)

  // key is the (device, inode) identity, absent where the file system has no inodes.
  datatype Node = File | Dir(key: Option<nat>, entries: Option<seq<Entry>>)

  type FileSystem = map<nat, Node>

  const STARS := "**"

  predicate IsDir(fs: FileSystem, node: nat) {
    node in fs && fs[node].Dir?
  }

  // readdir, with failure as an empty listing: the walkers return in both cases.
  function Listing(fs: FileSystem, node: nat): (entries: seq<Entry>)
    ensures node in fs && fs[node].Dir? && fs[node].entries.Some? ==> entries == fs[node].entries.value
    ensures !(node in fs && fs[node].Dir? && fs[node].entries.Some?) ==> entries == []
  {
    if IsDir(fs, node) && fs[node].entries.Some? then fs[node].entries.value else []
  }

  function AllKeys(fs: FileSystem): set<nat> {
    set node | node in fs && fs[node].Dir? && fs[node].key.Some? :: fs[node].key.value
  }

  // Every directory can be told apart when it comes round again.
  predicate Tracked(fs: FileSystem) {
    forall node <- fs :: fs[node].Dir? ==> fs[node].key.Some?
  }

  function Visit(fs: FileSystem, node: nat, visited: set<nat>): set<nat>
    requires IsDir(fs, node)
  {
    if fs[node].key.Some? then visited + {fs[node].key.value} else visited
  }

  predicate Seen(fs: FileSystem, node: nat, visited: set<nat>)
    requires IsDir(fs, node)
  {
    fs[node].key.Some? && fs[node].key.value in visited
  }

  // ---------- What a walk yields ----------

  // A directory that cannot be told apart when it comes round again.
  predicate Untracked(fs: FileSystem, node: nat) {
    IsDir(fs, node) && fs[node].key.None?
  }

  ghost predicate GroundedBy(fs: FileSystem, rank: nat -> nat) {
    forall node, i | 0 <= i < |Listing(fs, node)| ::
      Untracked(fs, Listing(fs, node)[i].target) ==> rank(Listing(fs, node)[i].target) < rank(node)
  }

  // Every cycle of the graph leads through a directory that can be told apart.
  ghost predicate Grounded(fs: FileSystem) {
    exists rank: nat -> nat :: GroundedBy(fs, rank)
  }

  lemma TrackedIsGrounded(fs: FileSystem)
    requires Tracked(fs)
    ensures Grounded(fs)
  {
    assert GroundedBy(fs, node => 0);
  }

  // A walk ends on any graph if no part can match any number of directories, and otherwise if it cannot
  // go round a cycle unnoticed.
  ghost predicate Finite(fs: FileSystem, parts: seq<string>) {
    STARS in parts ==> Grounded(fs)
  }

  // ---------- Why a walk ends ----------

  ghost function RankOf(fs: FileSystem): nat -> nat
    requires Grounded(fs)
  {
    var rank: nat -> nat :| GroundedBy(fs, rank);
    rank
  }

  function Stage(parts: seq<string>): nat {
    if STARS in parts then 1 else 0
  }

  function KeysLeft(fs: FileSystem, parts: seq<string>, visited: set<nat>): nat {
    if STARS in parts then |AllKeys(fs) - visited| else 0
  }

  // How far down an untracked stretch a directory is, an entry can lead, and any of the entries can.
  ghost function Height(fs: FileSystem, parts: seq<string>, node: nat): nat
    requires Finite(fs, parts)
  {
    if STARS in parts then RankOf(fs)(node) else 0
  }

  ghost function HeightBy(fs: FileSystem, parts: seq<string>, entry: Entry): nat
    requires Finite(fs, parts)
  {
    if STARS in parts && Untracked(fs, entry.target) then Height(fs, parts, entry.target) + 1 else 0
  }

  ghost function HeightByAny(fs: FileSystem, parts: seq<string>, entries: seq<Entry>): (height: nat)
    requires Finite(fs, parts)
    ensures forall i | 0 <= i < |entries| :: HeightBy(fs, parts, entries[i]) <= height
    ensures height == 0 || exists i :: 0 <= i < |entries| && height == HeightBy(fs, parts, entries[i])
  {
    if entries == [] then 0
    else
      var rest := HeightByAny(fs, parts, entries[1..]);
      assert forall i | 0 < i < |entries| :: entries[i] == entries[1..][i - 1];
      if rest <= HeightBy(fs, parts, entries[0]) then HeightBy(fs, parts, entries[0]) else rest
  }

  lemma ListedIsBelow(fs: FileSystem, parts: seq<string>, node: nat, i: nat)
    requires Finite(fs, parts) && i < |Listing(fs, node)|
    ensures HeightBy(fs, parts, Listing(fs, node)[i]) <= Height(fs, parts, node)
  {
    if STARS in parts {
      assert GroundedBy(fs, RankOf(fs));
    }
  }

  lemma ListingIsBelow(fs: FileSystem, parts: seq<string>, node: nat)
    requires Finite(fs, parts)
    ensures HeightByAny(fs, parts, Listing(fs, node)) <= Height(fs, parts, node)
  {
    var height := HeightByAny(fs, parts, Listing(fs, node));
    if height > 0 {
      var i :| 0 <= i < |Listing(fs, node)| && height == HeightBy(fs, parts, Listing(fs, node)[i]);
      ListedIsBelow(fs, parts, node, i);
    }
  }

  // Going into a directory not seen before leaves fewer keys to see, or leads further down.
  lemma DescentShrinks(fs: FileSystem, parts: seq<string>, entry: Entry, visited: set<nat>)
    requires Finite(fs, parts) && IsDir(fs, entry.target) && !Seen(fs, entry.target, visited)
    ensures STARS in parts ==>
      var below := KeysLeft(fs, parts, Visit(fs, entry.target, visited));
      || below < KeysLeft(fs, parts, visited)
      || (below == KeysLeft(fs, parts, visited) && Height(fs, parts, entry.target) < HeightBy(fs, parts, entry))
  {
    VisitShrinks(fs, entry.target, visited);
  }

  // ---------- The walk ----------

  function Walk(fs: FileSystem, m: Matcher, node: nat, path: Path, parts: seq<string>, visited: set<nat>): seq<Path>
    requires Finite(fs, parts)
    decreases Stage(parts), KeysLeft(fs, parts, visited), Height(fs, parts, node), |parts|, |Listing(fs, node)| + 1
  {
    ListingIsBelow(fs, parts, node);
    if parts == [] then []
    else if parts[0] == STARS then
      (if |parts| > 1 then Walk(fs, m, node, path, parts[1..], visited) else [path])
      + WalkEntries(fs, m, Listing(fs, node), path, parts, visited)
    else WalkEntries(fs, m, Listing(fs, node), path, parts, visited)
  }

  function WalkEntries(fs: FileSystem, m: Matcher, entries: seq<Entry>, path: Path, parts: seq<string>,
                       visited: set<nat>): seq<Path>
    requires parts != [] && Finite(fs, parts)
    decreases Stage(parts), KeysLeft(fs, parts, visited), HeightByAny(fs, parts, entries), |parts|, |entries|
  {
    if entries == [] then []
    else
      WalkEntry(fs, m, entries[0], path, parts, visited)
      + WalkEntries(fs, m, entries[1..], path, parts, visited)
  }

  function WalkEntry(fs: FileSystem, m: Matcher, entry: Entry, path: Path, parts: seq<string>, visited: set<nat>)
    : seq<Path>
    requires parts != [] && Finite(fs, parts)
    decreases Stage(parts), KeysLeft(fs, parts, visited), HeightBy(fs, parts, entry), |parts|, 0
  {
    var full := path + [entry.name];
    if parts[0] == STARS then
      if IsDir(fs, entry.target) then
        if Seen(fs, entry.target, visited) then []
        else
          DescentShrinks(fs, parts, entry, visited);
          Walk(fs, m, entry.target, full, parts, Visit(fs, entry.target, visited))
      else if entry.target in fs && |parts| == 1 then [full]
      else []
    else if !m(parts[0], entry.name) then []
    else if |parts| == 1 then [full]
    else if IsDir(fs, entry.target) then
      if Seen(fs, entry.target, visited) then []
      else
        DescentShrinks(fs, parts, entry, visited);
        Walk(fs, m, entry.target, full, parts[1..], Visit(fs, entry.target, visited))
    else []
  }

  // Going into a directory not seen before leaves fewer keys to see.
  lemma VisitShrinks(fs: FileSystem, node: nat, visited: set<nat>)
    requires IsDir(fs, node) && !Seen(fs, node, visited)
    ensures |AllKeys(fs) - Visit(fs, node, visited)| <= |AllKeys(fs) - visited|
    ensures fs[node].key.Some? ==> |AllKeys(fs) - Visit(fs, node, visited)| < |AllKeys(fs) - visited|
  {
    if fs[node].key.Some? {
      var key := fs[node].key.value;
      assert AllKeys(fs) - visited == (AllKeys(fs) - Visit(fs, node, visited)) + {key};
    }
  }

  // What an earlier entry yields comes first, and a `**` yields its own directory before anything below.
  lemma {:induction false} EntriesInOrder(fs: FileSystem, m: Matcher, first: seq<Entry>, second: seq<Entry>, path: Path,
                                          parts: seq<string>, visited: set<nat>)
    requires parts != [] && Finite(fs, parts)
    ensures WalkEntries(fs, m, first + second, path, parts, visited)
      == WalkEntries(fs, m, first, path, parts, visited) + WalkEntries(fs, m, second, path, parts, visited)
    ensures parts == [STARS] ==> forall node :: Walk(fs, m, node, path, parts, visited)[..1] == [path]
    decreases |first|
  {
    if first == [] {
      assert first + second == second;
    } else {
      assert (first + second)[1..] == first[1..] + second;
      EntriesInOrder(fs, m, first[1..], second, path, parts, visited);
    }
  }

  // ---------- The walker ----------

  // What was yielded, then what the entries from i on yield, is everything.
  ghost predicate Left(fs: FileSystem, m: Matcher, entries: seq<Entry>, i: nat, path: Path, parts: seq<string>,
                       visited: set<nat>, yielded: seq<Path>, all: seq<Path>)
    requires parts != [] && Finite(fs, parts)
  {
    i <= |entries| && yielded + WalkEntries(fs, m, entries[i..], path, parts, visited) == all
  }

  lemma EntryStep(fs: FileSystem, m: Matcher, entries: seq<Entry>, i: nat, path: Path, parts: seq<string>,
                  visited: set<nat>, yielded: seq<Path>, all: seq<Path>)
    requires parts != [] && Finite(fs, parts) && i < |entries|
    requires Left(fs, m, entries, i, path, parts, visited, yielded, all)
    ensures Left(fs, m, entries, i + 1, path, parts, visited,
                 yielded + WalkEntry(fs, m, entries[i], path, parts, visited), all)
  {
    assert entries[i..][0] == entries[i] && entries[i..][1..] == entries[i + 1..];
  }

  method GlobWalk(fs: FileSystem, m: Matcher, node: nat, basePath: Path, patternParts: seq<string>, visited: set<nat>)
    returns (yielded: seq<Path>)
    requires Finite(fs, patternParts)
    ensures yielded == Walk(fs, m, node, basePath, patternParts, visited)
    decreases Stage(patternParts), KeysLeft(fs, patternParts, visited), Height(fs, patternParts, node), |patternParts|, 3
  {
    yielded := [];
    if |patternParts| == 0 {
      return;
    }
    var currentPattern, remainingParts := patternParts[0], patternParts[1..];
    if currentPattern == STARS {
      if |remainingParts| > 0 {
        yielded := GlobWalk(fs, m, node, basePath, remainingParts, visited);
      } else {
        yielded := [basePath];
      }
    }
    var found := YieldEntries(fs, m, node, basePath, patternParts, visited);
    yielded := yielded + found;
  }

  // The entries of one directory, in the order they are listed.
  method YieldEntries(fs: FileSystem, m: Matcher, node: nat, basePath: Path, patternParts: seq<string>,
                      visited: set<nat>)
    returns (yielded: seq<Path>)
    requires patternParts != [] && Finite(fs, patternParts)
    ensures yielded == WalkEntries(fs, m, Listing(fs, node), basePath, patternParts, visited)
    decreases Stage(patternParts), KeysLeft(fs, patternParts, visited), Height(fs, patternParts, node), |patternParts|, 2
  {
    yielded := [];
    var entries := Listing(fs, node);
    ghost var all := WalkEntries(fs, m, entries, basePath, patternParts, visited);
    var i := 0;
    assert entries[0..] == entries;
    while i < |entries|
      invariant Left(fs, m, entries, i, basePath, patternParts, visited, yielded, all)
    {
      EntryStep(fs, m, entries, i, basePath, patternParts, visited, yielded, all);
      ListedIsBelow(fs, patternParts, node, i);
      var found := VisitEntry(fs, m, node, entries[i], basePath, patternParts, visited);
      yielded := yielded + found;
      i := i + 1;
    }
  }

  method VisitEntry(fs: FileSystem, m: Matcher, ghost node: nat, entry: Entry, basePath: Path,
                    patternParts: seq<string>, visited: set<nat>)
    returns (found: seq<Path>)
    requires patternParts != [] && Finite(fs, patternParts)
    requires HeightBy(fs, patternParts, entry) <= Height(fs, patternParts, node)
    ensures found == WalkEntry(fs, m, entry, basePath, patternParts, visited)
    decreases Stage(patternParts), KeysLeft(fs, patternParts, visited), Height(fs, patternParts, node), |patternParts|, 1
  {
    if patternParts[0] == STARS {
      found := DescendEntry(fs, m, entry, basePath, patternParts, visited);
    } else {
      found := MatchEntry(fs, m, entry, basePath, patternParts, visited);
    }
  }

  // One entry where `**` comes first: any directory not on the path yet is gone into.
  method DescendEntry(fs: FileSystem, m: Matcher, entry: Entry, basePath: Path, patternParts: seq<string>,
                      visited: set<nat>)
    returns (found: seq<Path>)
    requires patternParts != [] && patternParts[0] == STARS && Finite(fs, patternParts)
    ensures found == WalkEntry(fs, m, entry, basePath, patternParts, visited)
    decreases Stage(patternParts), KeysLeft(fs, patternParts, visited), HeightBy(fs, patternParts, entry), |patternParts|, 0
  {
    found := [];
    var fullPath := basePath + [entry.name];
    if entry.target !in fs {
      return;
    }
    if IsDir(fs, entry.target) {
      if Seen(fs, entry.target, visited) {
        return;
      }
      DescentShrinks(fs, patternParts, entry, visited);
      found := GlobWalk(fs, m, entry.target, fullPath, patternParts, Visit(fs, entry.target, visited));
    } else if |patternParts| == 1 {
      found := [fullPath];
    }
  }

  // One entry where an ordinary part comes first.
  method MatchEntry(fs: FileSystem, m: Matcher, entry: Entry, basePath: Path, patternParts: seq<string>,
                    visited: set<nat>)
    returns (found: seq<Path>)
    requires patternParts != [] && patternParts[0] != STARS && Finite(fs, patternParts)
    ensures found == WalkEntry(fs, m, entry, basePath, patternParts, visited)
    decreases Stage(patternParts), KeysLeft(fs, patternParts, visited), HeightBy(fs, patternParts, entry), |patternParts|, 0
  {
    found := [];
    if !m(patternParts[0], entry.name) {
      return;
    }
    var fullPath, remainingParts := basePath + [entry.name], patternParts[1..];
    if |remainingParts| == 0 {
      found := [fullPath];
    } else {
      if entry.target !in fs {
        return;
      }
      if IsDir(fs, entry.target) {
        if Seen(fs, entry.target, visited) {
          return;
        }
        DescentShrinks(fs, patternParts, entry, visited);
        found := GlobWalk(fs, m, entry.target, fullPath, remainingParts, Visit(fs, entry.target, visited));
      }
    }
  }

  // The base directory counts as visited from the start.
  function InitVisited(fs: FileSystem, root: nat): set<nat> {
    if IsDir(fs, root) then Visit(fs, root, {}) else {}
  }
}
