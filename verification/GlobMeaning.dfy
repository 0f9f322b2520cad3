/** The walk and the compiled expressions put together: what a glob yields in terms of wildcards. */
module GlobMeaning {
  import opened Options
  import opened GlobWalk
  import opened GlobSplits
  import opened GlobRegex

  // The matcher the walkers use, and the one a reader has in mind.
  const COMPILED: Matcher := (pattern, name) => Matches(pattern, name)
  const WILDCARDS: Matcher := (pattern, name) => Wild(pattern, 0, name)

  predicate PlainSegment(part: string) {
    NoClass(part, 0) && !EscapesWildcard(part, 0)
  }

  lemma {:induction false} SameFits(parts: seq<string>, names: Path, split: seq<nat>)
    requires forall k :: 0 <= k < |parts| ==> PlainSegment(parts[k])
    ensures Fits(COMPILED, parts, names, split) == Fits(WILDCARDS, parts, names, split)
    decreases |parts|
  {
    if parts != [] && split != [] && split[0] <= |names| {
      if split[0] == 1 {
        RegexMeansWild(parts[0]);
        assert Matches(parts[0], names[0]) <==> Wild(parts[0], 0, names[0]);
      }
      SameFits(parts[1..], names[split[0]..], split[1..]);
    }
  }

  lemma SameWays(fs: FileSystem, m: Matcher, m': Matcher, base: nat, parts: seq<string>, names: Path)
    requires forall split :: Fits(m, parts, names, split) == Fits(m', parts, names, split)
    ensures Ways(fs, m, base, parts, names) == Ways(fs, m', base, parts, names)
  {
    var a, b := Ways(fs, m, base, parts, names), Ways(fs, m', base, parts, names);
    forall split ensures split in a <==> split in b {
      assert Way(fs, m, base, parts, names, split) == Way(fs, m', base, parts, names, split);
    }
  }

  /** On segments without closed classes and escaped wildcards, a path is yielded once for each way to
      split its names over the segments so that each name is an instance of its segment's wildcards. */
  lemma GlobYieldsWildcardSplits(fs: FileSystem, root: nat, parts: seq<string>, names: Path)
    requires Finite(fs, parts) && WellNamed(fs)
    requires forall k :: 0 <= k < |parts| ==> PlainSegment(parts[k])
    ensures multiset(Walk(fs, COMPILED, root, [], parts, InitVisited(fs, root)))[names]
      == |Ways(fs, WILDCARDS, root, parts, names)|
  {
    GlobYieldsEachSplitOnce(fs, COMPILED, root, parts, names);
    forall split ensures Fits(COMPILED, parts, names, split) == Fits(WILDCARDS, parts, names, split) {
      SameFits(parts, names, split);
    }
    SameWays(fs, COMPILED, WILDCARDS, root, parts, names);
  }
}
