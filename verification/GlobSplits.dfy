/** How often a walk yields a path: once for every way to split its names over the pattern. */
module GlobSplits {
  import opened Options
  import opened GlobWalk

  // ---------- Following names through the graph ----------

  function Find(entries: seq<Entry>, name: string): Option<nat> {
    if entries == [] then None
    else if entries[0].name == name then Some(entries[0].target)
    else Find(entries[1..], name)
  }

  predicate DistinctNames(entries: seq<Entry>) {
    forall i, j | 0 <= i < j < |entries| :: entries[i].name != entries[j].name
  }

  predicate WellNamed(fs: FileSystem) {
    forall node <- fs :: DistinctNames(Listing(fs, node))
  }

  function NodeAt(fs: FileSystem, node: nat, names: Path): Option<nat>
    decreases |names|
  {
    if names == [] then Some(node)
    else
      var child := Find(Listing(fs, node), names[0]);
      if child == None then None else NodeAt(fs, child.value, names[1..])
  }

  predicate DirAt(fs: FileSystem, node: nat, names: Path, j: nat)
    requires j <= |names|
  {
    NodeAt(fs, node, names[..j]).Some? && IsDir(fs, NodeAt(fs, node, names[..j]).value)
  }

  function KeyAt(fs: FileSystem, node: nat, names: Path, j: nat): Option<nat>
    requires j <= |names| && DirAt(fs, node, names, j)
  {
    fs[NodeAt(fs, node, names[..j]).value].key
  }

  // Every name leads into a directory, and the keys on the way are new and pairwise distinct.
  ghost predicate Enters(fs: FileSystem, node: nat, names: Path, visited: set<nat>) {
    && (forall j | 1 <= j <= |names| ::
          DirAt(fs, node, names, j) && (KeyAt(fs, node, names, j).Some? ==> KeyAt(fs, node, names, j).value !in visited))
    && (forall j, k | 1 <= j < k <= |names| ::
          KeyAt(fs, node, names, j).Some? ==> KeyAt(fs, node, names, j) != KeyAt(fs, node, names, k))
  }

  // ---------- Splits ----------

  // Part i takes the next split[i] names: any number for `**`, otherwise one that it matches.
  predicate Fits(m: Matcher, parts: seq<string>, names: Path, split: seq<nat>)
    decreases |parts|
  {
    if parts == [] then split == [] && names == []
    else
      && split != [] && split[0] <= |names|
      && (parts[0] == STARS || (split[0] == 1 && m(parts[0], names[0])))
      && Fits(m, parts[1..], names[split[0]..], split[1..])
  }

  // The names lead somewhere the pattern may stop: all through directories not met before, where the
  // last name need not be one.  A final `**` that takes the last name stops at a file, too.
  ghost predicate Reaches(fs: FileSystem, node: nat, names: Path, visited: set<nat>, stars: bool, taken: bool) {
    if stars then
      || Enters(fs, node, names, visited)
      || (&& taken && names != [] && Enters(fs, node, names[..|names| - 1], visited)
          && var end := NodeAt(fs, node, names); end.Some? && end.value in fs && fs[end.value].File?)
    else names != [] && Enters(fs, node, names[..|names| - 1], visited) && NodeAt(fs, node, names).Some?
  }

  ghost predicate ValidSplit(fs: FileSystem, m: Matcher, node: nat, parts: seq<string>, names: Path, visited: set<nat>,
                             split: seq<nat>) {
    && parts != [] && |split| == |parts| && Fits(m, parts, names, split)
    && Reaches(fs, node, names, visited, parts[|parts| - 1] == STARS, split[|split| - 1] > 0)
  }

  predicate AtMost(split: seq<nat>, max: nat) {
    forall i | 0 <= i < |split| :: split[i] <= max
  }

  ghost function Bounded(length: nat, max: nat): (all: set<seq<nat>>)
    ensures forall split: seq<nat> :: split in all <==> |split| == length && AtMost(split, max)
  {
    if length == 0 then {[]}
    else
      var shorter := Bounded(length - 1, max);
      assert forall split: seq<nat> | |split| == length && AtMost(split, max) ::
          split[1..] in shorter && split == [split[0]] + split[1..];
      set n: nat, rest | n <= max && rest in shorter :: [n] + rest
  }

  lemma {:induction false} FitsIsBounded(m: Matcher, parts: seq<string>, names: Path, split: seq<nat>)
    requires Fits(m, parts, names, split)
    ensures |split| == |parts| && split in Bounded(|parts|, |names|)
    decreases |parts|
  {
    if parts != [] {
      FitsIsBounded(m, parts[1..], names[split[0]..], split[1..]);
      assert split == [split[0]] + split[1..];
    }
  }

  ghost function Splits(fs: FileSystem, m: Matcher, node: nat, parts: seq<string>, names: Path, visited: set<nat>)
    : (splits: set<seq<nat>>)
    ensures forall split :: split in splits <==> ValidSplit(fs, m, node, parts, names, visited, split)
  {
    forall split | Fits(m, parts, names, split) ensures split in Bounded(|parts|, |names|) {
      FitsIsBounded(m, parts, names, split);
    }
    set split | split in Bounded(|parts|, |names|) && ValidSplit(fs, m, node, parts, names, visited, split)
  }

  // ---------- One step along the names ----------

  predicate Unseen(fs: FileSystem, child: Option<nat>, visited: set<nat>) {
    child.Some? && IsDir(fs, child.value) && !Seen(fs, child.value, visited)
  }

  lemma Shift(fs: FileSystem, node: nat, child: nat, names: Path, j: nat)
    requires names != [] && j < |names| && Find(Listing(fs, node), names[0]) == Some(child)
    ensures DirAt(fs, node, names, j + 1) <==> DirAt(fs, child, names[1..], j)
    ensures DirAt(fs, node, names, j + 1) ==> KeyAt(fs, node, names, j + 1) == KeyAt(fs, child, names[1..], j)
  {
    assert names[..j + 1][1..] == names[1..][..j];
  }

  lemma EntersFirst(fs: FileSystem, node: nat, names: Path, visited: set<nat>)
    requires names != [] && Enters(fs, node, names, visited)
    ensures var child := Find(Listing(fs, node), names[0]);
      Unseen(fs, child, visited) && Enters(fs, child.value, names[1..], Visit(fs, child.value, visited))
  {
    assert DirAt(fs, node, names, 1);
    assert names[..1][1..] == [];
    var child := Find(Listing(fs, node), names[0]).value;
    Shift(fs, node, child, names, 0);
    assert names[1..][..0] == [];
    forall j | 1 <= j <= |names[1..]|
      ensures DirAt(fs, child, names[1..], j)
      ensures KeyAt(fs, child, names[1..], j) == KeyAt(fs, node, names, j + 1)
    {
      Shift(fs, node, child, names, j);
    }
  }

  lemma EntersRest(fs: FileSystem, node: nat, child: nat, names: Path, visited: set<nat>)
    requires names != [] && Find(Listing(fs, node), names[0]) == Some(child) && Unseen(fs, Some(child), visited)
    requires Enters(fs, child, names[1..], Visit(fs, child, visited))
    ensures Enters(fs, node, names, visited)
  {
    Shift(fs, node, child, names, 0);
    assert names[1..][..0] == [];
    forall j | 1 < j <= |names|
      ensures DirAt(fs, node, names, j) && KeyAt(fs, node, names, j) == KeyAt(fs, child, names[1..], j - 1)
    {
      Shift(fs, node, child, names, j - 1);
      assert DirAt(fs, child, names[1..], j - 1);
    }
  }

  lemma EntersStep(fs: FileSystem, node: nat, names: Path, visited: set<nat>)
    requires names != []
    ensures var child := Find(Listing(fs, node), names[0]);
      Enters(fs, node, names, visited)
      <==> Unseen(fs, child, visited) && Enters(fs, child.value, names[1..], Visit(fs, child.value, visited))
  {
    var child := Find(Listing(fs, node), names[0]);
    if Enters(fs, node, names, visited) {
      EntersFirst(fs, node, names, visited);
    }
    if Unseen(fs, child, visited) && Enters(fs, child.value, names[1..], Visit(fs, child.value, visited)) {
      EntersRest(fs, node, child.value, names, visited);
    }
  }

  // Where the names may stop, seen from the child the first name leads to.
  lemma ReachesStep(fs: FileSystem, node: nat, names: Path, visited: set<nat>, stars: bool, taken: bool)
    requires names != [] && (stars || 1 < |names|)
    ensures var child := Find(Listing(fs, node), names[0]);
      Reaches(fs, node, names, visited, stars, taken)
      <==> || (&& Unseen(fs, child, visited)
               && Reaches(fs, child.value, names[1..], Visit(fs, child.value, visited), stars, taken))
           || (stars && taken && |names| == 1 && child.Some? && child.value in fs && fs[child.value].File?)
  {
    EntersStep(fs, node, names, visited);
    if 1 < |names| {
      var short := names[..|names| - 1];
      assert short[0] == names[0] && short[1..] == names[1..][..|names[1..]| - 1];
      EntersStep(fs, node, short, visited);
    } else {
      assert names[..|names| - 1] == [] && names[1..] == [];
      assert NodeAt(fs, node, names) == Find(Listing(fs, node), names[0]);
    }
  }

  // ---------- Splits, by what the first part takes ----------

  lemma ZeroSplit(fs: FileSystem, m: Matcher, node: nat, parts: seq<string>, names: Path, visited: set<nat>,
                  rest: seq<nat>)
    requires 1 < |parts| && parts[0] == STARS
    ensures ValidSplit(fs, m, node, parts, names, visited, [0] + rest)
            <==> ValidSplit(fs, m, node, parts[1..], names, visited, rest)
  {
    assert ([0] + rest)[1..] == rest && names[0..] == names;
  }

  lemma MoreFits(m: Matcher, parts: seq<string>, names: Path, n: nat, rest: seq<nat>)
    requires parts != [] && parts[0] == STARS && names != []
    ensures Fits(m, parts, names, [n + 1] + rest) <==> Fits(m, parts, names[1..], [n] + rest)
  {
    assert ([n + 1] + rest)[1..] == rest == ([n] + rest)[1..];
    if n < |names| {
      assert names[n + 1..] == names[1..][n..];
    }
  }

  lemma MoreSplit(fs: FileSystem, m: Matcher, node: nat, parts: seq<string>, names: Path, visited: set<nat>,
                  n: nat, rest: seq<nat>)
    requires parts != [] && parts[0] == STARS && names != []
    ensures var child := Find(Listing(fs, node), names[0]);
      ValidSplit(fs, m, node, parts, names, visited, [n + 1] + rest)
      <==> || (Unseen(fs, child, visited)
               && ValidSplit(fs, m, child.value, parts, names[1..], Visit(fs, child.value, visited), [n] + rest))
           || (n == 0 && rest == [] && |parts| == |names| == 1
               && child.Some? && child.value in fs && fs[child.value].File?)
  {
    MoreFits(m, parts, names, n, rest);
    var stars := parts[|parts| - 1] == STARS;
    var split := [n + 1] + rest;
    if Fits(m, parts, names, split) {
      assert split[1..] == rest;
      if |parts| > 1 {
        if !stars {
          FitsTakesLast(m, parts[1..], names[n + 1..], rest);
        }
        FitsTotal(m, parts[1..], names[n + 1..], rest);
        assert split[|rest|] == rest[|rest| - 1] == ([n] + rest)[|rest|];
      } else {
        assert parts[1..] == [] && rest == [] && |names| == n + 1;
        assert n == 0 ==> names[1..] == [];
      }
      ReachesStep(fs, node, names, visited, stars, split[|rest|] > 0);
    }
  }

  // A last part other than `**` takes a name.
  lemma {:induction false} FitsTakesLast(m: Matcher, parts: seq<string>, names: Path, split: seq<nat>)
    requires parts != [] && parts[|parts| - 1] != STARS && Fits(m, parts, names, split)
    ensures names != []
    decreases |parts|
  {
    if |parts| > 1 {
      FitsTakesLast(m, parts[1..], names[split[0]..], split[1..]);
    }
  }

  // A part that takes names leaves names to take.
  lemma {:induction false} FitsTotal(m: Matcher, parts: seq<string>, names: Path, split: seq<nat>)
    requires parts != [] && Fits(m, parts, names, split)
    ensures |split| == |parts| && split[|split| - 1] <= |names|
    decreases |parts|
  {
    if |parts| > 1 {
      FitsTotal(m, parts[1..], names[split[0]..], split[1..]);
    }
  }

  lemma OneSplit(fs: FileSystem, m: Matcher, node: nat, parts: seq<string>, names: Path, visited: set<nat>,
                 rest: seq<nat>)
    requires parts != [] && parts[0] != STARS && names != []
    ensures var child := Find(Listing(fs, node), names[0]);
      ValidSplit(fs, m, node, parts, names, visited, [1] + rest)
      <==> && m(parts[0], names[0])
           && if |parts| == 1 then rest == [] && |names| == 1 && child.Some?
              else && Unseen(fs, child, visited)
                   && ValidSplit(fs, m, child.value, parts[1..], names[1..], Visit(fs, child.value, visited), rest)
  {
    var split := [1] + rest;
    assert split[1..] == rest;
    if |parts| == 1 {
      assert parts[1..] == [];
      assert Fits(m, parts, names, split) <==> m(parts[0], names[0]) && rest == [] && |names| == 1;
      if |names| == 1 {
        assert names[..0] == [] && names[1..] == [];
        assert NodeAt(fs, node, names) == Find(Listing(fs, node), names[0]);
        assert Reaches(fs, node, names, visited, false, true) <==> Find(Listing(fs, node), names[0]).Some?;
      }
    } else if Fits(m, parts, names, split) {
      var stars := parts[|parts| - 1] == STARS;
      if !stars {
        FitsTakesLast(m, parts[1..], names[1..], rest);
      }
      FitsTotal(m, parts[1..], names[1..], rest);
      assert split[|rest|] == rest[|rest| - 1];
      ReachesStep(fs, node, names, visited, stars, split[|rest|] > 0);
    }
  }

  lemma {:induction false} SameSize(a: set<seq<nat>>, b: set<seq<nat>>, f: seq<nat> -> seq<nat>)
    requires forall x, y | x in a && y in a :: f(x) == f(y) ==> x == y
    requires b == set x | x in a :: f(x)
    ensures |a| == |b|
  {
    if a != {} {
      var x :| x in a;
      SameSize(a - {x}, b - {f(x)}, f);
    }
  }

  // The splits of which the first part takes nothing, and those of which it takes more.
  ghost function Taking(splits: set<seq<nat>>, some: bool): set<seq<nat>> {
    set split | split in splits && split != [] && (split[0] > 0 <==> some)
  }

  lemma TakingSplits(fs: FileSystem, m: Matcher, node: nat, parts: seq<string>, names: Path, visited: set<nat>)
    ensures var splits := Splits(fs, m, node, parts, names, visited);
      |splits| == |Taking(splits, false)| + |Taking(splits, true)|
  {
    var splits := Splits(fs, m, node, parts, names, visited);
    assert splits == Taking(splits, false) + Taking(splits, true);
  }

  lemma ZeroCountBefore(fs: FileSystem, m: Matcher, node: nat, parts: seq<string>, names: Path, visited: set<nat>)
    requires 1 < |parts| && parts[0] == STARS
    ensures |Taking(Splits(fs, m, node, parts, names, visited), false)|
            == |Splits(fs, m, node, parts[1..], names, visited)|
  {
    var zeros := Taking(Splits(fs, m, node, parts, names, visited), false);
    var rests := Splits(fs, m, node, parts[1..], names, visited);
    var f := (rest: seq<nat>) => [0] + rest;
    forall split ensures split in zeros <==> split in (set rest | rest in rests :: f(rest)) {
      if split in zeros {
        assert split == f(split[1..]);
        ZeroSplit(fs, m, node, parts, names, visited, split[1..]);
      }
      if split in (set rest | rest in rests :: f(rest)) {
        ZeroSplit(fs, m, node, parts, names, visited, split[1..]);
      }
    }
    forall x, y | f(x) == f(y) ensures x == y {
      assert x == f(x)[1..] && y == f(y)[1..];
    }
    SameSize(rests, zeros, f);
  }

  lemma ZeroCountLast(fs: FileSystem, m: Matcher, node: nat, parts: seq<string>, names: Path, visited: set<nat>)
    requires |parts| == 1 && parts[0] == STARS
    ensures |Taking(Splits(fs, m, node, parts, names, visited), false)| == if names == [] then 1 else 0
  {
    var zeros := Taking(Splits(fs, m, node, parts, names, visited), false);
    assert parts[1..] == [];
    forall split: seq<nat> ensures split in zeros <==> names == [] && split == [0] {
      if names == [] && split == [0] {
        assert Fits(m, parts, names, split);
      }
      if split in zeros {
        assert Fits(m, parts[1..], names[0..], split[1..]);
      }
    }
    assert zeros == if names == [] then {[0]} else {};
  }

  lemma ZeroCount(fs: FileSystem, m: Matcher, node: nat, parts: seq<string>, names: Path, visited: set<nat>)
    requires parts != [] && parts[0] == STARS
    ensures |Taking(Splits(fs, m, node, parts, names, visited), false)|
            == if 1 < |parts| then |Splits(fs, m, node, parts[1..], names, visited)|
               else if names == [] then 1 else 0
  {
    if 1 < |parts| {
      ZeroCountBefore(fs, m, node, parts, names, visited);
    } else {
      ZeroCountLast(fs, m, node, parts, names, visited);
    }
  }

  function Increased(split: seq<nat>): seq<nat> {
    if split == [] then [] else [split[0] + 1] + split[1..]
  }

  // Any split whose first part takes some is an increased one.
  lemma Decreased(split: seq<nat>) returns (less: seq<nat>)
    requires split != [] && split[0] > 0
    ensures less != [] && Increased(less) == split && less == [split[0] - 1] + split[1..]
  {
    less := [split[0] - 1] + split[1..];
  }

  lemma MoreBelow(fs: FileSystem, m: Matcher, node: nat, parts: seq<string>, names: Path, visited: set<nat>,
                  child: nat, split: seq<nat>)
    requires parts != [] && parts[0] == STARS && names != []
    requires Find(Listing(fs, node), names[0]) == Some(child) && Unseen(fs, Some(child), visited) && split != []
    ensures ValidSplit(fs, m, node, parts, names, visited, Increased(split))
            <==> ValidSplit(fs, m, child, parts, names[1..], Visit(fs, child, visited), split)
  {
    assert split == [split[0]] + split[1..];
    MoreSplit(fs, m, node, parts, names, visited, split[0], split[1..]);
  }

  lemma MoreCountBelow(fs: FileSystem, m: Matcher, node: nat, parts: seq<string>, names: Path, visited: set<nat>,
                       child: nat)
    requires parts != [] && parts[0] == STARS && names != []
    requires Find(Listing(fs, node), names[0]) == Some(child) && Unseen(fs, Some(child), visited)
    ensures |Taking(Splits(fs, m, node, parts, names, visited), true)|
            == |Splits(fs, m, child, parts, names[1..], Visit(fs, child, visited))|
  {
    var more := Taking(Splits(fs, m, node, parts, names, visited), true);
    var below := Splits(fs, m, child, parts, names[1..], Visit(fs, child, visited));
    forall split | split in more ensures exists less :: less in below && Increased(less) == split {
      var less := Decreased(split);
      MoreBelow(fs, m, node, parts, names, visited, child, less);
    }
    forall less | less in below ensures Increased(less) in more && less != [] {
      MoreBelow(fs, m, node, parts, names, visited, child, less);
    }
    SameSizeIncreased(below, more);
  }

  lemma SameSizeIncreased(below: set<seq<nat>>, more: set<seq<nat>>)
    requires forall less | less in below :: less != [] && Increased(less) in more
    requires forall split | split in more :: exists less :: less in below && Increased(less) == split
    ensures |more| == |below|
  {
    forall x, y | x in below && y in below && Increased(x) == Increased(y) ensures x == y {
      IncreasedInjective(x, y);
    }
    SameSize(below, more, Increased);
  }

  lemma IncreasedInjective(x: seq<nat>, y: seq<nat>)
    requires x != [] && y != [] && Increased(x) == Increased(y)
    ensures x == y
  {
    assert x[0] + 1 == Increased(x)[0] == Increased(y)[0] == y[0] + 1;
    assert x[1..] == Increased(x)[1..] == Increased(y)[1..] == y[1..];
    assert x == [x[0]] + x[1..] && y == [y[0]] + y[1..];
  }

  lemma MoreCountAtFile(fs: FileSystem, m: Matcher, node: nat, parts: seq<string>, names: Path, visited: set<nat>)
    requires parts != [] && parts[0] == STARS && names != []
    requires !Unseen(fs, Find(Listing(fs, node), names[0]), visited)
    ensures var child := Find(Listing(fs, node), names[0]);
      |Taking(Splits(fs, m, node, parts, names, visited), true)|
      == if |parts| == |names| == 1 && child.Some? && child.value in fs && fs[child.value].File? then 1 else 0
  {
    var more := Taking(Splits(fs, m, node, parts, names, visited), true);
    var child := Find(Listing(fs, node), names[0]);
    var atFile := |parts| == |names| == 1 && child.Some? && child.value in fs && fs[child.value].File?;
    forall split: seq<nat> | split in more ensures atFile && split == [1] {
      var less := Decreased(split);
      assert split == [less[0] + 1] + less[1..];
      MoreSplit(fs, m, node, parts, names, visited, less[0], less[1..]);
    }
    if atFile {
      assert [0 + 1] + [] == [1];
      MoreSplit(fs, m, node, parts, names, visited, 0, []);
      assert [1] in more;
      assert more == {[1]};
    } else {
      assert more == {};
    }
  }

  lemma MoreCount(fs: FileSystem, m: Matcher, node: nat, parts: seq<string>, names: Path, visited: set<nat>)
    requires parts != [] && parts[0] == STARS && names != []
    ensures var child := Find(Listing(fs, node), names[0]);
      |Taking(Splits(fs, m, node, parts, names, visited), true)|
      == if Unseen(fs, child, visited) then
           |Splits(fs, m, child.value, parts, names[1..], Visit(fs, child.value, visited))|
         else if |parts| == |names| == 1 && child.Some? && child.value in fs && fs[child.value].File? then 1
         else 0
  {
    var child := Find(Listing(fs, node), names[0]);
    if Unseen(fs, child, visited) {
      MoreCountBelow(fs, m, node, parts, names, visited, child.value);
    } else {
      MoreCountAtFile(fs, m, node, parts, names, visited);
    }
  }

  lemma NothingLeftToTake(fs: FileSystem, m: Matcher, node: nat, parts: seq<string>, visited: set<nat>)
    ensures Taking(Splits(fs, m, node, parts, [], visited), true) == {}
  {
  }

  lemma OneCountBelow(fs: FileSystem, m: Matcher, node: nat, parts: seq<string>, names: Path, visited: set<nat>,
                      child: nat)
    requires |parts| > 1 && parts[0] != STARS && names != [] && m(parts[0], names[0])
    requires Find(Listing(fs, node), names[0]) == Some(child) && Unseen(fs, Some(child), visited)
    ensures |Splits(fs, m, node, parts, names, visited)|
      == |Splits(fs, m, child, parts[1..], names[1..], Visit(fs, child, visited))|
  {
    var splits := Splits(fs, m, node, parts, names, visited);
    var below := Splits(fs, m, child, parts[1..], names[1..], Visit(fs, child, visited));
    var f := (rest: seq<nat>) => [1] + rest;
    forall split ensures split in splits <==> split in (set rest | rest in below :: f(rest)) {
      if split in splits {
        assert split == [1] + split[1..];
        OneSplit(fs, m, node, parts, names, visited, split[1..]);
        assert split == f(split[1..]);
      }
      if rest :| rest in below && f(rest) == split {
        OneSplit(fs, m, node, parts, names, visited, rest);
      }
    }
    forall x, y | f(x) == f(y) ensures x == y {
      assert x == f(x)[1..] && y == f(y)[1..];
    }
    SameSize(below, splits, f);
  }

  lemma OneCountHere(fs: FileSystem, m: Matcher, node: nat, parts: seq<string>, names: Path, visited: set<nat>)
    requires parts != [] && parts[0] != STARS && names != [] && m(parts[0], names[0])
    requires |parts| == 1 || !Unseen(fs, Find(Listing(fs, node), names[0]), visited)
    ensures Splits(fs, m, node, parts, names, visited)
      == if |parts| == 1 && |names| == 1 && Find(Listing(fs, node), names[0]).Some? then {[1]} else {}
  {
    var splits := Splits(fs, m, node, parts, names, visited);
    var stops := |parts| == 1 && |names| == 1 && Find(Listing(fs, node), names[0]).Some?;
    forall split: seq<nat> ensures split in splits <==> stops && split == [1] {
      if split in splits {
        assert split == [1] + split[1..];
        OneSplit(fs, m, node, parts, names, visited, split[1..]);
      }
      if stops && split == [1] {
        assert split == [1] + [];
        OneSplit(fs, m, node, parts, names, visited, []);
      }
    }
  }

  lemma OneCount(fs: FileSystem, m: Matcher, node: nat, parts: seq<string>, names: Path, visited: set<nat>)
    requires parts != [] && parts[0] != STARS
    ensures |Splits(fs, m, node, parts, names, visited)|
      == if names == [] || !m(parts[0], names[0]) then 0
         else
           var child := Find(Listing(fs, node), names[0]);
           if |parts| == 1 then (if |names| == 1 && child.Some? then 1 else 0)
           else if Unseen(fs, child, visited) then
             |Splits(fs, m, child.value, parts[1..], names[1..], Visit(fs, child.value, visited))|
           else 0
  {
    if names == [] || !m(parts[0], names[0]) {
      assert Splits(fs, m, node, parts, names, visited) == {};
    } else {
      var child := Find(Listing(fs, node), names[0]);
      if |parts| > 1 && Unseen(fs, child, visited) {
        OneCountBelow(fs, m, node, parts, names, visited, child.value);
      } else {
        OneCountHere(fs, m, node, parts, names, visited);
      }
    }
  }

  // ---------- What a walk yields, and how often ----------

  function Times(yielded: seq<Path>, path: Path): nat {
    multiset(yielded)[path]
  }

  lemma TimesConcat(a: seq<Path>, b: seq<Path>, path: Path)
    ensures Times(a + b, path) == Times(a, path) + Times(b, path)
  {
  }

  lemma NotYielded(yielded: seq<Path>, path: Path)
    requires path !in yielded
    ensures Times(yielded, path) == 0
  {
  }

  lemma UnderFirstName(path: Path, name: string, names: Path)
    requires path + [name] <= path + names
    ensures names != [] && names[0] == name
  {
    assert (path + [name])[|path|] == (path + names)[|path|];
  }

  // Whatever is yielded at or below a directory begins with that directory's path.
  lemma {:induction false} WalkExtends(fs: FileSystem, m: Matcher, node: nat, path: Path, parts: seq<string>,
                                       visited: set<nat>)
    requires Finite(fs, parts)
    ensures forall y <- Walk(fs, m, node, path, parts, visited) :: path <= y
    decreases Stage(parts), KeysLeft(fs, parts, visited), Height(fs, parts, node), |parts|, |Listing(fs, node)| + 1
  {
    if parts != [] {
      ListingIsBelow(fs, parts, node);
      EntriesExtend(fs, m, Listing(fs, node), path, parts, visited);
      if parts[0] == STARS && |parts| > 1 {
        WalkExtends(fs, m, node, path, parts[1..], visited);
      }
    }
  }

  lemma {:induction false} EntriesExtend(fs: FileSystem, m: Matcher, entries: seq<Entry>, path: Path,
                                         parts: seq<string>, visited: set<nat>)
    requires parts != [] && Finite(fs, parts)
    ensures forall y <- WalkEntries(fs, m, entries, path, parts, visited) :: path <= y && |path| < |y|
    decreases Stage(parts), KeysLeft(fs, parts, visited), HeightByAny(fs, parts, entries), |parts|, |entries|
  {
    if entries != [] {
      EntryExtends(fs, m, entries[0], path, parts, visited);
      EntriesExtend(fs, m, entries[1..], path, parts, visited);
    }
  }

  lemma {:induction false} EntryExtends(fs: FileSystem, m: Matcher, entry: Entry, path: Path, parts: seq<string>,
                                        visited: set<nat>)
    requires parts != [] && Finite(fs, parts)
    ensures forall y <- WalkEntry(fs, m, entry, path, parts, visited) :: path + [entry.name] <= y
    decreases Stage(parts), KeysLeft(fs, parts, visited), HeightBy(fs, parts, entry), |parts|, 0
  {
    if IsDir(fs, entry.target) && !Seen(fs, entry.target, visited) {
      var below := Visit(fs, entry.target, visited);
      DescentShrinks(fs, parts, entry, visited);
      if parts[0] == STARS {
        WalkExtends(fs, m, entry.target, path + [entry.name], parts, below);
      } else if |parts| > 1 {
        WalkExtends(fs, m, entry.target, path + [entry.name], parts[1..], below);
      }
    }
  }

  // Among entries with distinct names only the one that a path goes through can yield it.
  lemma {:induction false} EntriesTimes(fs: FileSystem, m: Matcher, entries: seq<Entry>, path: Path,
                                        parts: seq<string>, visited: set<nat>, names: Path)
    requires parts != [] && Finite(fs, parts) && DistinctNames(entries)
    ensures Times(WalkEntries(fs, m, entries, path, parts, visited), path + names)
      == if names == [] || Find(entries, names[0]) == None then 0
         else Times(WalkEntry(fs, m, Entry(names[0], Find(entries, names[0]).value), path, parts, visited), path + names)
    decreases |entries|
  {
    if entries == [] {
      return;
    }
    var first, rest := entries[0], entries[1..];
    var found := WalkEntry(fs, m, first, path, parts, visited);
    TimesConcat(found, WalkEntries(fs, m, rest, path, parts, visited), path + names);
    EntriesTimes(fs, m, rest, path, parts, visited, names);
    EntryExtends(fs, m, first, path, parts, visited);
    if names == [] || first.name != names[0] {
      if path + [first.name] <= path + names {
        UnderFirstName(path, first.name, names);
      }
      NotYielded(found, path + names);
    } else {
      FindNone(rest, first.name);
    }
  }

  lemma {:induction false} FindNone(entries: seq<Entry>, name: string)
    requires forall i | 0 <= i < |entries| :: entries[i].name != name
    ensures Find(entries, name) == None
  {
    if entries != [] {
      FindNone(entries[1..], name);
    }
  }

  // How many splits let a leading `**` take the first name.
  ghost function TakenBelow(fs: FileSystem, m: Matcher, node: nat, parts: seq<string>, names: Path, visited: set<nat>)
    : nat
    requires parts != [] && parts[0] == STARS
  {
    if names == [] then 0
    else
      var child := Find(Listing(fs, node), names[0]);
      if Unseen(fs, child, visited) then
        |Splits(fs, m, child.value, parts, names[1..], Visit(fs, child.value, visited))|
      else if |parts| == |names| == 1 && child.Some? && child.value in fs && fs[child.value].File? then 1
      else 0
  }

  lemma SplitsWithStars(fs: FileSystem, m: Matcher, node: nat, parts: seq<string>, names: Path, visited: set<nat>)
    requires parts != [] && parts[0] == STARS
    ensures |Splits(fs, m, node, parts, names, visited)|
      == (if 1 < |parts| then |Splits(fs, m, node, parts[1..], names, visited)| else if names == [] then 1 else 0)
         + TakenBelow(fs, m, node, parts, names, visited)
  {
    TakingSplits(fs, m, node, parts, names, visited);
    ZeroCount(fs, m, node, parts, names, visited);
    if names == [] {
      NothingLeftToTake(fs, m, node, parts, visited);
    } else {
      MoreCount(fs, m, node, parts, names, visited);
    }
  }

  // The main count, for any directory, path so far and visited set.
  lemma {:induction false} WalkTimes(fs: FileSystem, m: Matcher, node: nat, path: Path, parts: seq<string>,
                                     visited: set<nat>, names: Path)
    requires Finite(fs, parts) && WellNamed(fs)
    ensures Times(Walk(fs, m, node, path, parts, visited), path + names)
            == |Splits(fs, m, node, parts, names, visited)|
    decreases |names|, |parts|, 1
  {
    if parts == [] {
      assert Splits(fs, m, node, parts, names, visited) == {};
      return;
    }
    assert DistinctNames(Listing(fs, node));
    EntriesTimes(fs, m, Listing(fs, node), path, parts, visited, names);
    if names != [] && Find(Listing(fs, node), names[0]).Some? {
      EntryTimes(fs, m, node, path, parts, visited, names);
    }
    if parts[0] == STARS {
      var zero := if |parts| > 1 then Walk(fs, m, node, path, parts[1..], visited) else [path];
      TimesConcat(zero, WalkEntries(fs, m, Listing(fs, node), path, parts, visited), path + names);
      SplitsWithStars(fs, m, node, parts, names, visited);
      if |parts| > 1 {
        WalkTimes(fs, m, node, path, parts[1..], visited, names);
      } else {
        OnlyItself(path, names);
      }
    } else {
      OneCount(fs, m, node, parts, names, visited);
    }
  }

  lemma OnlyItself(path: Path, names: Path)
    ensures Times([path], path + names) == if names == [] then 1 else 0
  {
    assert path + [] == path;
    if names != [] {
      assert |path + names| > |path|;
    }
  }

  // What the entry that a path goes through contributes.
  lemma {:induction false} EntryTimes(fs: FileSystem, m: Matcher, node: nat, path: Path, parts: seq<string>,
                                      visited: set<nat>, names: Path)
    requires parts != [] && Finite(fs, parts) && WellNamed(fs)
    requires names != [] && Find(Listing(fs, node), names[0]).Some?
    ensures var child := Find(Listing(fs, node), names[0]);
            var times := Times(WalkEntry(fs, m, Entry(names[0], child.value), path, parts, visited), path + names);
      if parts[0] == STARS then
        times == if Unseen(fs, child, visited) then
                   |Splits(fs, m, child.value, parts, names[1..], Visit(fs, child.value, visited))|
                 else if |parts| == |names| == 1 && child.value in fs && fs[child.value].File? then 1
                 else 0
      else if !m(parts[0], names[0]) then times == 0
      else if |parts| == 1 then times == if |names| == 1 then 1 else 0
      else
        times == if Unseen(fs, child, visited) then
                   |Splits(fs, m, child.value, parts[1..], names[1..], Visit(fs, child.value, visited))|
                 else 0
    decreases |names|, |parts|, 0
  {
    var child := Find(Listing(fs, node), names[0]);
    var full := path + [names[0]];
    assert path + names == full + names[1..];
    assert |names| == 1 <==> full == path + names;
    if Unseen(fs, child, visited) {
      var below := Visit(fs, child.value, visited);
      if parts[0] == STARS {
        WalkTimes(fs, m, child.value, full, parts, below, names[1..]);
      } else if |parts| > 1 {
        WalkTimes(fs, m, child.value, full, parts[1..], below, names[1..]);
      }
    }
  }

  // ---------- Glob ----------

  predicate HasKey(fs: FileSystem, base: nat, names: Path, j: nat)
    requires j <= |names|
  {
    DirAt(fs, base, names, j) && fs[NodeAt(fs, base, names[..j]).value].key.Some?
  }

  function KeyOf(fs: FileSystem, base: nat, names: Path, j: nat): nat
    requires j <= |names| && HasKey(fs, base, names, j)
  {
    fs[NodeAt(fs, base, names[..j]).value].key.value
  }

  // Every name leads into a directory, and no two directories on the way share a key, the base included.
  ghost predicate Descends(fs: FileSystem, base: nat, names: Path) {
    && (forall j | 1 <= j <= |names| :: DirAt(fs, base, names, j))
    && (forall j, k | 0 <= j < k <= |names| ::
          HasKey(fs, base, names, j) && HasKey(fs, base, names, k) ==>
            KeyOf(fs, base, names, j) != KeyOf(fs, base, names, k))
  }

  // The names lead from the base to where the pattern may stop: any entry, or where the pattern ends with
  // `**`, a directory, or a file as long as the `**` takes it.
  ghost predicate Stops(fs: FileSystem, base: nat, names: Path, stars: bool, taken: bool) {
    if stars then
      || Descends(fs, base, names)
      || (&& taken && names != [] && Descends(fs, base, names[..|names| - 1])
          && var end := NodeAt(fs, base, names); end.Some? && end.value in fs && fs[end.value].File?)
    else names != [] && Descends(fs, base, names[..|names| - 1]) && NodeAt(fs, base, names).Some?
  }

  // A way to split the names over the pattern.
  ghost predicate Way(fs: FileSystem, m: Matcher, base: nat, parts: seq<string>, names: Path, split: seq<nat>) {
    && parts != [] && |split| == |parts| && Fits(m, parts, names, split)
    && Stops(fs, base, names, parts[|parts| - 1] == STARS, split[|split| - 1] > 0)
  }

  // Only the base's own key counts as visited when the walk begins.
  lemma BaseKey(fs: FileSystem, base: nat, names: Path, key: nat)
    ensures key in InitVisited(fs, base) <==> HasKey(fs, base, names, 0) && KeyOf(fs, base, names, 0) == key
  {
    assert names[..0] == [];
  }

  lemma BaseCounts(fs: FileSystem, base: nat, names: Path)
    ensures Enters(fs, base, names, InitVisited(fs, base)) <==> Descends(fs, base, names)
  {
    if Enters(fs, base, names, InitVisited(fs, base)) {
      forall j, k | 0 <= j < k <= |names| && HasKey(fs, base, names, j) && HasKey(fs, base, names, k)
        ensures KeyOf(fs, base, names, j) != KeyOf(fs, base, names, k)
      {
        BaseKey(fs, base, names, KeyAt(fs, base, names, k).value);
        assert KeyAt(fs, base, names, j).Some? && KeyAt(fs, base, names, k).Some?;
      }
    }
    if Descends(fs, base, names) {
      forall j | 1 <= j <= |names| && KeyAt(fs, base, names, j).Some?
        ensures KeyAt(fs, base, names, j).value !in InitVisited(fs, base)
      {
        BaseKey(fs, base, names, KeyAt(fs, base, names, j).value);
        assert HasKey(fs, base, names, j);
      }
      forall j, k | 1 <= j < k <= |names| && KeyAt(fs, base, names, j).Some?
        ensures KeyAt(fs, base, names, j) != KeyAt(fs, base, names, k)
      {
        assert HasKey(fs, base, names, j) && (KeyAt(fs, base, names, k).Some? ==> HasKey(fs, base, names, k));
      }
    }
  }

  ghost function Ways(fs: FileSystem, m: Matcher, base: nat, parts: seq<string>, names: Path): (ways: set<seq<nat>>)
    ensures forall split :: split in ways <==> Way(fs, m, base, parts, names, split)
  {
    BaseCounts(fs, base, names);
    if names == [] then Splits(fs, m, base, parts, names, InitVisited(fs, base))
    else
      BaseCounts(fs, base, names[..|names| - 1]);
      Splits(fs, m, base, parts, names, InitVisited(fs, base))
  }

  // Glob yields each path exactly as often as its names can be split over the pattern, and nothing
  // outside the directory it starts from.
  lemma GlobYieldsEachSplitOnce(fs: FileSystem, m: Matcher, root: nat, parts: seq<string>, names: Path)
    requires Finite(fs, parts) && WellNamed(fs)
    ensures multiset(Walk(fs, m, root, [], parts, InitVisited(fs, root)))[names] == |Ways(fs, m, root, parts, names)|
  {
    WalkTimes(fs, m, root, [], parts, InitVisited(fs, root), names);
    assert [] + names == names;
    assert Ways(fs, m, root, parts, names) == Splits(fs, m, root, parts, names, InitVisited(fs, root));
  }

  /** The base directory's key is on the path from the start, so that a link back to it is not followed:
      each path is yielded once for each way to split its names over the pattern. */
  method Glob(fs: FileSystem, m: Matcher, root: nat, patternParts: seq<string>) returns (yielded: seq<Path>)
    requires Finite(fs, patternParts)
    ensures yielded == Walk(fs, m, root, [], patternParts, InitVisited(fs, root))
    ensures WellNamed(fs) ==> forall names :: multiset(yielded)[names] == |Ways(fs, m, root, patternParts, names)|
  {
    var initVisited: set<nat> := {};
    if root in fs {
      if fs[root].Dir? && fs[root].key.Some? {
        initVisited := initVisited + {fs[root].key.value};
      }
    }
    yielded := GlobWalk.GlobWalk(fs, m, root, [], patternParts, initVisited);
    if WellNamed(fs) {
      forall names ensures multiset(yielded)[names] == |Ways(fs, m, root, patternParts, names)| {
        GlobYieldsEachSplitOnce(fs, m, root, patternParts, names);
      }
    }
  }

  lemma NoDescentRoundTheBase(fs: FileSystem, base: nat, name: string, more: Path)
    requires Find(Listing(fs, base), name) == Some(base) && IsDir(fs, base) && fs[base].key.Some?
    ensures !Descends(fs, base, [name] + more)
  {
    var names := [name] + more;
    assert names[..0] == [] && names[..1] == [name] && [name][1..] == [];
    assert NodeAt(fs, base, [name]) == Some(base) && NodeAt(fs, base, []) == Some(base);
    assert HasKey(fs, base, names, 0) && HasKey(fs, base, names, 1);
  }

  // A name that links back to the base is not followed.
  lemma LinkToTheBaseIsNotFollowed(fs: FileSystem, m: Matcher, base: nat, name: string, more: Path)
    requires WellNamed(fs) && Grounded(fs) && Find(Listing(fs, base), name) == Some(base)
    requires IsDir(fs, base) && fs[base].key.Some?
    ensures multiset(Walk(fs, m, base, [], [STARS], InitVisited(fs, base)))[[name] + more] == 0
  {
    var names := [name] + more;
    NoDescentRoundTheBase(fs, base, name, more);
    if more == [] {
      assert names == [name] && [name][1..] == [];
      assert NodeAt(fs, base, [name]) == NodeAt(fs, base, []) == Some(base);
    } else {
      NoDescentRoundTheBase(fs, base, name, more[..|more| - 1]);
      assert names[..|names| - 1] == [name] + more[..|more| - 1];
    }
    forall split ensures !Way(fs, m, base, [STARS], names, split) {
    }
    assert Ways(fs, m, base, [STARS], names) == {};
    GlobYieldsEachSplitOnce(fs, m, base, [STARS], names);
  }

  function StarsIn(parts: seq<string>): nat {
    if parts == [] then 0 else (if parts[0] == STARS then 1 else 0) + StarsIn(parts[1..])
  }

  lemma {:induction false} OneSplitPerPath(m: Matcher, parts: seq<string>, names: Path, s: seq<nat>, t: seq<nat>)
    requires Fits(m, parts, names, s) && Fits(m, parts, names, t) && StarsIn(parts) <= 1
    ensures s == t
    decreases |parts|
  {
    if parts != [] {
      if parts[0] == STARS {
        NoStarsTakeOneEach(m, parts[1..], names[s[0]..], s[1..]);
        NoStarsTakeOneEach(m, parts[1..], names[t[0]..], t[1..]);
      }
      OneSplitPerPath(m, parts[1..], names[s[0]..], s[1..], t[1..]);
      assert s == [s[0]] + s[1..] && t == [t[0]] + t[1..];
    }
  }

  lemma {:induction false} NoStarsTakeOneEach(m: Matcher, parts: seq<string>, names: Path, split: seq<nat>)
    requires Fits(m, parts, names, split) && StarsIn(parts) == 0
    ensures |names| == |parts|
    decreases |parts|
  {
    if parts != [] {
      NoStarsTakeOneEach(m, parts[1..], names[split[0]..], split[1..]);
    }
  }

  lemma AtMostOne<T>(all: set<T>)
    requires forall x, y | x in all && y in all :: x == y
    ensures |all| <= 1
  {
    if all != {} {
      var x :| x in all;
      assert all == {x};
    }
  }

  // With at most one `**` in the pattern no path is yielded twice.
  lemma GlobYieldsNoPathTwice(fs: FileSystem, m: Matcher, root: nat, parts: seq<string>, names: Path)
    requires Finite(fs, parts) && WellNamed(fs) && StarsIn(parts) <= 1
    ensures multiset(Walk(fs, m, root, [], parts, InitVisited(fs, root)))[names] <= 1
  {
    GlobYieldsEachSplitOnce(fs, m, root, parts, names);
    forall s, t | Fits(m, parts, names, s) && Fits(m, parts, names, t) ensures s == t {
      OneSplitPerPath(m, parts, names, s, t);
    }
    AtMostOne(Ways(fs, m, root, parts, names));
  }
}
