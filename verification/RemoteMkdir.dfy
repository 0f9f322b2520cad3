/** Creation of a directory and its missing parents on a server that other clients change meanwhile. */
module RemoteMkdir {
  import opened Options

  // The names from the root down.
  type Path = seq<string>

  datatype Kind = Directory | NotDirectory

  type Tree = map<Path, Kind>

  predicate IsDirectory(tree: Tree, path: Path) {
    path in tree && tree[path] == Directory
  }

  // Entries may be added, and stay what they are.
  ghost predicate Grows(before: Tree, after: Tree) {
    forall p :: p in before ==> p in after && after[p] == before[p]
  }

  // What other clients do to the tree before the n-th request, and whether the server denies it.
  datatype World = World(others: (nat, Tree) -> Tree, denies: nat -> bool)

  ghost predicate OnlyGrows(world: World) {
    forall n, tree :: Grows(tree, world.others(n, tree))
  }

  ghost predicate Quiet(world: World) {
    forall n, tree :: world.others(n, tree) == tree && !world.denies(n)
  }

  // Where there was nothing, there is nothing or a directory.
  ghost predicate AddsDirectories(before: Tree, after: Tree) {
    forall p :: p in after && p !in before ==> after[p] == Directory
  }

  // Nothing is denied, and the others add only directories.
  ghost predicate Friendly(world: World) {
    forall n, tree :: !world.denies(n) && AddsDirectories(tree, world.others(n, tree))
  }

  /** The server, as one client sees it: each request first lets the others act. */
  class Server {
    const world: World
    var requests: nat
    var tree: Tree
    // The directories this client has made.
    ghost var made: set<Path>

    ghost predicate Valid()
      reads this
    {
      OnlyGrows(world) && IsDirectory(tree, []) && forall p :: p in made ==> IsDirectory(tree, p)
    }

    constructor (world: World, tree: Tree)
      requires OnlyGrows(world) && IsDirectory(tree, [])
      ensures Valid() && this.world == world && this.tree == tree && made == {}
    {
      this.world, this.tree := world, tree;
      requests, made := 0, {};
    }

    method Begin() returns (denied: bool)
      requires Valid()
      modifies this
      ensures Valid() && made == old(made) && Grows(old(tree), tree)
      ensures tree == world.others(old(requests), old(tree)) && requests == old(requests) + 1
      ensures denied == world.denies(old(requests))
      ensures Friendly(world) ==> !denied && AddsDirectories(old(tree), tree)
    {
      denied := world.denies(requests);
      tree := world.others(requests, tree);
      requests := requests + 1;
    }

    // A denied answer reads as absence.
    method Exists(path: Path) returns (exists_: bool)
      requires Valid()
      modifies this
      ensures Valid() && made == old(made) && Grows(old(tree), tree)
      ensures exists_ ==> path in tree
      ensures Quiet(world) ==> tree == old(tree) && exists_ == (path in tree)
      ensures Friendly(world) ==> AddsDirectories(old(tree), tree) && exists_ == (path in tree)
    {
      var denied := Begin();
      exists_ := !denied && path in tree;
    }

    method Stat(path: Path) returns (kind: Option<Kind>)
      requires Valid()
      modifies this
      ensures Valid() && made == old(made) && Grows(old(tree), tree)
      ensures kind.Some? ==> path in tree && kind.value == tree[path]
      ensures Quiet(world) ==> tree == old(tree) && (path in tree ==> kind.Some?)
      ensures Friendly(world) ==> AddsDirectories(old(tree), tree) && (path in tree ==> kind.Some?)
    {
      var denied := Begin();
      kind := if !denied && path in tree then Some(tree[path]) else None;
    }

    method Mkdir(path: Path) returns (ok: bool)
      requires Valid() && path != []
      modifies this
      ensures Valid() && Grows(old(tree), tree)
      ensures ok ==> path !in old(tree) && IsDirectory(tree, path) && made == old(made) + {path}
      ensures !ok ==> made == old(made)
      ensures Quiet(world) ==> ok == (path !in old(tree) && IsDirectory(old(tree), path[..|path| - 1]))
      ensures Quiet(world) ==> tree == if ok then old(tree)[path := Directory] else old(tree)
      ensures Friendly(world) ==>
        AddsDirectories(old(tree), tree) && (IsDirectory(old(tree), path[..|path| - 1]) ==> path in tree)
    {
      var denied := Begin();
      ok := !denied && path !in tree && IsDirectory(tree, path[..|path| - 1]);
      if ok {
        tree := tree[path := Directory];
        made := made + {path};
      }
    }
  }

  datatype Outcome = Done | AlreadyExists(path: Path) | NotADirectory(path: Path) | CannotCreate(path: Path) | StatFailed

  ghost predicate AllDirectories(tree: Tree, parts: Path, n: nat) {
    n <= |parts| && forall k :: 0 <= k <= n ==> IsDirectory(tree, parts[..k])
  }

  // Among the first n prefixes, this client made none but these.
  ghost predicate MadeAlong(made: set<Path>, before: set<Path>, parts: Path, n: nat) {
    before <= made && n <= |parts| && forall p :: p in made && p !in before ==> exists k :: 0 < k <= n && p == parts[..k]
  }

  // Whatever stands along the path is a directory.
  ghost predicate ClearAlong(tree: Tree, parts: Path) {
    forall k :: 0 <= k <= |parts| && parts[..k] in tree ==> IsDirectory(tree, parts[..k])
  }

  /** Left alone, the call succeeds just when nothing but directories stands along the path and the last
      one may be there, and adds the missing directories. */
  ghost predicate Succeeds(tree: Tree, parts: Path, existOk: bool) {
    ClearAlong(tree, parts) && (parts != [] && !existOk ==> parts !in tree)
  }

  lemma ClearStays(before: Tree, after: Tree, parts: Path)
    requires ClearAlong(before, parts) && Grows(before, after) && AddsDirectories(before, after)
    ensures ClearAlong(after, parts)
  {
  }

  // The tree with the missing directories down to the n-th added.
  function WithDirectories(tree: Tree, parts: Path, n: nat): Tree
    requires n <= |parts|
  {
    if n == 0 then tree
    else
      var above := WithDirectories(tree, parts, n - 1);
      if parts[..n] in above then above else above[parts[..n] := Directory]
  }

  /** Just the missing prefixes are added, as directories. */
  lemma {:induction false} WithDirectoriesAdds(tree: Tree, parts: Path, n: nat, p: Path)
    requires n <= |parts|
    ensures var added := 0 < |p| <= n && p == parts[..|p|];
      && (p in WithDirectories(tree, parts, n) <==> p in tree || added)
      && (p in WithDirectories(tree, parts, n) ==>
            WithDirectories(tree, parts, n)[p] == if p in tree then tree[p] else Directory)
  {
    if n > 0 {
      WithDirectoriesAdds(tree, parts, n - 1, p);
      assert |parts[..n]| == n;
    }
  }

  // One component: the directory is found or made, or the call ends.
  method EnsureDirectory(server: Server, current: Path, isFinal: bool, existOk: bool) returns (r: Outcome)
    requires server.Valid() && current != [] && IsDirectory(server.tree, current[..|current| - 1])
    modifies server
    ensures server.Valid() && Grows(old(server.tree), server.tree)
    ensures old(server.made) <= server.made <= old(server.made) + {current}
    ensures r.Done? ==> IsDirectory(server.tree, current)
    ensures r.Done? && isFinal && !existOk ==>
      current in server.made && current !in old(server.made) && current !in old(server.tree)
    ensures r.NotADirectory? ==> r.path == current && current in server.tree && server.tree[current] == NotDirectory
    ensures r.AlreadyExists? ==>
      isFinal && !existOk && r.path == current && current in server.tree && server.made == old(server.made)
    ensures Quiet(server.world) ==> (r.Done? <==>
      (current in old(server.tree) ==> IsDirectory(old(server.tree), current) && !(isFinal && !existOk)))
    ensures Friendly(server.world) ==> AddsDirectories(old(server.tree), server.tree)
    ensures Friendly(server.world) && (current in old(server.tree) ==> IsDirectory(old(server.tree), current)) ==>
      r.Done? || r.AlreadyExists?
    ensures Quiet(server.world) && r.Done? ==>
      server.tree == if current in old(server.tree) then old(server.tree) else old(server.tree)[current := Directory]
  {
    var exists_ := server.Exists(current);
    if exists_ {
      if isFinal && !existOk {
        return AlreadyExists(current);
      }
      var st := server.Stat(current);
      if st.None? {
        return StatFailed;
      }
      if st.value != Directory {
        return NotADirectory(current);
      }
      return Done;
    }
    var made := server.Mkdir(current);
    if !made {
      var nowExists := server.Exists(current);
      if !nowExists {
        return CannotCreate(current);
      }
      var st := server.Stat(current);
      if st.None? {
        return StatFailed;
      }
      if st.value != Directory {
        return NotADirectory(current);
      }
      if isFinal && !existOk {
        return AlreadyExists(current);
      }
    }
    r := Done;
  }

  lemma BlockedAt(tree: Tree, parts: Path, i: nat, existOk: bool)
    requires i < |parts| && parts[..i + 1] in tree
    requires !IsDirectory(tree, parts[..i + 1]) || (i == |parts| - 1 && !existOk)
    ensures !Succeeds(tree, parts, existOk)
  {
    assert parts[..|parts|] == parts;
  }

  /** A normal return means that every prefix is a directory, whatever others did meanwhile, and without
      existOk that this very call made the last one. */
  method MkdirRecursive(server: Server, parts: Path, existOk: bool) returns (r: Outcome)
    requires server.Valid()
    modifies server
    ensures server.Valid() && Grows(old(server.tree), server.tree)
    ensures r.Done? ==> AllDirectories(server.tree, parts, |parts|)
    ensures r.Done? && parts != [] && !existOk ==>
      parts in server.made && parts !in old(server.made) && parts !in old(server.tree)
    ensures MadeAlong(server.made, old(server.made), parts, |parts|)
    ensures r.NotADirectory? ==> r.path <= parts && r.path in server.tree && server.tree[r.path] == NotDirectory
    ensures r.AlreadyExists? ==>
      !existOk && r.path == parts && parts in server.tree && (parts in server.made ==> parts in old(server.made))
    ensures Friendly(server.world) && ClearAlong(old(server.tree), parts) ==> r.Done? || (r.AlreadyExists? && !existOk)
    ensures Quiet(server.world) ==> (r.Done? <==> Succeeds(old(server.tree), parts, existOk))
    ensures Quiet(server.world) && r.Done? ==> server.tree == WithDirectories(old(server.tree), parts, |parts|)
  {
    var current: Path := [];
    var lastIndex := |parts| - 1;
    for i := 0 to |parts|
      invariant server.Valid() && Grows(old(server.tree), server.tree)
      invariant current == parts[..i]
      invariant AllDirectories(server.tree, parts, i)
      invariant i == |parts| && i > 0 && !existOk ==>
        parts in server.made && parts !in old(server.made) && parts !in old(server.tree)
      invariant MadeAlong(server.made, old(server.made), parts, i)
      invariant Friendly(server.world) && ClearAlong(old(server.tree), parts) ==> ClearAlong(server.tree, parts)
      invariant Quiet(server.world) ==> server.tree == WithDirectories(old(server.tree), parts, i)
    {
      ghost var before := server.tree;
      current := current + [parts[i]];
      assert current == parts[..i + 1] && current[..i] == parts[..i];
      assert i == lastIndex ==> current == parts;
      WithDirectoriesAdds(old(server.tree), parts, i, current);
      var step := EnsureDirectory(server, current, i == lastIndex, existOk);
      if !step.Done? {
        if Quiet(server.world) {
          BlockedAt(old(server.tree), parts, i, existOk);
        }
        return step;
      }
      if Friendly(server.world) && ClearAlong(before, parts) {
        ClearStays(before, server.tree, parts);
      }
    }
    r := Done;
  }
}
