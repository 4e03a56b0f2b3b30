/**
 * An abstract, tree-shaped file system: the disk the module content provider
 * works on. A path is a sequence of names; a node is a file with contents or
 * a directory of named children.
 */
module FileSystem {
  import opened Wrappers
  import opened Strings

  type Path = seq<string>

  datatype Node = File(content: string) | Dir(children: map<string, Node>)

  const EmptyDir := Dir(map[])

  /** The node at `p` below `n`, if there is one. */
  function Lookup(n: Node, p: Path): Option<Node>
    decreases |p|
  {
    if |p| == 0 then Some(n)
    else match n
      case File(_) => None
      case Dir(children) => if p[0] in children then Lookup(children[p[0]], p[1..]) else None
  }

  predicate Exists(n: Node, p: Path)
  {
    Lookup(n, p).Some?
  }

  predicate IsDir(n: Node, p: Path)
  {
    Lookup(n, p).Some? && Lookup(n, p).value.Dir?
  }

  predicate IsFile(n: Node, p: Path)
  {
    Lookup(n, p).Some? && Lookup(n, p).value.File?
  }

  /** Neither path lies under the other: changing one leaves the other alone. */
  predicate Apart(p: Path, q: Path)
  {
    !(p <= q) && !(q <= p)
  }

  /** No file stands where `p` needs a directory, so `sub` can be placed at `p`. */
  predicate Placeable(n: Node, p: Path)
    decreases |p|
  {
    |p| == 0 || (n.Dir? && (p[0] in n.children ==> Placeable(n.children[p[0]], p[1..])))
  }

  /** Places `sub` at `p`, creating missing parent directories; a file in the way leaves `n` as it is. */
  function Put(n: Node, p: Path, sub: Node): Node
    decreases |p|
  {
    if |p| == 0 then sub
    else match n
      case File(_) => n
      case Dir(children) =>
        var child := if p[0] in children then children[p[0]] else EmptyDir;
        Dir(children[p[0] := Put(child, p[1..], sub)])
  }

  /** Removes `p` and everything under it; a missing path leaves `n` as it is. */
  function Remove(n: Node, p: Path): Node
    requires |p| > 0
    decreases |p|
  {
    match n
    case File(_) => n
    case Dir(children) =>
      if p[0] !in children then n
      else if |p| == 1 then Dir(children - {p[0]})
      else Dir(children[p[0] := Remove(children[p[0]], p[1..])])
  }

  /** The path written with `/` separators. */
  function PathString(p: Path): string
  {
    Join(p, "/")
  }

  // ---------------------------------------------------------------------------
  // Lookup after Put and Remove
  // ---------------------------------------------------------------------------

  lemma {:induction false} LookupPutSame(n: Node, p: Path, sub: Node)
    requires Placeable(n, p)
    ensures Lookup(Put(n, p, sub), p) == Some(sub)
    decreases |p|
  {
    if |p| > 0 {
      var child := if p[0] in n.children then n.children[p[0]] else EmptyDir;
      LookupPutSame(child, p[1..], sub);
    }
  }

  lemma {:induction false} LookupPutBelow(n: Node, p: Path, sub: Node, q: Path)
    requires Placeable(n, p) && p <= q
    ensures Lookup(Put(n, p, sub), q) == Lookup(sub, q[|p|..])
    decreases |p|
  {
    if |p| > 0 {
      var child := if p[0] in n.children then n.children[p[0]] else EmptyDir;
      assert q[0] == p[0] && p[1..] <= q[1..];
      LookupPutBelow(child, p[1..], sub, q[1..]);
      assert q[1..][|p[1..]|..] == q[|p|..];
    }
  }

  lemma {:induction false} LookupPutApart(n: Node, p: Path, sub: Node, q: Path)
    requires Apart(p, q)
    ensures Lookup(Put(n, p, sub), q) == Lookup(n, q)
    decreases |p|
  {
    assert |p| > 0 && |q| > 0;
    if n.Dir? && q[0] == p[0] {
      var child := if p[0] in n.children then n.children[p[0]] else EmptyDir;
      assert Apart(p[1..], q[1..]) by {
        assert p[1..] <= q[1..] ==> p <= q;
        assert q[1..] <= p[1..] ==> q <= p;
      }
      LookupPutApart(child, p[1..], sub, q[1..]);
      if p[0] !in n.children {
        EmptyDirHasNothingBelow(q[1..]);
      }
    }
  }

  lemma EmptyDirHasNothingBelow(q: Path)
    requires |q| > 0
    ensures Lookup(EmptyDir, q) == None
  {
  }

  lemma {:induction false} LookupRemoveBelow(n: Node, p: Path, q: Path)
    requires |p| > 0 && p <= q
    ensures Lookup(Remove(n, p), q) == None || Lookup(n, p) == None
    ensures Lookup(n, p) == None ==> Lookup(n, q) == None
    decreases |p|
  {
    assert q[0] == p[0] && p[1..] <= q[1..];
    if n.Dir? && p[0] in n.children {
      if |p| > 1 {
        LookupRemoveBelow(n.children[p[0]], p[1..], q[1..]);
        assert Lookup(Remove(n, p), q) == Lookup(Remove(n.children[p[0]], p[1..]), q[1..]);
        assert Lookup(n, p) == Lookup(n.children[p[0]], p[1..]);
        assert Lookup(n, q) == Lookup(n.children[p[0]], q[1..]);
      } else {
        var rest := n.children - {p[0]};
        assert Remove(n, p) == Dir(rest) && q[0] !in rest;
        assert Lookup(Remove(n, p), q) == None;
        assert Lookup(n, p) == Lookup(n.children[p[0]], p[1..]) == Some(n.children[p[0]]);
      }
    }
  }

  lemma {:induction false} LookupRemoveApart(n: Node, p: Path, q: Path)
    requires |p| > 0 && Apart(p, q)
    ensures Lookup(Remove(n, p), q) == Lookup(n, q)
    decreases |p|
  {
    assert |q| > 0;
    if n.Dir? && p[0] in n.children && q[0] == p[0] {
      assert |p| > 1;
      assert Apart(p[1..], q[1..]) by {
        assert p[1..] <= q[1..] ==> p <= q;
        assert q[1..] <= p[1..] ==> q <= p;
      }
      LookupRemoveApart(n.children[p[0]], p[1..], q[1..]);
    }
  }

  /** After removal nothing is left at the path or under it. */
  lemma RemoveLeavesNothing(n: Node, p: Path, q: Path)
    requires |p| > 0 && p <= q
    ensures !Exists(Remove(n, p), q)
  {
    LookupRemoveBelow(n, p, q);
    if Lookup(n, p) == None {
      RemovePreservesMissing(n, p, q);
    }
  }

  lemma {:induction false} RemovePreservesMissing(n: Node, p: Path, q: Path)
    requires |p| > 0 && Lookup(n, q) == None
    ensures Lookup(Remove(n, p), q) == None
    decreases |p|
  {
    if n.Dir? && p[0] in n.children && |q| > 0 && q[0] == p[0] && |p| > 1 {
      RemovePreservesMissing(n.children[p[0]], p[1..], q[1..]);
    }
  }

  /** Removing `p` changes nothing on the way to it, so `p` can be placed afterwards exactly when it could before. */
  lemma {:induction false} RemoveKeepsPlaceable(n: Node, p: Path)
    requires |p| > 0
    ensures Placeable(Remove(n, p), p) == Placeable(n, p)
    decreases |p|
  {
    if n.Dir? && p[0] in n.children && |p| > 1 {
      RemoveKeepsPlaceable(n.children[p[0]], p[1..]);
    }
  }

  /** What lies below a node is found below its path. */
  lemma {:induction false} LookupBelow(n: Node, p: Path, q: Path)
    requires Lookup(n, p).Some?
    ensures Lookup(n, p + q) == Lookup(Lookup(n, p).value, q)
    decreases |p|
  {
    if |p| > 0 {
      assert (p + q)[0] == p[0] && (p + q)[1..] == p[1..] + q;
      LookupBelow(n.children[p[0]], p[1..], q);
    } else {
      assert p + q == q;
    }
  }

  /** A missing path has nothing under it. */
  lemma {:induction false} MissingHasNothingBelow(n: Node, p: Path, q: Path)
    requires p <= q && Lookup(n, p) == None
    ensures Lookup(n, q) == None
    decreases |p|
  {
    if |p| > 0 && n.Dir? && p[0] in n.children {
      assert q[0] == p[0] && p[1..] <= q[1..];
      MissingHasNothingBelow(n.children[p[0]], p[1..], q[1..]);
    }
  }

  /** A path whose parent is a directory can be placed. */
  lemma {:induction false} ParentDirPlaceable(n: Node, p: Path)
    requires |p| > 0 && IsDir(n, p[..|p| - 1])
    ensures Placeable(n, p)
    decreases |p|
  {
    if |p| > 1 {
      assert p[..|p| - 1][0] == p[0] && p[..|p| - 1][1..] == p[1..][..|p[1..]| - 1];
      ParentDirPlaceable(n.children[p[0]], p[1..]);
    }
  }

  /** Placing at a path that already exists under an existing parent creates no other path. */
  lemma {:induction false} PutKeepsOtherExistence(n: Node, p: Path, sub: Node, q: Path)
    requires |p| > 0 && IsDir(n, p[..|p| - 1]) && !(p <= q)
    ensures Exists(Put(n, p, sub), q) == Exists(n, q)
    decreases |p|
  {
    if q <= p {
      // q is a proper ancestor of p, which exists as a directory already
      assert q <= p[..|p| - 1];
      ExistsAncestor(n, p[..|p| - 1], q);
      ParentDirPlaceable(n, p);
      PutKeepsAncestorDirs(n, p, sub, q);
    } else {
      LookupPutApart(n, p, sub, q);
    }
  }

  lemma {:induction false} ExistsAncestor(n: Node, p: Path, q: Path)
    requires q <= p && Exists(n, p)
    ensures Exists(n, q)
    decreases |q|
  {
    if |q| > 0 {
      ExistsAncestor(n.children[p[0]], p[1..], q[1..]);
    }
  }

  /** Placing below an existing or missing ancestor leaves a directory there. */
  lemma {:induction false} PutKeepsAncestorDirs(n: Node, p: Path, sub: Node, q: Path)
    requires q <= p && |q| < |p| && Placeable(n, p)
    ensures IsDir(Put(n, p, sub), q)
    decreases |q|
  {
    if |q| > 0 {
      var child := if p[0] in n.children then n.children[p[0]] else EmptyDir;
      assert Placeable(child, p[1..]) by {
        if p[0] !in n.children {
          EmptyDirPlaceable(p[1..]);
        }
      }
      PutKeepsAncestorDirs(child, p[1..], sub, q[1..]);
    }
  }

  /** Whatever can be placed inside `sub` can be placed once `sub` is at `p`. */
  lemma {:induction false} PutPlaceableBelow(n: Node, p: Path, sub: Node, r: Path)
    requires Placeable(n, p) && Placeable(sub, r)
    ensures Placeable(Put(n, p, sub), p + r)
    decreases |p|
  {
    if |p| > 0 {
      var child := if p[0] in n.children then n.children[p[0]] else EmptyDir;
      assert Placeable(child, p[1..]) by {
        if p[0] !in n.children {
          EmptyDirPlaceable(p[1..]);
        }
      }
      PutPlaceableBelow(child, p[1..], sub, r);
      assert (p + r)[0] == p[0] && (p + r)[1..] == p[1..] + r;
    } else {
      assert p + r == r;
    }
  }

  lemma {:induction false} EmptyDirPlaceable(p: Path)
    ensures Placeable(EmptyDir, p)
  {
  }

  /** Two prefixes of one path are comparable. */
  lemma PrefixesComparable(p: Path, q: Path, r: Path)
    requires p <= r && q <= r
    ensures p <= q || q <= p
  {
    if |p| <= |q| {
      assert q[..|p|] == r[..|p|] == p;
    } else {
      assert p[..|q|] == r[..|q|] == q;
    }
  }

  /** A path apart from `p` is apart from everything under `p`. */
  lemma ApartExtends(q: Path, p: Path, r: Path)
    requires Apart(q, p) && p <= r
    ensures Apart(q, r)
  {
    if q <= r {
      PrefixesComparable(q, p, r);
    }
  }

  /** `a` and `b` agree at every path that lies apart from both `p` and `r`. */
  ghost predicate SameApartFrom(a: Node, b: Node, p: Path, r: Path)
  {
    forall q :: Apart(q, p) && Apart(q, r) ==> Lookup(a, q) == Lookup(b, q)
  }

  /** Placing at `p` changes nothing apart from `p`. */
  lemma PutFrame(n: Node, p: Path, sub: Node, r: Path)
    ensures SameApartFrom(Put(n, p, sub), n, p, r)
  {
    forall q | Apart(q, p) && Apart(q, r)
      ensures Lookup(Put(n, p, sub), q) == Lookup(n, q)
    {
      LookupPutApart(n, p, sub, q);
    }
  }

  /** Removing `p` changes nothing apart from `p`. */
  lemma RemoveFrame(n: Node, p: Path, r: Path)
    requires |p| > 0
    ensures SameApartFrom(Remove(n, p), n, p, r)
  {
    forall q | Apart(q, p) && Apart(q, r)
      ensures Lookup(Remove(n, p), q) == Lookup(n, q)
    {
      LookupRemoveApart(n, p, q);
    }
  }

  lemma FrameTrans(a: Node, b: Node, c: Node, p: Path, r: Path)
    requires SameApartFrom(a, b, p, r) && SameApartFrom(b, c, p, r)
    ensures SameApartFrom(a, c, p, r)
  {
  }

  lemma FrameSwap(a: Node, b: Node, p: Path, r: Path)
    requires SameApartFrom(a, b, p, r)
    ensures SameApartFrom(a, b, r, p)
  {
  }

  /** A frame apart from `r` is one apart from any ancestor of `r`. */
  lemma FrameWiden(a: Node, b: Node, p: Path, r: Path, ancestor: Path)
    requires SameApartFrom(a, b, p, r) && ancestor <= r
    ensures SameApartFrom(a, b, p, ancestor)
  {
    forall q | Apart(q, p) && Apart(q, ancestor)
      ensures Lookup(a, q) == Lookup(b, q)
    {
      ApartExtends(q, ancestor, r);
    }
  }

  /** Placing below an existing node changes that node by the same placement, relative to it. */
  lemma {:induction false} LookupPutAbove(n: Node, p: Path, r: Path, sub: Node)
    requires Lookup(n, p).Some?
    ensures Lookup(Put(n, p + r, sub), p) == Some(Put(Lookup(n, p).value, r, sub))
    decreases |p|
  {
    if |p| == 0 {
      assert p + r == r;
    } else {
      assert (p + r)[0] == p[0] && (p + r)[1..] == p[1..] + r;
      LookupPutAbove(n.children[p[0]], p[1..], r, sub);
    }
  }

  /** Paths below two apart paths are apart. */
  lemma ApartBelow(p: Path, q: Path, x: Path, y: Path)
    requires Apart(p, q)
    ensures Apart(p + x, q + y)
  {
    if p + x <= q + y {
      PrefixesComparable(p, q, q + y);
    } else if q + y <= p + x {
      PrefixesComparable(p, q, p + x);
    }
  }

  // ---------------------------------------------------------------------------
  // The disk and the operating-system calls on it
  // ---------------------------------------------------------------------------

  /** The parent directory of a non-empty path. */
  function Parent(p: Path): Path
    requires |p| > 0
  {
    p[..|p| - 1]
  }

  /** Removes `p` and everything under it; removing the root empties the disk. */
  function RemoveTree(n: Node, p: Path): Node
  {
    if |p| == 0 then EmptyDir else Remove(n, p)
  }

  /** A rename succeeds when the source exists, the target does not, its parent is a directory, and it is not moved into itself. */
  predicate CanRename(n: Node, src: Path, dst: Path)
  {
    |src| > 0 && |dst| > 0 && Exists(n, src) && !Exists(n, dst) && IsDir(n, Parent(dst)) && !(src <= dst)
  }

  /**
   * The file system the server works on. Each method is one operating-system
   * call; a failure the environment decides (permissions, a full disk, the
   * network behind a clone) is passed in as an outcome.
   */
  class Disk {
    var root: Node

    constructor (root: Node)
      ensures this.root == root
    {
      this.root := root;
    }

    /** Creates a fresh directory `chosen` inside `dir`; `chosen` is the name the system picks, or its failure. */
    method MkdirTemp(dir: Path, chosen: Result<string, string>) returns (r: Result<Path, string>)
      modifies this
      ensures chosen.Ok? && IsDir(old(root), dir) && !Exists(old(root), dir + [chosen.value]) ==>
        r == Ok(dir + [chosen.value]) && root == Put(old(root), dir + [chosen.value], EmptyDir)
      ensures !(chosen.Ok? && IsDir(old(root), dir) && !Exists(old(root), dir + [chosen.value])) ==>
        r.Err? && root == old(root)
    {
      if chosen.Err? {
        return Err(chosen.error);
      }
      var p := dir + [chosen.value];
      if !IsDir(root, dir) || Exists(root, p) {
        return Err("no such directory, or the name is taken");
      }
      root := Put(root, p, EmptyDir);
      return Ok(p);
    }

    /** Removes `p` and everything under it; a missing path is not an error. */
    method RemoveAll(p: Path, failure: Option<string>) returns (err: Option<string>)
      modifies this
      ensures err == failure
      ensures root == if failure.Some? then old(root) else RemoveTree(old(root), p)
    {
      if failure.Some? {
        return failure;
      }
      root := RemoveTree(root, p);
      return None;
    }

    /** Creates the directory `p`, whose parent must be a directory and which must not exist. */
    method Mkdir(p: Path, failure: Option<string>) returns (err: Option<string>)
      modifies this
      ensures err.None? <==> failure.None? && |p| > 0 && IsDir(old(root), Parent(p)) && !Exists(old(root), p)
      ensures root == if err.None? then Put(old(root), p, EmptyDir) else old(root)
    {
      if failure.Some? {
        return failure;
      }
      if |p| == 0 || !IsDir(root, Parent(p)) || Exists(root, p) {
        return Some("cannot create the directory");
      }
      root := Put(root, p, EmptyDir);
      return None;
    }

    /** Moves the tree at `src` to `dst`. */
    method Rename(src: Path, dst: Path, failure: Option<string>) returns (err: Option<string>)
      modifies this
      ensures err.None? <==> failure.None? && CanRename(old(root), src, dst)
      ensures root == if err.None? then Put(Remove(old(root), src), dst, Lookup(old(root), src).value) else old(root)
    {
      if failure.Some? {
        return failure;
      }
      if !CanRename(root, src, dst) {
        return Some("cannot move the directory");
      }
      root := Put(Remove(root, src), dst, Lookup(root, src).value);
      return None;
    }

    /**
     * Writes a whole tree at `p`, creating missing parents, as a clone or an
     * unpacked archive does; `tree` is what was fetched or unpacked, or why that failed.
     */
    method Materialize(p: Path, tree: Result<Node, string>) returns (err: Option<string>)
      modifies this
      ensures err.None? <==> tree.Ok? && Placeable(old(root), p)
      ensures root == if err.None? then Put(old(root), p, tree.value) else old(root)
    {
      if tree.Err? {
        return Some(tree.error);
      }
      if !Placeable(root, p) {
        return Some("a file is in the way");
      }
      root := Put(root, p, tree.value);
      return None;
    }

    /** The contents of the file at `p`. */
    method ReadFile(p: Path) returns (r: Result<string, string>)
      ensures r.Ok? <==> IsFile(root, p)
      ensures r.Ok? ==> Lookup(root, p) == Some(File(r.value))
    {
      var n := Lookup(root, p);
      if n.Some? && n.value.File? {
        return Ok(n.value.content);
      }
      return Err("no such file");
    }
  }

  // ---------------------------------------------------------------------------
  // Paths as strings
  // ---------------------------------------------------------------------------

  /** Writing a joined path: the two halves separated by one `/`. */
  lemma {:induction false} PathStringAppend(a: Path, b: Path)
    requires |a| > 0 && |b| > 0
    ensures PathString(a + b) == PathString(a) + "/" + PathString(b)
    decreases |a|
  {
    if |a| == 1 {
      assert (a + b)[0] == a[0] && (a + b)[1..] == b;
    } else {
      assert (a + b)[0] == a[0] && (a + b)[1..] == a[1..] + b;
      PathStringAppend(a[1..], b);
    }
  }
}
