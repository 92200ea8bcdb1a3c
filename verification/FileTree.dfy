/** The file tree under the server's working directory and the operations of
    src/dbms/dbmsUtil.c on it. A tree is a finite map from paths (sequences of
    names) to nodes in which every parent is a directory; the POSIX calls are
    modelled with the `errno` values the callers distinguish. */
module FileTree {
  import opened Types

  type Path = seq<string>

  /** A file that was created or truncated and not yet written holds no entry. */
  datatype Node = Directory | File(content: Option<Entry>)

  type Tree = map<Path, Node>

  datatype Errno = NoError | ENOENT | ENOTDIR | EEXIST | EISDIR

  datatype Mode = READ | CREATE | OVERWRITE | MODIFY | DELETE

  function Parent(p: Path): Path
    requires p != []
  {
    p[..|p| - 1]
  }

  ghost predicate WellFormed(t: Tree) {
    && [] in t && t[[]] == Directory
    && forall p {:trigger Parent(p)} :: p in t && p != [] ==> Parent(p) in t && t[Parent(p)] == Directory
  }

  predicate IsDirectory(t: Tree, p: Path) { p in t && t[p].Directory? }

  /** Why a lookup of the absent path `p` fails. */
  function Absence(t: Tree, p: Path): Errno {
    if exists k :: 0 <= k < |p| && p[..k] in t && t[p[..k]].File? then ENOTDIR else ENOENT
  }

  // open(2), opendir(3), mkdir(2)

  function Opendir(t: Tree, p: Path): Errno {
    if p !in t then Absence(t, p) else if t[p].File? then ENOTDIR else NoError
  }

  function Mkdir(t: Tree, p: Path): (Errno, Tree)
    requires p != []
  {
    if p in t then (EEXIST, t)
    else if Opendir(t, Parent(p)) != NoError then (Opendir(t, Parent(p)), t)
    else (NoError, t[p := Directory])
  }

  /** `open_file`: READ needs an existing path, CREATE is exclusive, MODIFY
      truncates and never creates. */
  function OpenFile(t: Tree, p: Path, mode: Mode): (Errno, Tree)
    requires mode == READ || mode == CREATE || mode == MODIFY
    requires p != []
  {
    match mode
    case READ => (if p in t then NoError else Absence(t, p), t)
    case CREATE =>
      if p in t then (EEXIST, t)
      else if Opendir(t, Parent(p)) != NoError then (Opendir(t, Parent(p)), t)
      else (NoError, t[p := File(None)])
    case MODIFY =>
      if p !in t then (Absence(t, p), t)
      else if t[p].Directory? then (EISDIR, t)
      else (NoError, t[p := File(None)])
  }

  /** `open_directory`: its result code and what it leaves of the tree. */
  function OpenDirectory(t: Tree, p: Path, mode: Mode): (int, Tree)
    requires p != []
  {
    if mode != CREATE && mode != READ && mode != OVERWRITE then (GEN_ERR_INV_ARGS, t) else
      var errno := Opendir(t, p);
      if errno == NoError then (if mode == CREATE then DBMS_ERR_EXISTS else DBMS_SUCCESS, t)
      else if errno != ENOENT then (DBMS_ERR_ANY, t)
      else if mode == READ then (DBMS_ERR_NOT_EXISTS, t)
      else
        var (failure, t') := Mkdir(t, p);
        if failure != NoError then (DBMS_ERR_ANY, t) else (DBMS_SUCCESS, t')
  }

  /** What `open_directory` returns and leaves, for every tree, path and mode:
      it changes nothing, or makes exactly the absent directory asked for. */
  lemma OpenDirectoryLaw(t: Tree, p: Path, mode: Mode)
    requires WellFormed(t) && p != []
    ensures var (code, t') := OpenDirectory(t, p, mode);
            var makes := (mode == CREATE || mode == OVERWRITE)
                         && p !in t && Absence(t, p) == ENOENT && IsDirectory(t, Parent(p));
            && t' == (if makes then t[p := Directory] else t)
            && code == (if mode == MODIFY || mode == DELETE then -2
                        else if IsDirectory(t, p) then (if mode == CREATE then -102 else 100)
                        else if makes then 100
                        else if mode == READ && p !in t && Absence(t, p) == ENOENT then -101
                        else -100)
  {
  }

  /** What `open_file` does: READ changes nothing, CREATE never touches an
      existing path, MODIFY empties an existing file and makes none. */
  lemma OpenFileLaw(t: Tree, p: Path, mode: Mode)
    requires WellFormed(t) && p != [] && (mode == READ || mode == CREATE || mode == MODIFY)
    ensures var (errno, t') := OpenFile(t, p, mode);
            && (mode == READ ==> (errno == NoError <==> p in t))
            && (mode == CREATE ==> (errno == NoError <==> p !in t && IsDirectory(t, Parent(p))))
            && (mode == MODIFY ==> (errno == NoError <==> p in t && !IsDirectory(t, p)))
            && t' == (if errno == NoError && mode != READ then t[p := File(None)] else t)
            && (p in t && mode == CREATE ==> errno == EEXIST)
            && (p !in t && mode != CREATE ==> errno == Absence(t, p))
  {
  }

  /** The names in the directory at `p`. */
  function Children(t: Tree, p: Path): (names: set<string>)
    ensures forall name :: name in names <==> p + [name] in t
  {
    var names := set q | q in t && |q| == |p| + 1 && p <= q :: q[|p|];
    assert forall name :: p + [name] in t ==> (p + [name])[|p|] == name;
    assert forall q :: q in t && |q| == |p| + 1 && p <= q ==> q == p + [q[|p|]];
    names
  }

  ghost function Subtree(t: Tree, p: Path): set<Path> { set q | q in t && p <= q }

  /** `t` without the subtree at `p`. */
  ghost function Without(t: Tree, p: Path): Tree { t - Subtree(t, p) }

  /** What a removal of `p` that gave up part-way may leave: some strict
      descendants of `p` are gone and nothing else has changed. */
  ghost predicate Thinned(before: Tree, after: Tree, p: Path) {
    && after.Keys <= before.Keys
    && (forall q :: q in after ==> after[q] == before[q])
    && (forall q :: q in before && q !in after ==> p < q)
  }

  /** `t` without the subtrees of the children of `p` named in `done`. */
  ghost function Cleared(t: Tree, p: Path, done: set<string>): Tree {
    t - (set q | q in t && p < q && q[|p|] in done)
  }

  /** The two names every directory lists besides its children. */
  predicate IsDot(name: string) { name == "." || name == ".." }

  class FileSystem {
    var tree: Tree
    /** Paths whose removal the operating system refuses. */
    const stuck: set<Path>

    constructor (tree: Tree, stuck: set<Path>)
      ensures this.tree == tree && this.stuck == stuck
    {
      this.tree, this.stuck := tree, stuck;
    }

    /** The names `readdir` yields, in an order nobody controls. */
    method ReadDirectory(p: Path) returns (names: seq<string>)
      requires IsDirectory(tree, p)
      requires forall name :: name in Children(tree, p) ==> !IsDot(name)
      ensures forall name :: name in names <==> name in Children(tree, p) || IsDot(name)
      ensures forall i, j :: 0 <= i < j < |names| ==> names[i] != names[j]
    {
      var left := Children(tree, p) + {".", ".."};
      ghost var all := left;
      names := [];
      while left != {}
        invariant left <= all
        invariant forall name :: name in names <==> name in all - left
        invariant forall i, j :: 0 <= i < j < |names| ==> names[i] != names[j]
      {
        var name :| name in left;
        assert name !in names;
        names, left := names + [name], left - {name};
      }
    }

    /** remove(3): unlinks a file or an empty directory. */
    method Remove(p: Path) returns (result: int)
      requires WellFormed(tree)
      modifies this`tree
      ensures WellFormed(tree)
      ensures result == 0 || result == -1
      ensures result == 0 <==> p != [] && p in old(tree) && p !in stuck && Subtree(old(tree), p) == {p}
      ensures tree == if result == 0 then old(tree) - {p} else old(tree)
    {
      var refused := p == [] || p in stuck || (set q | q in tree && p <= q) != {p};
      if refused {
        return -1;
      }
      LeafRemoved(tree, p);
      tree := tree - {p};
      return 0;
    }

    /** `remove_recursive`: succeeds exactly when the path exists and nothing
        at or below it is stuck, and then the whole subtree is gone; otherwise
        at most strict descendants are. */
    method RemoveRecursive(p: Path) returns (result: int)
      requires WellFormed(tree)
      modifies this`tree
      ensures WellFormed(tree)
      ensures result == 0 <==> p != [] && p in old(tree) && Subtree(old(tree), p) !! stuck
      ensures p in old(tree) && result != 0 ==>
                result == if Subtree(old(tree), p) - {p} !! stuck then -1 else DBMS_ERR_ANY
      ensures p !in old(tree) ==>
                result == if Absence(old(tree), p) == ENOENT then DBMS_ERR_NOT_EXISTS else -1
      ensures result == 0 ==> tree == Without(old(tree), p)
      ensures result < 0 ==> Thinned(old(tree), tree, p)
      ensures p !in old(tree) ==> tree == old(tree)
      decreases Subtree(tree, p), 1
    {
      var errno := Opendir(tree, p);
      if errno == NoError {
        var cleared := RemoveContents(p);
        if cleared < 0 {
          return DBMS_ERR_ANY;
        }
        ClearedAll(old(tree), p);
      }
      if errno == ENOENT {
        return DBMS_ERR_NOT_EXISTS;
      }
      if p in tree && errno == ENOTDIR {
        FileIsLeaf(tree, p);
      }
      result := Remove(p);
    }

    /** The `readdir` loop of `remove_recursive` over the directory `p`. */
    method RemoveContents(p: Path) returns (result: int)
      requires WellFormed(tree) && IsDirectory(tree, p)
      modifies this`tree
      ensures WellFormed(tree)
      ensures result == 0 || result == DBMS_ERR_ANY
      ensures result == 0 <==> Subtree(old(tree), p) - {p} !! stuck
      ensures result == 0 ==> tree == Cleared(old(tree), p, Children(old(tree), p))
      ensures result < 0 ==> Thinned(old(tree), tree, p)
      decreases Subtree(tree, p), 0
    {
      ghost var t := tree;
      var left := Children(tree, p);
      ghost var done: set<string> := {};
      while left != {}
        invariant done !! left && done + left == Children(t, p)
        invariant tree == Cleared(t, p, done) && WellFormed(tree)
        invariant (Subtree(t, p) - Subtree(tree, p)) !! stuck
      {
        var name :| name in left;
        var child := p + [name];
        ghost var now := tree;
        ClearedKeeps(t, p, done, name);
        SubtreeShrinks(t, now, p, child);
        var removed;
        if tree[child].Directory? {
          removed := RemoveRecursive(child);
        } else {
          FileIsLeaf(tree, child);
          removed := Remove(child);
        }
        if removed < 0 {
          ThinnedUp(t, p, done, child, now, tree);
          return DBMS_ERR_ANY;
        }
        ClearedNext(t, p, done, name);
        SubtreeAfter(t, now, p, child);
        done, left := done + {name}, left - {name};
      }
      ClearedAll(t, p);
      return 0;
    }
  }

  lemma LeafRemoved(t: Tree, p: Path)
    requires WellFormed(t) && p != [] && Subtree(t, p) == {p}
    ensures WellFormed(t - {p})
  {
    forall q | q in t - {p} && q != [] ensures Parent(q) != p {
      assert Parent(q) == p ==> q in Subtree(t, p);
    }
  }

  lemma FileIsLeaf(t: Tree, p: Path)
    requires WellFormed(t) && p in t && t[p].File?
    ensures Subtree(t, p) == {p} && Without(t, p) == t - {p}
  {
    forall q | q in t && p <= q ensures q == p {
      LeafHasNoBelow(t, p, q);
    }
  }

  lemma {:induction false} LeafHasNoBelow(t: Tree, p: Path, q: Path)
    requires WellFormed(t) && p in t && t[p].File? && q in t && p <= q
    ensures q == p
  {
    if |q| > |p| {
      assert p <= Parent(q);
      LeafHasNoBelow(t, p, Parent(q));
    }
  }

  /** Every path between a present path and one below it is present. */
  lemma {:induction false} AncestorsPresent(t: Tree, q: Path, k: nat)
    requires WellFormed(t) && q in t && k <= |q|
    ensures q[..k] in t && (k < |q| ==> t[q[..k]] == Directory)
  {
    if k == |q| {
      assert q[..k] == q;
    } else {
      assert Parent(q)[..k] == q[..k];
      AncestorsPresent(t, Parent(q), k);
    }
  }

  lemma ClearedKeeps(t: Tree, p: Path, done: set<string>, name: string)
    requires name in Children(t, p) && name !in done
    ensures p + [name] in Cleared(t, p, done) && (p in t ==> p in Cleared(t, p, done))
  {
    assert (p + [name])[|p|] == name;
  }

  lemma SubtreeShrinks(before: Tree, now: Tree, p: Path, child: Path)
    requires p in before && p < child && now.Keys <= before.Keys
    ensures Subtree(now, child) <= Subtree(before, p) - {p}
    ensures Subtree(now, child) < Subtree(before, p)
  {
    assert p in Subtree(before, p) && p !in Subtree(now, child);
    forall q | q in Subtree(now, child) ensures q in Subtree(before, p) {
      assert child <= q;
      assert p <= q;
    }
  }

  lemma ClearedNext(t: Tree, p: Path, done: set<string>, name: string)
    requires name !in done
    ensures Without(Cleared(t, p, done), p + [name]) == Cleared(t, p, done + {name})
  {
    forall q | q in Cleared(t, p, done)
      ensures p + [name] <= q <==> p < q && q[|p|] == name
    {
      if p < q && q[|p|] == name { assert q[..|p| + 1] == p + [name]; }
      if p + [name] <= q { assert q[|p|] == (p + [name])[|p|]; }
    }
  }

  lemma ClearedAll(t: Tree, p: Path)
    requires WellFormed(t) && p in t
    ensures Subtree(Cleared(t, p, Children(t, p)), p) == {p}
    ensures Cleared(t, p, Children(t, p)) - {p} == Without(t, p)
  {
    forall q | q in t && p < q ensures q[|p|] in Children(t, p) {
      AncestorsPresent(t, q, |p| + 1);
      assert q[..|p| + 1] == p + [q[|p|]];
    }
    var c := Cleared(t, p, Children(t, p));
    assert p in Subtree(c, p);
    assert forall q :: q in Subtree(c, p) ==> q == p;
  }

  lemma ThinnedUp(t: Tree, p: Path, done: set<string>, child: Path, mid: Tree, after: Tree)
    requires mid == Cleared(t, p, done) && p < child && Thinned(mid, after, child)
    ensures Thinned(t, after, p)
  {
    forall q | q in t && q !in after ensures p < q {
      if q in mid { assert child < q; }
    }
  }

  lemma SubtreeAfter(t: Tree, mid: Tree, p: Path, child: Path)
    requires mid.Keys <= t.Keys && p < child
    ensures Subtree(Without(mid, child), p) == Subtree(mid, p) - Subtree(mid, child)
  {
  }
}
