/** The directory tree recorded chunks live in, and the recursive removal of old files from it. */
module FileTree {
  import opened Wrappers

  type Path = seq<string>

  /** A file whose time cannot be read has no mtime; a file that cannot be unlinked is not removable. */
  datatype Node = FileNode(mtime: Option<int>, removable: bool) | DirNode(openable: bool)

  type Tree = map<Path, Node>

  predicate EndsWith(s: string, suffix: string) {
    |s| >= |suffix| && s[|s| - |suffix|..] == suffix
  }

  /** The pattern "*.ts". */
  predicate MatchesTs(name: string) {
    EndsWith(name, ".ts")
  }

  predicate IsChild(dir: Path, q: Path) {
    |q| == |dir| + 1 && dir <= q
  }

  predicate OpenDir(t: Tree, p: Path) {
    p in t && t[p].DirNode? && t[p].openable
  }

  /** q lies below dir, on a way the walk takes: through openable folders, and only one level when not recursive. */
  ghost predicate Reached(t: Tree, dir: Path, recursive: bool, q: Path) {
    && |dir| < |q| && dir <= q
    && (forall n | |dir| <= n < |q| :: OpenDir(t, q[..n]))
    && (recursive || |q| == |dir| + 1)
  }

  predicate OldFile(n: Node, cutoff: int) {
    n.FileNode? && n.removable && n.mtime.Some? && n.mtime.value < cutoff
  }

  ghost predicate Doomed(t: Tree, dir: Path, cutoff: int, recursive: bool, q: Path) {
    q in t && q != [] && OldFile(t[q], cutoff) && MatchesTs(q[|q| - 1]) && Reached(t, dir, recursive, q)
  }

  /** The tree after the sweep: exactly the doomed files are gone. */
  ghost function Swept(t: Tree, dir: Path, cutoff: int, recursive: bool): Tree {
    map q | q in t && !Doomed(t, dir, cutoff, recursive, q) :: t[q]
  }

  /** Part of a sweep of dir: only the entries in done, with everything below them, have been handled. */
  ghost predicate PartlySwept(old_: Tree, t: Tree, dir: Path, cutoff: int, recursive: bool, done: set<Path>) {
    && (forall q | q in t :: q in old_ && t[q] == old_[q])
    && forall q | q in old_ ::
         q in t <==> !(Doomed(old_, dir, cutoff, recursive, q) && q[..|dir| + 1] in done)
  }

  lemma DoomedBelowChild(old_: Tree, t: Tree, dir: Path, cutoff: int, done: set<Path>, c: Path, q: Path)
    requires PartlySwept(old_, t, dir, cutoff, true, done) && OpenDir(old_, dir) && IsChild(dir, c) && c !in done
    ensures Doomed(t, c, cutoff, true, q) ==> Doomed(old_, dir, cutoff, true, q) && q[..|dir| + 1] == c
    ensures Doomed(old_, dir, cutoff, true, q) && q[..|dir| + 1] == c && q != c ==> Doomed(t, c, cutoff, true, q)
  {
    if Doomed(t, c, cutoff, true, q) {
      assert q[..|dir|] == dir && q[..|dir| + 1] == c;
      forall n | |dir| <= n < |q| ensures OpenDir(old_, q[..n]) {
        if n > |dir| { assert OpenDir(t, q[..n]); }
      }
    }
    if Doomed(old_, dir, cutoff, true, q) && q[..|dir| + 1] == c && q != c {
      assert c <= q;
      forall n | |c| <= n < |q| ensures OpenDir(t, q[..n]) {
        assert OpenDir(old_, q[..n]);
      }
    }
  }

  lemma SweptChildDir(old_: Tree, t: Tree, dir: Path, cutoff: int, done: set<Path>, c: Path)
    requires PartlySwept(old_, t, dir, cutoff, true, done) && OpenDir(old_, dir) && IsChild(dir, c) && c !in done
    requires c in old_ && old_[c].DirNode?
    ensures PartlySwept(old_, Swept(t, c, cutoff, true), dir, cutoff, true, done + {c})
  {
    var t' := Swept(t, c, cutoff, true);
    forall q | q in old_
      ensures q in t' <==> !(Doomed(old_, dir, cutoff, true, q) && q[..|dir| + 1] in done + {c})
    {
      DoomedBelowChild(old_, t, dir, cutoff, done, c, q);
    }
  }

  /** Below a file, and below a folder that is not entered, there is nothing to sweep. */
  lemma OnlyItself(t: Tree, dir: Path, cutoff: int, recursive: bool, c: Path, q: Path)
    requires c in t && IsChild(dir, c) && (t[c].FileNode? || !recursive)
    requires Doomed(t, dir, cutoff, recursive, q) && q[..|dir| + 1] == c
    ensures q == c
  {
    assert |q| > |dir| + 1 ==> OpenDir(t, q[..|dir| + 1]);
  }

  lemma DoomedEntry(t: Tree, dir: Path, cutoff: int, recursive: bool, c: Path)
    requires OpenDir(t, dir) && c in t && IsChild(dir, c)
    ensures Doomed(t, dir, cutoff, recursive, c) <==> OldFile(t[c], cutoff) && MatchesTs(c[|dir|])
  {
    assert c[..|dir|] == dir;
    assert Reached(t, dir, recursive, c);
  }

  lemma SweptOneEntry(old_: Tree, t: Tree, dir: Path, cutoff: int, recursive: bool, done: set<Path>, c: Path)
    requires PartlySwept(old_, t, dir, cutoff, recursive, done) && OpenDir(old_, dir)
    requires c in old_ && IsChild(dir, c) && c !in done && (old_[c].FileNode? || !recursive)
    ensures var gone := OldFile(old_[c], cutoff) && MatchesTs(c[|dir|]);
            PartlySwept(old_, if gone then t - {c} else t, dir, cutoff, recursive, done + {c})
  {
    DoomedEntry(old_, dir, cutoff, recursive, c);
    assert c[..|dir| + 1] == c;
    hide Doomed, OldFile, MatchesTs;
    forall q | q in old_ && Doomed(old_, dir, cutoff, recursive, q) && q[..|dir| + 1] == c ensures q == c {
      OnlyItself(old_, dir, cutoff, recursive, c, q);
    }
  }

  lemma FirstStepIsChild(t: Tree, dir: Path, cutoff: int, recursive: bool, q: Path)
    requires Doomed(t, dir, cutoff, recursive, q)
    ensures q[..|dir| + 1] in t && IsChild(dir, q[..|dir| + 1])
  {
    if |q| == |dir| + 1 {
      assert q[..|dir| + 1] == q;
    } else {
      assert OpenDir(t, q[..|dir| + 1]);
    }
  }

  lemma AllSwept(old_: Tree, t: Tree, dir: Path, cutoff: int, recursive: bool, done: set<Path>)
    requires PartlySwept(old_, t, dir, cutoff, recursive, done)
    requires done == set q | q in old_ && IsChild(dir, q)
    ensures t == Swept(old_, dir, cutoff, recursive)
  {
    forall q | q in old_ && Doomed(old_, dir, cutoff, recursive, q) ensures q[..|dir| + 1] in done {
      FirstStepIsChild(old_, dir, cutoff, recursive, q);
    }
  }

  lemma ClosedIsSwept(t: Tree, dir: Path, cutoff: int, recursive: bool)
    requires !OpenDir(t, dir)
    ensures Swept(t, dir, cutoff, recursive) == t
  {
    forall q | q in t ensures !Doomed(t, dir, cutoff, recursive, q) {
      assert |dir| <= |q| && dir <= q ==> q[..|dir|] == dir;
    }
  }

  /** A removable file whose name ends in ".ts" and whose time is known and before the cutoff, in the folder or, for a
      recursive sweep, anywhere below it, with every folder on the way open to the walk. */
  ghost predicate OldTsBelow(t: Tree, dir: Path, cutoff: int, recursive: bool, q: Path) {
    && q in t && t[q].FileNode? && t[q].removable && t[q].mtime.Some? && t[q].mtime.value < cutoff
    && |q| > |dir| && q[..|dir|] == dir && (recursive || |q| == |dir| + 1)
    && |q[|q| - 1]| >= 3 && q[|q| - 1][|q[|q| - 1]| - 3..] == ".ts"
    && forall n | |dir| <= n < |q| :: q[..n] in t && t[q[..n]].DirNode? && t[q[..n]].openable
  }

  lemma DoomedIff(t: Tree, dir: Path, cutoff: int, recursive: bool, q: Path)
    ensures Doomed(t, dir, cutoff, recursive, q) <==> OldTsBelow(t, dir, cutoff, recursive, q)
  {
  }

  /** What a sweep leaves. */
  lemma SweptIff(t: Tree, dir: Path, cutoff: int, recursive: bool)
    ensures var t' := Swept(t, dir, cutoff, recursive);
            && (forall q :: q in t' <==> q in t && !OldTsBelow(t, dir, cutoff, recursive, q))
            && forall q | q in t' :: t'[q] == t[q]
  {
    hide Doomed, OldTsBelow;
    forall q ensures q in Swept(t, dir, cutoff, recursive) <==> q in t && !OldTsBelow(t, dir, cutoff, recursive, q) {
      DoomedIff(t, dir, cutoff, recursive, q);
    }
  }

  class FileSystem {
    var nodes: Tree

    constructor (nodes: Tree)
      ensures this.nodes == nodes
    {
      this.nodes := nodes;
    }

    /** RemoveOldFilesByTime with the pattern "*.ts". The depth only bounds the folders' nesting. */
    method RemoveOldFilesByTime(dir: Path, cutoff: int, recursive: bool, ghost depth: nat)
      requires |dir| <= depth && forall q | q in nodes :: |q| <= depth
      modifies this
      ensures nodes == Swept(old(nodes), dir, cutoff, recursive)
      decreases depth - |dir|
    {
      hide Doomed;
      if !OpenDir(nodes, dir) {
        ClosedIsSwept(nodes, dir, cutoff, recursive);
        return;
      }
      ghost var before := nodes;
      var entries := set q | q in nodes && IsChild(dir, q);
      ghost var done: set<Path> := {};
      while entries != {}
        invariant PartlySwept(before, nodes, dir, cutoff, recursive, done)
        invariant entries !! done && entries + done == set q | q in before && IsChild(dir, q)
        decreases entries
      {
        var q :| q in entries;
        assert IsChild(dir, q) && q in before && q[..|dir| + 1] == q;
        var node := nodes[q];
        if node.FileNode? {
          SweptOneEntry(before, nodes, dir, cutoff, recursive, done, q);
          if MatchesTs(q[|q| - 1]) {
            if OldFile(node, cutoff) {
              nodes := nodes - {q};
            }
          }
        } else if recursive {
          SweptChildDir(before, nodes, dir, cutoff, done, q);
          RemoveOldFilesByTime(q, cutoff, recursive, depth);
        } else {
          SweptOneEntry(before, nodes, dir, cutoff, recursive, done, q);
        }
        entries, done := entries - {q}, done + {q};
      }
      AllSwept(before, nodes, dir, cutoff, recursive, done);
    }
  }
}
