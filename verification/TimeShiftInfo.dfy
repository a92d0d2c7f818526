/** Recorded chunks on disk: what the player finds in its folder, before and after the cleanup. */
module TimeShiftInfos {
  import opened Wrappers
  import opened Decimal
  import opened Names
  import opened FileTree
  import opened Sequences
  import opened Timeshift

  // A folder of the tree

  /** A file that shows up when the folder is listed. */
  predicate Visible(t: Tree, dir: Path, name: string) {
    OpenDir(t, dir) && dir + [name] in t && t[dir + [name]].FileNode?
  }

  function FileOf(t: Tree, dir: Path, name: string): Option<File> {
    if Visible(t, dir, name) && t[dir + [name]].mtime.Some? then Some(File(name, t[dir + [name]].mtime.value)) else None
  }

  /** A scan of the folder, in any order; times that can be read are right. */
  ghost predicate IsScan(t: Tree, dir: Path, files: seq<File>) {
    && Distinct(files)
    && (forall f | f in files :: Visible(t, dir, f.name) && (FileOf(t, dir, f.name).Some? ==> FileOf(t, dir, f.name) == Some(f)))
    && forall name | Visible(t, dir, name) :: exists f :: f in files && f.name == name
  }

  /** The chunks of the folder in order, no two with one index, and all of them with a time that can be read. */
  ghost predicate Lists(t: Tree, dir: Path, s: seq<File>) {
    && StrictlySorted(s)
    && (forall f | f in s :: FileOf(t, dir, f.name) == Some(f))
    && forall name | Visible(t, dir, name) && ChunkIndex(name).Some? ::
         FileOf(t, dir, name).Some? && FileOf(t, dir, name).value in s
  }

  lemma {:induction false} ScanDistinct(files: seq<File>)
    requires Distinct(files)
    ensures Distinct(ScanFolder(files))
  {
    if files != [] {
      ScanDistinct(files[1..]);
      assert files[0] !in files[1..];
    }
  }

  /** A strictly sorted listing is determined by its elements. */
  lemma {:induction false} ListingUnique(a: seq<File>, b: seq<File>)
    requires StrictlySorted(a) && StrictlySorted(b) && forall f :: f in a <==> f in b
    ensures a == b
  {
    if a == [] {
      HasFirst(b);
    } else {
      assert a[0] in b && b != [] && b[0] in a;
      assert a[0] == b[0];
      forall f ensures f in a[1..] <==> f in b[1..] {
        assert f in a <==> f == a[0] || f in a[1..];
        assert f in b <==> f == b[0] || f in b[1..];
        assert forall i | 0 < i < |a| :: Index(a[i]) > Index(a[0]);
        assert forall i | 0 < i < |b| :: Index(b[i]) > Index(b[0]);
      }
      ListingUnique(a[1..], b[1..]);
      assert a == [a[0]] + a[1..] && b == [b[0]] + b[1..];
    }
  }

  /** Sorting any scan of the folder gives the listing. */
  lemma SortIsListing(t: Tree, dir: Path, files: seq<File>, a: seq<File>, s: seq<File>)
    requires IsScan(t, dir, files) && Lists(t, dir, s) && IsSortOf(a, ScanFolder(files))
    ensures a == s
  {
    SortKeepsElements(a, ScanFolder(files));
    forall f ensures f in a <==> f in s {
      if f in a {
        assert Visible(t, dir, f.name) && ChunkIndex(f.name).Some?;
      }
      if f in s {
        assert FileOf(t, dir, f.name) == Some(f) && Visible(t, dir, f.name) && IsChunk(f);
        var g :| g in files && g.name == f.name;
        assert g == f;
      }
    }
    ScanDistinct(files);
    hide Lists, IsScan;
    SortedDistinct(a, ScanFolder(files), s);
    ListingUnique(a, s);
  }

  lemma SortedDistinct(a: seq<File>, found: seq<File>, s: seq<File>)
    requires IsSortOf(a, found) && Distinct(found) && StrictlySorted(s) && forall f :: f in a <==> f in s
    ensures StrictlySorted(a)
  {
    forall i, j | 0 <= i < j < |a| ensures Index(a[i]) < Index(a[j]) {
      if Index(a[i]) == Index(a[j]) {
        assert a[i] in s && a[j] in s;
        SameIndex(s, a[i], a[j]);
        RepeatCount(a, i, j);
        DistinctCount(found, a[i]);
      }
    }
  }

  lemma SameIndex(s: seq<File>, f: File, g: File)
    requires StrictlySorted(s) && f in s && g in s && Index(f) == Index(g)
    ensures f == g
  {
  }

  ghost function Gone(t: Tree, root: Path, cutoff: int, dir: Path, s: seq<File>): set<File> {
    set f | f in s && Doomed(t, root, cutoff, true, dir + [f.name])
  }

  /** The sweep leaves the listing without the files that are gone. */
  lemma ListingAfterSweep(t: Tree, root: Path, cutoff: int, dir: Path, s: seq<File>)
    requires Lists(t, dir, s)
    ensures Lists(Swept(t, root, cutoff, true), dir, Kept(s, Gone(t, root, cutoff, dir, s)))
  {
    var t' := Swept(t, root, cutoff, true);
    var gone := Gone(t, root, cutoff, dir, s);
    KeptStrictlySorted(s, gone);
    KeptMembers(s, gone);
    assert OpenDir(t', dir) == OpenDir(t, dir);
    forall f | f in Kept(s, gone) ensures FileOf(t', dir, f.name) == Some(f) {
      assert FileOf(t, dir, f.name) == Some(f) && dir + [f.name] in t';
    }
    forall name | Visible(t', dir, name) && ChunkIndex(name).Some?
      ensures FileOf(t', dir, name).Some? && FileOf(t', dir, name).value in Kept(s, gone)
    {
      assert Visible(t, dir, name);
      var f := FileOf(t, dir, name).value;
      assert f in s && f !in gone;
    }
  }

  /** Every chunk of the folder can be reached and removed by the sweep. */
  ghost predicate AllRemovable(t: Tree, root: Path, dir: Path, s: seq<File>) {
    forall f | f in s :: dir + [f.name] in t && t[dir + [f.name]].FileNode? && t[dir + [f.name]].removable
                         && Reached(t, root, true, dir + [f.name])
  }

  lemma SweepsOldestFirst(t: Tree, root: Path, cutoff: int, dir: Path, s: seq<File>)
    requires Lists(t, dir, s) && AllRemovable(t, root, dir, s) && MonotoneTimes(s)
    ensures OldestFirst(s, Gone(t, root, cutoff, dir, s))
    ensures forall f | f in s :: f in Gone(t, root, cutoff, dir, s) <==> f.mtime < cutoff
  {
    hide Reached;
    forall f | f in s ensures f in Gone(t, root, cutoff, dir, s) <==> f.mtime < cutoff {
      var q := dir + [f.name];
      assert FileOf(t, dir, f.name) == Some(f) && IsChunk(f) && q[|q| - 1] == f.name && q != [];
      assert MatchesTs(f.name);
    }
    forall i, j | 0 <= i < j < |s| && s[j] in Gone(t, root, cutoff, dir, s) ensures s[i] in Gone(t, root, cutoff, dir, s) {
      assert s[i] in s && s[j] in s && s[i].mtime <= s[j].mtime < cutoff;
    }
  }

  // The player and the cleanup on one disk

  /** Part of a scan: the names in rest have not been looked at. */
  ghost predicate PartScan(t: Tree, dir: Path, files: seq<File>, rest: set<string>) {
    && Distinct(files)
    && (forall f | f in files :: f.name !in rest && Visible(t, dir, f.name))
    && (forall f | f in files && FileOf(t, dir, f.name).Some? :: FileOf(t, dir, f.name) == Some(f))
    && (forall name | name in rest :: Visible(t, dir, name))
    && forall name | Visible(t, dir, name) :: name in rest || exists f :: f in files && f.name == name
  }

  lemma ScanOne(t: Tree, dir: Path, files: seq<File>, rest: set<string>, f: File)
    requires PartScan(t, dir, files, rest) && f.name in rest
    requires FileOf(t, dir, f.name).Some? ==> FileOf(t, dir, f.name) == Some(f)
    ensures PartScan(t, dir, files + [f], rest - {f.name})
  {
    var more := files + [f];
    forall name | Visible(t, dir, name) ensures name in rest - {f.name} || exists g :: g in more && g.name == name {
      if name == f.name {
        assert more[|files|] == f;
      } else if name !in rest {
        var g :| g in files && g.name == name;
        assert g in more;
      }
    }
  }

  function ChildNames(t: Tree, dir: Path): (names: set<string>)
    ensures OpenDir(t, dir) ==> forall name :: name in names <==> Visible(t, dir, name)
  {
    var names := set q | q in t && IsChild(dir, q) && t[q].FileNode? :: q[|dir|];
    assert forall q | IsChild(dir, q) :: dir + [q[|dir|]] == q;
    assert forall name: string :: IsChild(dir, dir + [name]) && (dir + [name])[|dir|] == name;
    names
  }

  /** The recorded stream as the player knows it. */
  class TimeShiftInfo {
    const disk: FileSystem
    const timeshiftDir: Path
    const timeshiftDelay: int

    constructor (disk: FileSystem, dir: Path, delay: int)
      ensures this.disk == disk && timeshiftDir == dir && timeshiftDelay == delay
    {
      this.disk, timeshiftDir, timeshiftDelay := disk, dir, delay;
    }

    /** Lists the files of the folder; for a time that cannot be read any value may be seen. */
    method Scan() returns (files: seq<File>)
      ensures IsScan(disk.nodes, timeshiftDir, files)
    {
      files := [];
      if !OpenDir(disk.nodes, timeshiftDir) {
        return;
      }
      var rest := ChildNames(disk.nodes, timeshiftDir);
      while rest != {}
        invariant PartScan(disk.nodes, timeshiftDir, files, rest)
        decreases rest
      {
        var name :| name in rest;
        var node := disk.nodes[timeshiftDir + [name]];
        var mtime: int := *;
        if node.mtime.Some? {
          mtime := node.mtime.value;
        }
        ScanOne(disk.nodes, timeshiftDir, files, rest, File(name, mtime));
        files, rest := files + [File(name, mtime)], rest - {name};
      }
    }

    /** What is found depends on the listing of the folder only, whatever order the scan and the sort took. */
    method FindChunkToPlay(duration: int, now: int) returns (index: Option<nat>)
      ensures forall s: seq<File> | Lists(disk.nodes, timeshiftDir, s) :: index == Select(s, now - timeshiftDelay * 60, duration)
      // in times and indexes: nothing when no chunk ended within (D, D + 2d), else the first that did or its predecessor
      ensures forall s: seq<File> | Lists(disk.nodes, timeshiftDir, s) ::
                index == None <==> forall f | f in s ::
                                     !(now - timeshiftDelay * 60 < f.mtime < now - timeshiftDelay * 60 + 2 * duration)
      ensures forall s: seq<File>, k: nat | Lists(disk.nodes, timeshiftDir, s)
                                 && FirstEnded(s, now - timeshiftDelay * 60, duration, k) ::
                index == if s[k].mtime < now - timeshiftDelay * 60 + duration && k > 0 then Some(Index(s[k - 1]))
                         else Some(Index(s[k]))
    {
      hide Lists, IsScan, ScanFolder, Select, StrictlySorted, IsChunk, InWindow, FirstEnded;
      var files := Scan();
      index := Timeshift.FindChunkToPlay(files, now, timeshiftDelay, duration);
      var desired := now - timeshiftDelay * 60;
      forall s: seq<File> | Lists(disk.nodes, timeshiftDir, s) ensures AllChunks(s) && index == Select(s, desired, duration) {
        ListedSorted(disk.nodes, timeshiftDir, s);
        ghost var a :| IsSortOf(a, ScanFolder(files)) && index == Select(a, desired, duration);
        SortIsListing(disk.nodes, timeshiftDir, files, a, s);
      }
      forall s: seq<File> | Lists(disk.nodes, timeshiftDir, s)
        ensures StrictlySorted(s) && AllChunks(s) && Plays(s, desired, duration, index)
      {
        ListedSorted(disk.nodes, timeshiftDir, s);
        SelectPlays(s, desired, duration);
      }
      forall s: seq<File>, k: nat | Lists(disk.nodes, timeshiftDir, s) && FirstEnded(s, desired, duration, k)
        ensures k < |s| && IsChunk(s[k]) && (k > 0 ==> IsChunk(s[k - 1]))
        ensures index == if s[k].mtime < desired + duration && k > 0 then Some(Index(s[k - 1])) else Some(Index(s[k]))
      {
        InListing(s, desired, duration, k);
        PlaysListed(s, desired, duration, index, k);
      }
    }

    /** On a regular recording that reaches around the instant, the chunk found ended at most one duration away. */
    method FindNearChunk(duration: int, now: int, ghost s: seq<File>) returns (index: Option<nat>)
      requires Lists(disk.nodes, timeshiftDir, s) && MonotoneTimes(s) && GapsAtMost(s, duration)
      requires s != [] && s[0].mtime <= now - timeshiftDelay * 60 < s[|s| - 1].mtime
      ensures exists f | f in s && index == Some(Index(f)) :: -duration <= f.mtime - (now - timeshiftDelay * 60) <= duration
    {
      ListedSorted(disk.nodes, timeshiftDir, s);
      hide Lists, Select, FirstEnded, StrictlySorted, MonotoneTimes, GapsAtMost, IsChunk, Index;
      index := FindChunkToPlay(duration, now);
      SelectIsNear(s, now - timeshiftDelay * 60, duration);
    }

    /** The player looks, the daemon's timer cleans up root, the player looks again, all at one second. */
    method LookAcrossCleanup(duration: int, now: int, root: Path, filesTtl: int, ghost s: seq<File>, ghost depth: nat)
      returns (before: Option<nat>, after: Option<nat>)
      requires Lists(disk.nodes, timeshiftDir, s)
      requires |root| <= depth && forall q | q in disk.nodes :: |q| <= depth
      modifies disk
      ensures disk.nodes == Swept(old(disk.nodes), root, now - filesTtl, true)
      ensures var gone := Gone(old(disk.nodes), root, now - filesTtl, timeshiftDir, s);
              var desired := now - timeshiftDelay * 60;
              // a lifetime that reaches back to the instant
              && (filesTtl >= timeshiftDelay * 60 ==> (after == before <==> !LosesPrevious(s, gone, desired, duration)))
              // any lifetime, for a recording the cleanup takes the oldest of
              && (MonotoneTimes(s) && AllRemovable(old(disk.nodes), root, timeshiftDir, s) ==>
                    (after == before <==> !ChosenGone(s, gone, desired, duration)))
              // a regular recording and a lifetime of the delay and one chunk
              && (MonotoneTimes(s) && GapsAtMost(s, duration) && filesTtl >= timeshiftDelay * 60 + duration ==>
                    after == before)
    {
      hide Lists, Swept, Gone, Kept, Select, LosesPrevious, ChosenGone, StrictlySorted, IsChunk, AllChunks, MonotoneTimes,
        GapsAtMost, AllRemovable;
      ListedSorted(disk.nodes, timeshiftDir, s);
      ghost var t := disk.nodes;
      ghost var gone := Gone(t, root, now - filesTtl, timeshiftDir, s);
      before := FindChunkToPlay(duration, now);
      disk.RemoveOldFilesByTime(root, now - filesTtl, true, depth);
      ListingAfterSweep(t, root, now - filesTtl, timeshiftDir, s);
      after := FindChunkToPlay(duration, now);
      ListedSorted(disk.nodes, timeshiftDir, Kept(s, gone));
      if filesTtl >= timeshiftDelay * 60 {
        CleanupIff(t, root, timeshiftDir, s, gone, now, filesTtl, timeshiftDelay, duration);
      }
      if MonotoneTimes(s) && AllRemovable(t, root, timeshiftDir, s) {
        CleanupOldestIff(t, root, timeshiftDir, s, gone, now, filesTtl, timeshiftDelay, duration);
      }
      if MonotoneTimes(s) && GapsAtMost(s, duration) && filesTtl >= timeshiftDelay * 60 + duration {
        CleanupKeepsSelection(t, root, timeshiftDir, s, gone, now, filesTtl, timeshiftDelay, duration);
      }
    }
  }

  /** The same chunk is played from both listings. */
  predicate SameAnswer(s: seq<File>, s': seq<File>, desired: int, duration: int) {
    AllChunks(s) && AllChunks(s') && Select(s', desired, duration) == Select(s, desired, duration)
  }

  /** For a lifetime that reaches back to the instant the answer is the same exactly when the wanted predecessor is not
      swept. */
  lemma CleanupIff(t: Tree, root: Path, dir: Path, s: seq<File>, gone: set<File>, now: int, filesTtl: int, delay: int,
                   duration: int)
    requires Lists(t, dir, s) && filesTtl >= delay * 60 && gone == Gone(t, root, now - filesTtl, dir, s)
    ensures SameAnswer(s, Kept(s, gone), now - delay * 60, duration)
            <==> !LosesPrevious(s, gone, now - delay * 60, duration)
  {
    hide *;
    GoneIsOld(t, root, now - filesTtl, dir, s);
    ListedSorted(t, dir, s);
    RemovalIff(s, gone, now - delay * 60, duration);
  }

  lemma RemovalIff(s: seq<File>, gone: set<File>, desired: int, duration: int)
    requires StrictlySorted(s) && forall f | f in gone :: f.mtime <= desired
    ensures SameAnswer(s, Kept(s, gone), desired, duration) <==> !LosesPrevious(s, gone, desired, duration)
  {
    SelectAfterRemoval(s, gone, desired, duration);
    SortedAreChunks(Kept(s, gone));
    hide Select, LosesPrevious, IsChunk, StrictlySorted, Kept;
  }

  /** For any lifetime, when the cleanup takes the oldest chunks: exactly when the chunk to be played is not swept. */
  lemma CleanupOldestIff(t: Tree, root: Path, dir: Path, s: seq<File>, gone: set<File>, now: int, filesTtl: int,
                         delay: int, duration: int)
    requires Lists(t, dir, s) && MonotoneTimes(s) && AllRemovable(t, root, dir, s)
    requires gone == Gone(t, root, now - filesTtl, dir, s)
    ensures SameAnswer(s, Kept(s, gone), now - delay * 60, duration)
            <==> !ChosenGone(s, gone, now - delay * 60, duration)
  {
    hide *;
    SweepsOldestFirst(t, root, now - filesTtl, dir, s);
    ListedSorted(t, dir, s);
    OldestIff(s, gone, now - delay * 60, duration);
  }

  lemma OldestIff(s: seq<File>, gone: set<File>, desired: int, duration: int)
    requires StrictlySorted(s) && OldestFirst(s, gone)
    ensures SameAnswer(s, Kept(s, gone), desired, duration) <==> !ChosenGone(s, gone, desired, duration)
  {
    SelectAfterOldestIff(s, gone, desired, duration);
    SortedAreChunks(Kept(s, gone));
    hide Select, ChosenGone, IsChunk, StrictlySorted, Kept, OldestFirst;
  }

  /** With a lifetime of at least the delay and one chunk, a regular recording plays on as if nothing was removed. */
  lemma CleanupKeepsSelection(t: Tree, root: Path, dir: Path, s: seq<File>, gone: set<File>, now: int, filesTtl: int,
                              delay: int, duration: int)
    requires Lists(t, dir, s) && MonotoneTimes(s) && GapsAtMost(s, duration) && filesTtl >= delay * 60 + duration
    requires gone == Gone(t, root, now - filesTtl, dir, s)
    ensures SameAnswer(s, Kept(s, gone), now - delay * 60, duration)
  {
    hide *;
    GoneIsOld(t, root, now - filesTtl, dir, s);
    ListedSorted(t, dir, s);
    LongLifeKeeps(s, gone, now - filesTtl, now - delay * 60, duration);
  }

  lemma GoneIsOld(t: Tree, root: Path, cutoff: int, dir: Path, s: seq<File>)
    requires Lists(t, dir, s)
    ensures forall f | f in Gone(t, root, cutoff, dir, s) :: f.mtime < cutoff
  {
    forall f | f in Gone(t, root, cutoff, dir, s) ensures f.mtime < cutoff {
      assert FileOf(t, dir, f.name) == Some(f);
    }
  }

  lemma InListing(s: seq<File>, desired: int, duration: int, k: nat)
    requires AllChunks(s) && FirstEnded(s, desired, duration, k)
    ensures k < |s| && IsChunk(s[k]) && (k > 0 ==> IsChunk(s[k - 1]))
  {
  }

  lemma ListedSorted(t: Tree, dir: Path, s: seq<File>)
    requires Lists(t, dir, s)
    ensures StrictlySorted(s) && AllChunks(s)
  {
  }

  /** A lifetime of the delay and one chunk, also for a duration below zero. */
  lemma LongLifeKeeps(s: seq<File>, gone: set<File>, cutoff: int, desired: int, duration: int)
    requires StrictlySorted(s) && MonotoneTimes(s) && GapsAtMost(s, duration)
    requires cutoff <= desired - duration && forall f | f in gone :: f.mtime < cutoff
    ensures SameAnswer(s, Kept(s, gone), desired, duration)
  {
    if duration >= 0 {
      SortedAreChunks(s);
      LongLifeKeepsPrevious(s, gone, cutoff, desired, duration);
      RemovalIff(s, gone, desired, duration);
    } else {
      KeptStrictlySorted(s, gone);
    }
  }

  /** A folder with a recording that stopped for a while. */
  const GAP_TREE: Tree := map[[] := DirNode(true), ["1.ts"] := FileNode(Some(0), true),
                              ["2.ts"] := FileNode(Some(200), true)]
  const GAP_LISTING := [File("1.ts", 0), File("2.ts", 200)]

  lemma GapIndexes()
    ensures ChunkIndex("1.ts") == Some(1) && ChunkIndex("2.ts") == Some(2)
  {
    assert "1.ts"[..1] == Show(1) && "2.ts"[..1] == Show(2);
    assert "1.ts"[1..] == CHUNK_EXT && "2.ts"[1..] == CHUNK_EXT;
    ParseShow(1, UINT64_LIMIT);
    ParseShow(2, UINT64_LIMIT);
  }

  lemma GapListed()
    ensures Lists(GAP_TREE, [], GAP_LISTING)
  {
    var t, s := GAP_TREE, GAP_LISTING;
    GapIndexes();
    assert forall name: string :: [] + [name] == [name] && [name][0] == name;
    assert s[0] in s && s[1] in s;
    forall name | [name] in t && t[[name]].FileNode? ensures FileOf(t, [], name).Some? && FileOf(t, [], name).value in s {
      assert [name][0] == "1.ts" || [name][0] == "2.ts";
    }
  }

  lemma GapSwept(cutoff: int)
    requires 0 < cutoff <= 200
    ensures Lists(Swept(GAP_TREE, [], cutoff, true), [], GAP_LISTING[1..])
  {
    var t, s := Swept(GAP_TREE, [], cutoff, true), GAP_LISTING[1..];
    GapIndexes();
    assert s == [File("2.ts", 200)] && s[0] in s;
    assert forall name: string :: [] + [name] == [name] && [name][0] == name;
    assert ["1.ts"][..0] == [];
    assert Doomed(GAP_TREE, [], cutoff, true, ["1.ts"]) && !Doomed(GAP_TREE, [], cutoff, true, ["2.ts"]);
    forall name | [name] in t && t[[name]].FileNode? ensures FileOf(t, [], name) == Some(s[0]) {
      assert [name][0] == "2.ts";
    }
  }

  /** Without the bound on the gaps, a lifetime of the delay plus one chunk is not enough: at second 210, with a delay of
      a minute and chunks of a minute, the cleanup takes the chunk that would have been played. */
  lemma GapLosesSelection()
    ensures var now, delay, duration := 210, 1, 60;
            var filesTtl := delay * 60 + duration;
            var s, s' := GAP_LISTING, GAP_LISTING[1..];
            && Lists(GAP_TREE, [], s) && Lists(Swept(GAP_TREE, [], now - filesTtl, true), [], s') && MonotoneTimes(s)
            && Select(s, now - delay * 60, duration) == Some(1) && Select(s', now - delay * 60, duration) == Some(2)
  {
    GapListed();
    GapSwept(90);
    GapIndexes();
    var s := GAP_LISTING;
    assert s[1..] == [File("2.ts", 200)];
    hide Lists, Swept, ChunkIndex;
    assert FirstInWindow(s, 150, 60) == 1;
    assert FirstInWindow(s[1..], 150, 60) == 0;
  }
}
