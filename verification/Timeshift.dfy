/** Choosing the recorded chunk to play, and what the age cleanup does to that choice. */
module Timeshift {
  import opened Wrappers
  import opened Decimal
  import opened Names
  import opened FileTree
  import opened Sequences

  const INVALID_CHUNK_INDEX: nat := UINT64_LIMIT - 1

  /** A file as a scan sees it; when the time cannot be read, mtime is whatever the variable held. */
  datatype File = File(name: string, mtime: int)

  /** The number a chunk file is named by: "17.ts" is 17. */
  function ChunkIndex(name: string): Option<nat> {
    if EndsWith(name, CHUNK_EXT) then Parse(name[..|name| - |CHUNK_EXT|], UINT64_LIMIT) else None
  }

  /** Exactly the names of plain digits and ".ts" whose number fits have an index. */
  lemma ChunkIndexIff(name: string, i: nat)
    ensures ChunkIndex(name) == Some(i) <==>
            i < 0x1_0000_0000_0000_0000 && exists g :: name == g + ".ts" && g != "" && AllDigits(g) && Value(g) == i
  {
    hide Value;
    if ChunkIndex(name) == Some(i) {
      var g := name[..|name| - 3];
      assert name == g + ".ts";
    }
    if i < 0x1_0000_0000_0000_0000 && exists g :: name == g + ".ts" && g != "" && AllDigits(g) && Value(g) == i {
      var g :| name == g + ".ts" && g != "" && AllDigits(g) && Value(g) == i;
      assert name[..|name| - 3] == g && name[|name| - 3..] == ".ts";
    }
  }

  predicate IsChunk(f: File) {
    ChunkIndex(f.name).Some?
  }

  function Index(f: File): (i: nat)
    requires IsChunk(f)
    ensures i < UINT64_LIMIT
  {
    ChunkIndex(f.name).value
  }

  lemma IndexOfChunk(f: File)
    requires IsChunk(f)
    ensures ChunkIndex(f.name) == Some(Index(f)) && Index(f) < UINT64_LIMIT
  {
  }

  predicate AllChunks(s: seq<File>) {
    forall i | 0 <= i < |s| :: IsChunk(s[i])
  }

  function ScanFolder(files: seq<File>): (s: seq<File>)
    ensures AllChunks(s)
    ensures forall f :: f in s <==> f in files && IsChunk(f)
  {
    if files == [] then []
    else (if IsChunk(files[0]) then [files[0]] else []) + ScanFolder(files[1..])
  }

  /** compare_files orders by index. */
  predicate Sorted(s: seq<File>) {
    AllChunks(s) && forall i, j | 0 <= i < j < |s| :: Index(s[i]) <= Index(s[j])
  }

  predicate StrictlySorted(s: seq<File>) {
    AllChunks(s) && forall i, j | 0 <= i < j < |s| :: Index(s[i]) < Index(s[j])
  }

  predicate IsSortOf(s: seq<File>, files: seq<File>) {
    Sorted(s) && multiset(s) == multiset(files)
  }

  lemma {:induction false} InsertInto(s: seq<File>, f: File) returns (r: seq<File>)
    requires Sorted(s) && IsChunk(f)
    ensures Sorted(r) && multiset(r) == multiset(s) + multiset{f}
  {
    hide IsChunk, Index;
    if s == [] || Index(f) <= Index(s[0]) {
      r := [f] + s;
    } else {
      var t := InsertInto(s[1..], f);
      r := [s[0]] + t;
      assert s == [s[0]] + s[1..];
      FirstStays(s, t, f);
    }
  }

  lemma FirstStays(s: seq<File>, t: seq<File>, f: File)
    requires s != [] && Sorted(s) && Sorted(t) && IsChunk(f) && Index(s[0]) < Index(f)
    requires multiset(t) == multiset(s[1..]) + multiset{f}
    ensures Sorted([s[0]] + t)
  {
    hide IsChunk, Index;
    forall j | 0 <= j < |t| ensures Index(s[0]) <= Index(t[j]) {
      assert t[j] in multiset(t);
      assert t[j] in s[1..] || t[j] == f;
    }
  }

  lemma {:induction false} SortExists(files: seq<File>)
    requires AllChunks(files)
    ensures exists s :: IsSortOf(s, files)
  {
    if files == [] {
      assert IsSortOf([], files);
    } else {
      SortExists(files[1..]);
      var t :| IsSortOf(t, files[1..]);
      var s := InsertInto(t, files[0]);
      assert files == [files[0]] + files[1..];
      assert IsSortOf(s, files);
    }
  }

  lemma SortKeepsElements(s: seq<File>, files: seq<File>)
    requires IsSortOf(s, files)
    ensures forall f :: f in s <==> f in files
  {
    forall f ensures f in s <==> f in files {
      assert f in s <==> f in multiset(s);
      assert f in files <==> f in multiset(files);
    }
  }

  // The scan

  /** The chunk was finished within (D, D + 2d). */
  predicate InWindow(f: File, desired: int, duration: int) {
    desired < f.mtime < desired + 2 * duration
  }

  function FirstInWindow(s: seq<File>, desired: int, duration: int): (k: nat)
    ensures k <= |s| && (k < |s| ==> InWindow(s[k], desired, duration))
    ensures forall i | 0 <= i < k :: !InWindow(s[i], desired, duration)
  {
    if s == [] || InWindow(s[0], desired, duration) then 0 else 1 + FirstInWindow(s[1..], desired, duration)
  }

  /** The predecessor is preferred while the chunk in the window ends before D + d. */
  predicate TakesPrevious(s: seq<File>, k: nat, desired: int, duration: int)
    requires AllChunks(s) && k < |s|
  {
    k > 0 && Index(s[k - 1]) != INVALID_CHUNK_INDEX && s[k].mtime < desired + duration
  }

  function Select(s: seq<File>, desired: int, duration: int): Option<nat>
    requires AllChunks(s)
  {
    var k := FirstInWindow(s, desired, duration);
    if k == |s| then None
    else if TakesPrevious(s, k, desired, duration) then Some(Index(s[k - 1]))
    else Some(Index(s[k]))
  }

  /** What the scan finds at its first hit, and when there is none. */
  lemma SelectAt(s: seq<File>, k: nat, desired: int, duration: int)
    requires AllChunks(s) && k <= |s| && (k < |s| ==> InWindow(s[k], desired, duration))
    requires forall j | 0 <= j < k :: !InWindow(s[j], desired, duration)
    ensures Select(s, desired, duration) ==
            if k == |s| then None
            else if TakesPrevious(s, k, desired, duration) then Some(Index(s[k - 1]))
            else Some(Index(s[k]))
  {
    FirstInWindowUnique(s, desired, duration, k);
    hide FirstInWindow, InWindow, IsChunk, Index;
  }

  // The same in times and indexes only

  /** The first chunk of the listing that ended within (D, D + 2d). */
  predicate FirstEnded(s: seq<File>, desired: int, duration: int, k: nat) {
    && k < |s| && desired < s[k].mtime < desired + 2 * duration
    && forall j | 0 <= j < k :: !(desired < s[j].mtime < desired + 2 * duration)
  }

  /** Nothing when no chunk ended within (D, D + 2d). Else the first that did, k: itself if it ended at or after D + d,
      and its predecessor, if it has one, when it ended before; a predecessor with the greatest index there is does not
      count. */
  ghost predicate Plays(s: seq<File>, desired: int, duration: int, index: Option<nat>)
    requires AllChunks(s)
  {
    && (index == None <==> forall f | f in s :: !(desired < f.mtime < desired + 2 * duration))
    && forall k: nat {:trigger FirstEnded(s, desired, duration, k)} | FirstEnded(s, desired, duration, k) ::
         index == if s[k].mtime < desired + duration && k > 0 && Index(s[k - 1]) != 0xffff_ffff_ffff_ffff
                  then Some(Index(s[k - 1])) else Some(Index(s[k]))
  }

  lemma SelectPlays(s: seq<File>, desired: int, duration: int)
    requires AllChunks(s)
    ensures Plays(s, desired, duration, Select(s, desired, duration))
  {
    hide FirstInWindow, IsChunk, Index;
    var index := Select(s, desired, duration);
    var m := FirstInWindow(s, desired, duration);
    forall k: nat | FirstEnded(s, desired, duration, k) ensures k == m {
      FirstInWindowUnique(s, desired, duration, k);
    }
    if m < |s| {
      assert s[m] in s;
    }
  }

  /** In a listing without repeated indexes every predecessor counts. */
  lemma PlaysListed(s: seq<File>, desired: int, duration: int, index: Option<nat>, k: nat)
    requires StrictlySorted(s) && Plays(s, desired, duration, index) && FirstEnded(s, desired, duration, k)
    ensures s[k].mtime >= desired + duration || k == 0 ==> index == Some(Index(s[k]))
    ensures s[k].mtime < desired + duration && k > 0 ==> index == Some(Index(s[k - 1]))
  {
    if k > 0 {
      IndexesApart(s, k - 1, k);
    }
    hide IsChunk, Index;
  }

  lemma FirstInWindowUnique(s: seq<File>, desired: int, duration: int, k: nat)
    requires k <= |s| && (k < |s| ==> InWindow(s[k], desired, duration))
    requires forall i | 0 <= i < k :: !InWindow(s[i], desired, duration)
    ensures FirstInWindow(s, desired, duration) == k
  {
    hide FirstInWindow, InWindow;
    var m := FirstInWindow(s, desired, duration);
  }

  /** What a selection means for the folder: nothing exactly when no chunk is in the window, and else a file's index. */
  lemma SelectMeans(files: seq<File>, s: seq<File>, desired: int, duration: int)
    requires IsSortOf(s, ScanFolder(files))
    ensures var index := Select(s, desired, duration);
            && (index == None <==> forall f | f in files && IsChunk(f) :: !InWindow(f, desired, duration))
            && (index.Some? ==> exists f :: f in files && ChunkIndex(f.name) == index)
  {
    SortKeepsElements(s, ScanFolder(files));
    SortedChunks(s);
    hide IsChunk, Index, ScanFolder, FirstInWindow, InWindow, Sorted;
    var k := FirstInWindow(s, desired, duration);
    if k < |s| {
      var c := if TakesPrevious(s, k, desired, duration) then k - 1 else k;
      IndexOfChunk(s[c]);
      assert s[k] in s && s[k] in files && s[c] in s && s[c] in files;
    }
  }

  lemma SortedChunks(s: seq<File>)
    requires Sorted(s)
    ensures AllChunks(s) && forall f | f in s :: IsChunk(f)
  {
  }

  /** FindChunkToPlay at the given second: files is the folder's listing in any order, the delay is in minutes. */
  method FindChunkToPlay(files: seq<File>, now: int, delay: int, duration: int) returns (index: Option<nat>)
    ensures exists s :: IsSortOf(s, ScanFolder(files)) && index == Select(s, now - delay * 60, duration)
                        && Plays(s, now - delay * 60, duration, index)
    ensures index == None <==> forall f | f in files && IsChunk(f) :: !InWindow(f, now - delay * 60, duration)
    ensures index.Some? ==> exists f :: f in files && ChunkIndex(f.name) == index
  {
    hide IsChunk, Index, ScanFolder, Select, FirstInWindow, IsSortOf, ChunkIndex, AllChunks;
    var desired := now - delay * 60;
    var found := ScanFolder(files);
    SortExists(found);
    var s: seq<File> :| IsSortOf(s, found);
    SortOfSorted(s, found);
    SelectMeans(files, s, desired, duration);
    SelectPlays(s, desired, duration);
    hide Plays;
    var prevIndex := INVALID_CHUNK_INDEX;
    index := None;
    for i := 0 to |s|
      invariant forall j | 0 <= j < i :: !InWindow(s[j], desired, duration)
      invariant prevIndex == if i == 0 then INVALID_CHUNK_INDEX else Index(s[i - 1])
      invariant index == None
    {
      var diff := desired - s[i].mtime + duration;
      if -duration < diff < duration {
        SelectAt(s, i, desired, duration);
        if diff > 0 && prevIndex != INVALID_CHUNK_INDEX {
          index := Some(prevIndex);
        } else {
          index := Some(Index(s[i]));
        }
        return;
      }
      prevIndex := Index(s[i]);
    }
    SelectAt(s, |s|, desired, duration);
  }

  lemma SortOfSorted(s: seq<File>, files: seq<File>)
    requires IsSortOf(s, files)
    ensures AllChunks(s) && forall i | 0 <= i < |s| :: IsChunk(s[i])
  {
  }

  /** The chunk has the greatest index of the folder. */
  ghost predicate IsLast(f: File, files: seq<File>) {
    f in files && IsChunk(f) && forall g | g in files && IsChunk(g) :: Index(g) <= Index(f)
  }

  lemma LastIsGreatest(s: seq<File>, f: File)
    requires Sorted(s) && f in s
    ensures IsChunk(f) && IsChunk(s[|s| - 1]) && Index(f) <= Index(s[|s| - 1])
  {
    hide IsChunk, Index;
  }

  lemma LastOfSorted(s: seq<File>, files: seq<File>)
    requires IsSortOf(s, ScanFolder(files)) && ScanFolder(files) != []
    ensures s != [] && IsLast(s[|s| - 1], files)
  {
    hide IsChunk, Index, ScanFolder, Sorted;
    var found := ScanFolder(files);
    SortKeepsElements(s, found);
    assert found[0] in s;
    var last := s[|s| - 1];
    assert last in s && last in found;
    forall g | g in files && IsChunk(g) ensures Index(g) <= Index(last) {
      assert g in found;
      LastIsGreatest(s, g);
    }
  }

  /** FindLastChunk: the index and the time of a last chunk, unless its time cannot be read. */
  method FindLastChunk(files: seq<File>, unreadable: set<string>) returns (last: Option<(nat, int)>)
    ensures last.Some? ==>
              exists f :: IsLast(f, files) && f.name !in unreadable && Index(f) == last.value.0 && f.mtime == last.value.1
    ensures last == None ==> (forall f | f in files :: !IsChunk(f)) || exists f :: IsLast(f, files) && f.name in unreadable
  {
    var found := ScanFolder(files);
    if found == [] {
      return None;
    }
    hide *;
    SortExists(found);
    var s: seq<File> :| IsSortOf(s, found);
    LastOfSorted(s, files);
    var f := s[|s| - 1];
    if f.name in unreadable {
      return None;
    }
    last := Some((Index(f), f.mtime));
  }

  // The chosen chunk is near the desired instant

  predicate MonotoneTimes(s: seq<File>) {
    forall i, j | 0 <= i < j < |s| :: s[i].mtime <= s[j].mtime
  }

  predicate GapsAtMost(s: seq<File>, duration: int) {
    forall i | 0 < i < |s| :: s[i].mtime - s[i - 1].mtime <= duration
  }

  lemma {:induction false} FirstAfter(s: seq<File>, desired: int, k: nat) returns (m: nat)
    requires MonotoneTimes(s) && k < |s| && s[k].mtime > desired && s[0].mtime <= desired
    ensures 0 < m <= k && s[m].mtime > desired && s[m - 1].mtime <= desired
  {
    if s[k - 1].mtime <= desired {
      m := k;
    } else {
      m := FirstAfter(s, desired, k - 1);
    }
  }

  /** With chunks recorded one after another, the choice ended at most one duration away from the instant. */
  lemma SelectIsNear(s: seq<File>, desired: int, duration: int)
    requires StrictlySorted(s) && MonotoneTimes(s) && GapsAtMost(s, duration)
    requires s != [] && s[0].mtime <= desired < s[|s| - 1].mtime
    ensures exists i | 0 <= i < |s| ::
              Select(s, desired, duration) == Some(Index(s[i])) && -duration <= s[i].mtime - desired <= duration
  {
    var m := FirstAfter(s, desired, |s| - 1);
    assert s[m].mtime - s[m - 1].mtime <= duration;
    assert InWindow(s[m], desired, duration);
    var k := FirstInWindow(s, desired, duration);
    assert k == m;
    assert Index(s[k - 1]) < Index(s[k]);
    assert Select(s, desired, duration) == Some(Index(s[k - 1])) || Select(s, desired, duration) == Some(Index(s[k]));
  }

  // The choice survives the cleanup

  lemma HasFirst(b: seq<File>)
    ensures b != [] ==> exists f :: f in b
  {
    if b != [] {
      assert b[0] in b;
    }
  }

  /** The listing without the files that are gone. */
  function Kept(s: seq<File>, gone: set<File>): seq<File> {
    if s == [] then [] else (if s[0] in gone then [] else [s[0]]) + Kept(s[1..], gone)
  }

  lemma {:induction false} KeptMembers(s: seq<File>, gone: set<File>)
    ensures forall f :: f in Kept(s, gone) <==> f in s && f !in gone
  {
    if s != [] {
      KeptMembers(s[1..], gone);
      assert s == [s[0]] + s[1..];
    }
  }

  lemma KeptCons(s: seq<File>, gone: set<File>)
    requires s != []
    ensures Kept(s, gone) == (if s[0] in gone then [] else [s[0]]) + Kept(s[1..], gone)
  {
  }

  lemma {:induction false} KeptConcat(a: seq<File>, b: seq<File>, gone: set<File>)
    ensures Kept(a + b, gone) == Kept(a, gone) + Kept(b, gone)
  {
    if a == [] {
      assert a + b == b;
    } else {
      hide Kept;
      KeptConcat(a[1..], b, gone);
      assert (a + b)[1..] == a[1..] + b && (a + b)[0] == a[0];
      KeptCons(a + b, gone);
      KeptCons(a, gone);
      Reassociate(if a[0] in gone then [] else [a[0]], Kept(a[1..], gone), Kept(b, gone));
    }
  }

  lemma {:induction false} KeptStrictlySorted(s: seq<File>, gone: set<File>)
    requires StrictlySorted(s)
    ensures StrictlySorted(Kept(s, gone))
  {
    hide IsChunk, Index;
    if s != [] {
      KeptStrictlySorted(s[1..], gone);
      KeptMembers(s[1..], gone);
      forall f | f in Kept(s[1..], gone) ensures Index(s[0]) < Index(f) {
      }
    }
  }

  /** The one way the answer can change: the predecessor it wants to play was removed. */
  predicate LosesPrevious(s: seq<File>, gone: set<File>, desired: int, duration: int)
    requires AllChunks(s)
  {
    var k := FirstInWindow(s, desired, duration);
    k < |s| && TakesPrevious(s, k, desired, duration) && s[k - 1] in gone
  }

  lemma KeptSplit(s: seq<File>, gone: set<File>, k: nat)
    requires k < |s| && s[k] !in gone
    ensures Kept(s, gone) == Kept(s[..k], gone) + [s[k]] + Kept(s[k + 1..], gone)
  {
    assert s == s[..k] + s[k..] && s[k..] == [s[k]] + s[k + 1..];
    KeptConcat(s[..k], s[k..], gone);
    assert s[k..][1..] == s[k + 1..];
  }

  lemma KeptFirstInWindow(s: seq<File>, gone: set<File>, desired: int, duration: int)
    requires forall f | f in gone :: f.mtime <= desired
    ensures var k := FirstInWindow(s, desired, duration);
            FirstInWindow(Kept(s, gone), desired, duration) == |Kept(s[..k], gone)|
    ensures var k := FirstInWindow(s, desired, duration);
            k < |s| ==> Kept(s, gone) == Kept(s[..k], gone) + [s[k]] + Kept(s[k + 1..], gone)
  {
    hide FirstInWindow, Kept;
    var k := FirstInWindow(s, desired, duration);
    var before := Kept(s[..k], gone);
    KeptMembers(s[..k], gone);
    assert forall f | f in before :: !InWindow(f, desired, duration);
    if k < |s| {
      KeptSplit(s, gone, k);
    } else {
      assert s[..k] == s;
    }
    FirstInWindowUnique(Kept(s, gone), desired, duration, |before|);
  }

  lemma KeptPrevious(s: seq<File>, gone: set<File>, k: nat)
    requires 0 < k <= |s|
    ensures s[k - 1] !in gone ==> Kept(s[..k], gone) != [] && Kept(s[..k], gone)[|Kept(s[..k], gone)| - 1] == s[k - 1]
    ensures s[k - 1] in gone ==> s[k - 1] !in Kept(s[..k], gone)
  {
    assert s[..k] == s[..k - 1] + [s[k - 1]];
    KeptConcat(s[..k - 1], [s[k - 1]], gone);
    KeptMembers(s[..k], gone);
  }

  lemma SortedAreChunks(s: seq<File>)
    requires StrictlySorted(s)
    ensures AllChunks(s) && forall i | 0 <= i < |s| :: IsChunk(s[i])
  {
  }

  lemma IndexesApart(s: seq<File>, i: nat, j: nat)
    requires StrictlySorted(s) && i < j < |s|
    ensures IsChunk(s[i]) && IsChunk(s[j]) && Index(s[i]) < Index(s[j]) < UINT64_LIMIT
  {
  }

  /** Removing files older than the desired instant leaves the answer alone exactly when the wanted predecessor stays. */
  lemma SelectAfterRemoval(s: seq<File>, gone: set<File>, desired: int, duration: int)
    requires StrictlySorted(s) && forall f | f in gone :: f.mtime <= desired
    ensures StrictlySorted(Kept(s, gone))
    ensures Select(Kept(s, gone), desired, duration) == Select(s, desired, duration)
            <==> !LosesPrevious(s, gone, desired, duration)
  {
    hide FirstInWindow, Kept, IsChunk, Index, InWindow, StrictlySorted, AllChunks;
    KeptStrictlySorted(s, gone);
    SortedAreChunks(s);
    SortedAreChunks(Kept(s, gone));
    var k := FirstInWindow(s, desired, duration);
    KeptFirstInWindow(s, gone, desired, duration);
    if k == |s| {
      assert s[..k] == s;
      return;
    }
    var before, r := Kept(s[..k], gone), Kept(s, gone);
    var m := |before|;
    KeptMembers(s[..k], gone);
    assert r[m] == s[k];
    if k == 0 {
      assert before == [] by { assert forall f :: f !in before; HasFirst(before); }
      return;
    }
    KeptPrevious(s, gone, k);
    IndexesApart(s, k - 1, k);
    if m > 0 {
      assert r[m - 1] == before[m - 1] && before[m - 1] in s[..k];
      var j :| 0 <= j < k && s[j] == before[m - 1];
      IndexesApart(s, j, k);
      if j < k - 1 {
        IndexesApart(s, j, k - 1);
      }
      assert TakesPrevious(r, m, desired, duration) <==> TakesPrevious(s, k, desired, duration);
    }
  }

  /** Recording in step with the clock, a lifetime of the delay plus one chunk is enough to keep the predecessor. */
  lemma LongLifeKeepsPrevious(s: seq<File>, gone: set<File>, cutoff: int, desired: int, duration: int)
    requires AllChunks(s) && MonotoneTimes(s) && GapsAtMost(s, duration)
    requires cutoff <= desired - duration && forall f | f in gone :: f.mtime < cutoff
    ensures !LosesPrevious(s, gone, desired, duration)
  {
  }

  // Any prefix of a listing may go

  /** With a file every file of a lower index is gone. */
  predicate OldestFirst(s: seq<File>, gone: set<File>) {
    forall i, j | 0 <= i < j < |s| :: s[j] in gone ==> s[i] in gone
  }

  /** The file that is played is gone. */
  ghost predicate ChosenGone(s: seq<File>, gone: set<File>, desired: int, duration: int)
    requires AllChunks(s)
  {
    exists f | f in s && f in gone :: Select(s, desired, duration) == Some(Index(f))
  }

  lemma {:induction false} KeptSuffix(s: seq<File>, gone: set<File>) returns (p: nat)
    requires OldestFirst(s, gone)
    ensures p <= |s| && Kept(s, gone) == s[p..]
    ensures (forall i | 0 <= i < p :: s[i] in gone) && forall i | p <= i < |s| :: s[i] !in gone
  {
    if s == [] || s[0] !in gone {
      p := 0;
      KeptAll(s, gone);
    } else {
      var q := KeptSuffix(s[1..], gone);
      p := q + 1;
      assert s[1..][q..] == s[p..] && [] + s[p..] == s[p..];
      assert forall i | 0 < i < |s| :: s[i] == s[1..][i - 1];
    }
  }

  lemma {:induction false} KeptAll(s: seq<File>, gone: set<File>)
    requires forall i | 0 <= i < |s| :: s[i] !in gone
    ensures Kept(s, gone) == s
  {
    if s != [] {
      KeptAll(s[1..], gone);
      assert s == [s[0]] + s[1..];
    }
  }

  /** The scan of a suffix that still holds the first chunk of the window. */
  lemma SuffixFirst(s: seq<File>, p: nat, desired: int, duration: int)
    requires p <= FirstInWindow(s, desired, duration)
    ensures p <= |s| && FirstInWindow(s[p..], desired, duration) == FirstInWindow(s, desired, duration) - p
  {
    var k := FirstInWindow(s, desired, duration);
    FirstInWindowUnique(s[p..], desired, duration, k - p);
  }

  /** What is played has one of the indexes in the listing. */
  lemma SelectIsListed(s: seq<File>, desired: int, duration: int)
    requires AllChunks(s)
    ensures Select(s, desired, duration).Some? ==>
              exists i | 0 <= i < |s| :: Select(s, desired, duration) == Some(Index(s[i]))
  {
    hide FirstInWindow, Index, IsChunk;
    var k := FirstInWindow(s, desired, duration);
    assert k < |s| && k > 0 ==> Index(s[k - 1]) == Index(s[k - 1]);
  }

  /** Removing the oldest files changes the answer exactly when the file that would be played is among them. */
  lemma SelectAfterOldestIff(s: seq<File>, gone: set<File>, desired: int, duration: int)
    requires StrictlySorted(s) && OldestFirst(s, gone)
    ensures StrictlySorted(Kept(s, gone))
    ensures Select(Kept(s, gone), desired, duration) == Select(s, desired, duration)
            <==> !ChosenGone(s, gone, desired, duration)
  {
    KeptStrictlySorted(s, gone);
    var p := KeptSuffix(s, gone);
    SuffixSelect(s, gone, p, desired, duration);
  }

  lemma SuffixSelect(s: seq<File>, gone: set<File>, p: nat, desired: int, duration: int)
    requires StrictlySorted(s) && p <= |s| && StrictlySorted(s[p..])
    requires (forall i | 0 <= i < p :: s[i] in gone) && forall i | p <= i < |s| :: s[i] !in gone
    ensures Select(s[p..], desired, duration) == Select(s, desired, duration)
            <==> !ChosenGone(s, gone, desired, duration)
  {
    hide StrictlySorted, AllChunks, IsChunk, Index, FirstInWindow, InWindow, ChosenGone;
    SortedAreChunks(s);
    var k := FirstInWindow(s, desired, duration);
    if k < |s| {
      var c := if TakesPrevious(s, k, desired, duration) then k - 1 else k;
      if c >= p {
        SuffixSame(s, p, k, desired, duration);
        ChosenKept(s, gone, p, c, desired, duration);
      } else {
        SuffixOther(s, gone, p, c, desired, duration);
      }
    } else {
      SuffixFirst(s, p, desired, duration);
      NothingChosen(s, gone, desired, duration);
    }
  }

  lemma NothingChosen(s: seq<File>, gone: set<File>, desired: int, duration: int)
    requires AllChunks(s) && Select(s, desired, duration) == None
    ensures !ChosenGone(s, gone, desired, duration)
  {
    hide Select;
  }

  lemma SelectOf(s: seq<File>, k: nat, desired: int, duration: int)
    requires AllChunks(s) && k == FirstInWindow(s, desired, duration) < |s|
    ensures Select(s, desired, duration) == Some(Index(s[if TakesPrevious(s, k, desired, duration) then k - 1 else k]))
  {
    hide FirstInWindow, Index;
  }

  lemma SuffixTakes(s: seq<File>, p: nat, k: nat, desired: int, duration: int)
    requires AllChunks(s) && p <= k < |s| && (TakesPrevious(s, k, desired, duration) ==> p < k)
    ensures AllChunks(s[p..])
    ensures TakesPrevious(s[p..], k - p, desired, duration) <==> TakesPrevious(s, k, desired, duration)
  {
    hide IsChunk, Index;
  }

  lemma SuffixSame(s: seq<File>, p: nat, k: nat, desired: int, duration: int)
    requires AllChunks(s) && k == FirstInWindow(s, desired, duration) < |s| && p <= k
    requires TakesPrevious(s, k, desired, duration) ==> p < k
    ensures AllChunks(s[p..]) && Select(s[p..], desired, duration) == Select(s, desired, duration)
  {
    hide *;
    SuffixFirst(s, p, desired, duration);
    SuffixTakes(s, p, k, desired, duration);
    SelectOf(s, k, desired, duration);
    SelectOf(s[p..], k - p, desired, duration);
  }

  lemma SuffixOther(s: seq<File>, gone: set<File>, p: nat, c: nat, desired: int, duration: int)
    requires StrictlySorted(s) && c < p <= |s| && s[c] in gone && StrictlySorted(s[p..])
    requires Select(s, desired, duration) == Some(Index(s[c]))
    ensures Select(s[p..], desired, duration) != Select(s, desired, duration)
    ensures ChosenGone(s, gone, desired, duration)
  {
    assert s[c] in s && s[c] in gone;
    SelectIsListed(s[p..], desired, duration);
    hide Select, Index;
    forall i | 0 <= i < |s[p..]| ensures Index(s[p..][i]) != Index(s[c]) {
      IndexesApart(s, c, p + i);
    }
  }

  lemma ChosenKept(s: seq<File>, gone: set<File>, p: nat, c: nat, desired: int, duration: int)
    requires StrictlySorted(s) && AllChunks(s) && p <= c < |s| && forall i | p <= i < |s| :: s[i] !in gone
    requires Select(s, desired, duration) == Some(Index(s[c]))
    ensures !ChosenGone(s, gone, desired, duration)
  {
    SortedAreChunks(s);
    hide Select, AllChunks, Index, IsChunk;
    forall f | f in s && f in gone ensures Index(f) != Index(s[c]) {
      var i :| 0 <= i < |s| && s[i] == f;
      assert i < p;
      IndexesApart(s, i, c);
    }
  }
}
