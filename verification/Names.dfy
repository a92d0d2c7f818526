/** Names that carry a number: pipeline elements and recorded chunks. */
module Names {
  import opened Wrappers
  import opened Decimal

  /** What GetElementId reports: a name that does not match, a match whose number does not fit, or an id. */
  datatype IdMatch = NoMatch | Overflow | Id(value: nat)

  function IndexOf(s: string, c: char): (k: nat)
    ensures k <= |s| && c !in s[..k] && (k < |s| ==> s[k] == c)
  {
    if s == "" || s[0] == c then 0 else
      var k := IndexOf(s[1..], c);
      assert s[..k + 1] == [s[0]] + s[1..][..k];
      k + 1
  }

  function AfterLast(s: string, c: char): (k: nat)
    ensures k <= |s| && c !in s[k..] && (k > 0 ==> s[k - 1] == c)
  {
    if s == "" || s[|s| - 1] == c then |s| else
      var k := AfterLast(s[..|s| - 1], c);
      assert s[k..] == s[..|s| - 1][k..] + [s[|s| - 1]];
      k
  }

  /** The language of ([^_]+_)+ . */
  predicate UnderscoredGroups(a: string) {
    var k := IndexOf(a, '_');
    0 < k < |a| && (k + 1 == |a| || UnderscoredGroups(a[k + 1..]))
  }

  /** GetElementId: ^([^_]+_)+([0-9]+)$ with the digits as the id. */
  function ElementId(name: string): IdMatch {
    var p := AfterLast(name, '_');
    if UnderscoredGroups(name[..p]) && p < |name| && AllDigits(name[p..]) then
      match Parse(name[p..], UINT64_LIMIT)
      case Some(n) => Id(n)
      case None => Overflow
    else NoMatch
  }

  ghost predicate SplitsAs(name: string, a: string, g: string) {
    name == a + g && UnderscoredGroups(a) && g != "" && AllDigits(g)
  }

  lemma SliceContains(s: string, lo: nat, hi: nat)
    requires lo <= hi <= |s|
    ensures forall i | lo <= i < hi :: s[i] in s[lo..hi]
  {
    forall i | lo <= i < hi ensures s[i] in s[lo..hi] {
      assert s[lo..hi][i - lo] == s[i];
    }
  }

  lemma {:induction false} GroupsEndInUnderscore(a: string)
    requires UnderscoredGroups(a)
    ensures a != "" && a[|a| - 1] == '_'
  {
    var k := IndexOf(a, '_');
    if k + 1 < |a| {
      GroupsEndInUnderscore(a[k + 1..]);
    }
  }

  lemma LastUnderscoreSplits(a: string, g: string)
    requires a != "" && a[|a| - 1] == '_' && AllDigits(g)
    ensures AfterLast(a + g, '_') == |a|
  {
    var s := a + g;
    var k := AfterLast(s, '_');
    SliceContains(s, k, |s|);
    assert s[|a| - 1] == '_';
    assert forall i | |a| <= i < |s| :: s[i] == g[i - |a|] != '_';
  }

  /** The regular expression has one way to match, and the id is the number it captures. */
  lemma ElementIdMatches(name: string)
    ensures forall a, g | SplitsAs(name, a, g) ::
              ElementId(name) == (if Value(g) < UINT64_LIMIT then Id(Value(g)) else Overflow)
    ensures ElementId(name) != NoMatch ==> exists a, g :: SplitsAs(name, a, g)
  {
    forall a, g | SplitsAs(name, a, g)
      ensures ElementId(name) == (if Value(g) < UINT64_LIMIT then Id(Value(g)) else Overflow)
    {
      GroupsEndInUnderscore(a);
      LastUnderscoreSplits(a, g);
      assert name[..|a|] == a && name[|a|..] == g;
    }
    if ElementId(name) != NoMatch {
      var p := AfterLast(name, '_');
      assert SplitsAs(name, name[..p], name[p..]) by {
        assert name == name[..p] + name[p..];
      }
    }
  }

  /** A stem that no template leaves with an empty part between underscores. */
  predicate PlainStem(stem: string) {
    && stem != "" && stem[0] != '_' && stem[|stem| - 1] != '_'
    && forall i | 0 <= i < |stem| - 1 :: !(stem[i] == '_' && stem[i + 1] == '_')
  }

  lemma {:induction false} PlainStemGroups(stem: string)
    requires PlainStem(stem)
    ensures UnderscoredGroups(stem + "_")
    decreases |stem|
  {
    var a := stem + "_";
    var k := IndexOf(a, '_');
    assert a[|stem|] == '_';
    SliceContains(a, 0, k);
    assert k > 0;
    if k < |stem| {
      var rest := stem[k + 1..];
      assert rest != "" && stem[k] == '_';
      assert a[k + 1..] == rest + "_";
      assert rest[0] == stem[k + 1];
      PlainStemGroups(rest);
    }
  }

  /** "<stem>_%lu". */
  function ElementName(stem: string, id: nat): string {
    stem + "_" + Show(id)
  }

  /** The id comes back from every templated name. */
  lemma ElementIdOfName(stem: string, id: nat)
    requires PlainStem(stem) && id < UINT64_LIMIT
    ensures ElementId(ElementName(stem, id)) == Id(id)
  {
    PlainStemGroups(stem);
    ShowDigits(id);
    assert SplitsAs(ElementName(stem, id), stem + "_", Show(id));
    ElementIdMatches(ElementName(stem, id));
  }

  lemma ElementNameInjective(stem1: string, id1: nat, stem2: string, id2: nat)
    requires ElementName(stem1, id1) == ElementName(stem2, id2)
    ensures stem1 == stem2 && id1 == id2
  {
    ShowDigits(id1);
    ShowDigits(id2);
    var s := ElementName(stem1, id1);
    LastUnderscoreSplits(stem1 + "_", Show(id1));
    LastUnderscoreSplits(stem2 + "_", Show(id2));
    assert s[..|stem1| + 1] == stem1 + "_" && s[|stem1| + 1..] == Show(id1);
    assert s[..|stem2| + 1] == stem2 + "_" && s[|stem2| + 1..] == Show(id2);
    assert stem1 == s[..|stem1|] && stem2 == s[..|stem2|];
    ShowInjective(id1, id2);
  }

  // Chunk names

  const CHUNK_EXT := ".ts"

  /** GenHttpTsTemplate filled in by the sink: "%llu_%05d.ts". */
  function HttpTsName(msec: nat, index: nat): string {
    Show(msec) + "_" + ShowPadded(index, 5) + CHUNK_EXT
  }

  predicate IsLineTerminator(c: char) {
    c == '\n' || c == '\r'
  }

  function LeadingDigits(s: string): (k: nat)
    ensures k <= |s| && AllDigits(s[..k]) && (k < |s| ==> !IsDigit(s[k]))
  {
    if s == "" || !IsDigit(s[0]) then 0 else
      var k := LeadingDigits(s[1..]);
      assert s[..k + 1] == [s[0]] + s[1..][..k];
      k + 1
  }

  /** GetIndexFromHttpTsTemplate: ^[0-9]+_([0-9]+).ts$ where the dot is any character. */
  function HttpTsIndex(name: string): Option<nat> {
    var u := LeadingDigits(name);
    var e := |name| - 3;
    if 1 <= u && u + 1 < e && name[u] == '_' && name[e + 1..] == "ts" && !IsLineTerminator(name[e])
       && AllDigits(name[u + 1..e]) then
      Parse(name[u + 1..e], UINT64_LIMIT)
    else None
  }

  ghost predicate HttpTsShape(name: string, stamp: string, g: string, dot: char) {
    && name == stamp + "_" + g + [dot] + "ts"
    && stamp != "" && AllDigits(stamp) && g != "" && AllDigits(g) && !IsLineTerminator(dot)
  }

  lemma LeadingDigitsOf(stamp: string, rest: string)
    requires AllDigits(stamp) && rest != "" && !IsDigit(rest[0])
    ensures LeadingDigits(stamp + rest) == |stamp|
  {
    var s := stamp + rest;
    var u := LeadingDigits(s);
    assert s[|stamp|] == rest[0];
    assert forall i | 0 <= i < |stamp| :: s[i] == stamp[i];
    assert forall i | 0 <= i < u :: s[i] == s[..u][i];
  }

  lemma AfterStamp(g: string, dot: char)
    ensures var rest := "_" + g + [dot] + "ts";
            && |rest| == |g| + 4 && rest[0] == '_' && rest[1..|g| + 1] == g && rest[|g| + 1] == dot
            && rest[|g| + 2..] == "ts"
  {
  }

  lemma TailSlice(a: string, b: string, i: nat, j: nat)
    requires i <= j <= |b|
    ensures (a + b)[|a| + i..|a| + j] == b[i..j]
  {
  }

  lemma HttpTsIndexOfShape(name: string, stamp: string, g: string, dot: char)
    requires HttpTsShape(name, stamp, g, dot)
    ensures HttpTsIndex(name) == Parse(g, UINT64_LIMIT)
  {
    hide Parse, AllDigits, IsDigit, LeadingDigits, IsLineTerminator;
    var rest := "_" + g + [dot] + "ts";
    AfterStamp(g, dot);
    Underscore();
    LeadingDigitsOf(stamp, rest);
    assert name == stamp + rest;
    TailSlice(stamp, rest, 1, |g| + 1);
    TailSlice(stamp, rest, |g| + 2, |rest|);
    assert name[|stamp|] == rest[0] && name[|name| - 3] == rest[|g| + 1];
  }

  lemma Underscore()
    ensures !IsDigit('_')
  {
  }

  /** Exactly the names of that shape whose number fits have an index. */
  lemma HttpTsIndexIff(name: string, index: nat)
    ensures HttpTsIndex(name) == Some(index) <==>
            index < UINT64_LIMIT && exists stamp, g, dot :: HttpTsShape(name, stamp, g, dot) && Value(g) == index
  {
    if HttpTsIndex(name) == Some(index) {
      var u := LeadingDigits(name);
      var e := |name| - 3;
      assert name == name[..u] + "_" + name[u + 1..e] + [name[e]] + "ts";
      assert HttpTsShape(name, name[..u], name[u + 1..e], name[e]);
    }
    if index < UINT64_LIMIT && exists stamp, g, dot :: HttpTsShape(name, stamp, g, dot) && Value(g) == index {
      var stamp, g, dot :| HttpTsShape(name, stamp, g, dot) && Value(g) == index;
      HttpTsIndexOfShape(name, stamp, g, dot);
    }
  }

  predicate IsWordChar(c: char) {
    IsDigit(c) || 'A' <= c <= 'Z' || 'a' <= c <= 'z' || c == '_'
  }

  predicate IsWord(s: string) {
    forall i | 0 <= i < |s| :: IsWordChar(s[i])
  }

  /** Where the group of [A-Za-z0-9_]*?([0-9]+) starts: the lazy part gives way as early as it can. */
  function LazyGroupStart(s: string, k: nat): (r: Option<nat>)
    requires k <= |s|
    ensures r.Some? ==> k <= r.value < |s|
    decreases |s| - k
  {
    if k == |s| then None
    else if AllDigits(s[k..]) then Some(k)
    else if IsWordChar(s[k]) then LazyGroupStart(s, k + 1)
    else None
  }

  /** The playlist reader's chunk line: ^[A-Za-z0-9_]*?([0-9]+)\.ts$ . */
  function PlaylistIndex(line: string): Option<nat> {
    if |line| >= 3 && line[|line| - 3..] == CHUNK_EXT then
      var stem := line[..|line| - 3];
      match LazyGroupStart(stem, 0)
      case Some(k) => Parse(stem[k..], UINT64_LIMIT)
      case None => None
    else None
  }

  /** A chunk-name path: word characters, then the longest run of digits before the extension is the index. */
  ghost predicate ChunkPath(path: string, word: string, g: string, index: nat) {
    && path == word + g + CHUNK_EXT && IsWord(word)
    && (word != "" ==> !IsDigit(word[|word| - 1]))
    && g != "" && AllDigits(g) && Value(g) == index < UINT64_LIMIT
  }

  lemma {:induction false} LazyGroupOfChunkPath(word: string, g: string, k: nat)
    requires IsWord(word) && (word != "" ==> !IsDigit(word[|word| - 1])) && g != "" && AllDigits(g) && k <= |word|
    ensures LazyGroupStart(word + g, k) == Some(|word|)
    decreases |word| - k
  {
    var s := word + g;
    if k == |word| {
      assert s[k..] == g;
    } else {
      assert s[k..][|word| - 1 - k] == word[|word| - 1];
      assert IsWordChar(s[k]);
      LazyGroupOfChunkPath(word, g, k + 1);
    }
  }

  lemma PlaylistIndexOfPath(path: string, word: string, g: string, index: nat)
    requires ChunkPath(path, word, g, index)
    ensures PlaylistIndex(path) == Some(index)
  {
    assert path[..|path| - 3] == word + g && path[|path| - 3..] == CHUNK_EXT;
    LazyGroupOfChunkPath(word, g, 0);
    assert (word + g)[|word|..] == g;
  }

  lemma {:induction false} LazyGroupFound(s: string, k: nat)
    requires k <= |s| && LazyGroupStart(s, k).Some?
    requires IsWord(s[..k]) && (k > 0 ==> !AllDigits(s[k - 1..]))
    ensures var m := LazyGroupStart(s, k).value;
            m < |s| && AllDigits(s[m..]) && IsWord(s[..m]) && (m > 0 ==> !IsDigit(s[m - 1]))
    decreases |s| - k
  {
    hide AllDigits, IsWord, IsDigit, IsWordChar;
    if AllDigits(s[k..]) {
      if k > 0 {
        DigitsFrom(s, k);
      }
    } else {
      WordUpTo(s, k);
      LazyGroupFound(s, k + 1);
    }
  }

  lemma DigitsFrom(s: string, k: nat)
    requires 0 < k <= |s| && AllDigits(s[k..]) && !AllDigits(s[k - 1..])
    ensures !IsDigit(s[k - 1])
  {
    assert s[k - 1..] == [s[k - 1]] + s[k..];
  }

  lemma WordUpTo(s: string, k: nat)
    requires k < |s| && IsWord(s[..k])
    ensures IsWordChar(s[k]) ==> IsWord(s[..k + 1])
  {
  }

  /** The reader accepts exactly the chunk-name paths, and the lazy match captures the whole digit run. */
  lemma PlaylistIndexIff(path: string, index: nat)
    ensures PlaylistIndex(path) == Some(index) <==> exists word, g :: ChunkPath(path, word, g, index)
  {
    if PlaylistIndex(path) == Some(index) {
      var stem := path[..|path| - 3];
      LazyGroupFound(stem, 0);
      var k := LazyGroupStart(stem, 0).value;
      assert path == stem[..k] + stem[k..] + CHUNK_EXT;
      assert ChunkPath(path, stem[..k], stem[k..], index);
    }
    if exists word, g :: ChunkPath(path, word, g, index) {
      var word, g :| ChunkPath(path, word, g, index);
      PlaylistIndexOfPath(path, word, g, index);
    }
  }

  /** "<msec>_<index>.ts" with the index padded to five digits. */
  lemma HttpTsNameIs(msec: nat, index: nat)
    ensures exists g :: HttpTsName(msec, index) == Show(msec) + "_" + g + ".ts" && AllDigits(g) && Value(g) == index
                        && |g| == if |Show(index)| < 5 then 5 else |Show(index)|
  {
    var g := ShowPadded(index, 5);
    ShowPaddedDigits(index, 5);
    assert HttpTsName(msec, index) == Show(msec) + "_" + g + ".ts";
  }

  /** Both readers find the index of every generated chunk name, whatever the padding did. */
  lemma GeneratedNameIndex(msec: nat, index: nat)
    requires index < UINT64_LIMIT
    ensures HttpTsIndex(HttpTsName(msec, index)) == Some(index)
    ensures PlaylistIndex(HttpTsName(msec, index)) == Some(index)
  {
    var name, stamp, g := HttpTsName(msec, index), Show(msec), ShowPadded(index, 5);
    ShowDigits(msec);
    ShowPaddedDigits(index, 5);
    assert name == stamp + "_" + g + ['.'] + "ts";
    HttpTsIndexOfShape(name, stamp, g, '.');
    assert ChunkPath(name, stamp + "_", g, index);
    PlaylistIndexOfPath(name, stamp + "_", g, index);
  }
}
