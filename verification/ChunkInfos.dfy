/** A chunk of a playlist and its one-line text form. */
module ChunkInfos {
  import opened Wrappers
  import opened Decimal
  import opened Names

  /** Duration in nanoseconds. */
  datatype ChunkInfo = ChunkInfo(path: string, duration: nat, index: nat)

  const SECOND: nat := 1000000000

  predicate Fits(c: ChunkInfo) {
    c.duration < UINT64_LIMIT && c.index < UINT64_LIMIT
  }

  /** ConvertToString: "%s:%llu:%llu". */
  function Encode(c: ChunkInfo): string {
    c.path + ":" + Show(c.index) + ":" + Show(c.duration)
  }

  function ParseOr0(s: string): nat {
    match Parse(s, UINT64_LIMIT)
    case Some(n) => n
    case None => 0
  }

  /** What the text means: the path ends at the first colon, the index at the second, the rest is the duration. */
  function Decode(from: string): Option<ChunkInfo> {
    if from == "" then None else
      var k := IndexOf(from, ':');
      if k == |from| then Some(ChunkInfo("", 0, 0)) else
        var rest := from[k + 1..];
        var j := IndexOf(rest, ':');
        if j == |rest| then Some(ChunkInfo(from[..k], 0, 0))
        else Some(ChunkInfo(from[..k], ParseOr0(rest[j + 1..]), ParseOr0(rest[..j])))
  }

  lemma FirstColon(a: string, b: string)
    requires ':' !in a
    ensures IndexOf(a + ":" + b, ':') == |a|
  {
    var s := a + ":" + b;
    var k := IndexOf(s, ':');
    SliceContains(s, 0, k);
    assert s[|a|] == ':';
    assert forall i | 0 <= i < |a| :: s[i] == a[i] != ':';
  }

  /** ConvertFromString, character by character with its running line and field counter. */
  method ConvertFromString(from: string) returns (out: Option<ChunkInfo>)
    ensures out == Decode(from)
  {
    hide IndexOf, Value;
    if from == "" {
      return None;
    }
    var res := ChunkInfo("", 0, 0);
    var line := "";
    var pos := 0;
    var i := 0;
    ghost var first := IndexOf(from, ':');
    while i < |from|
      invariant i <= |from| && pos <= 1
      invariant pos == 0 ==> line == from[..i] && ':' !in line && res == ChunkInfo("", 0, 0)
      invariant pos == 1 ==> first < i && line == from[first + 1..i] && ':' !in line
                             && res == ChunkInfo(from[..first], 0, 0)
    {
      var c := from[i];
      if c == ':' {
        if pos == 0 {
          assert from == line + ":" + from[i + 1..];
          FirstColon(line, from[i + 1..]);
          res := res.(path := line);
        } else {
          var ltsStr := from[i + 1..];
          assert from[first + 1..] == line + ":" + ltsStr;
          FirstColon(line, ltsStr);
          assert from[first + 1..][..|line|] == line && from[first + 1..][|line| + 1..] == ltsStr;
          var ind := Parse(line, UINT64_LIMIT);
          if ind.Some? {
            res := res.(index := ind.value);
          }
          var lts := Parse(ltsStr, UINT64_LIMIT);
          if lts.Some? {
            res := res.(duration := lts.value);
          }
          break;
        }
        line := "";
        pos := pos + 1;
      } else {
        line := line + [c];
        assert pos == 0 ==> from[..i + 1] == from[..i] + [c];
        assert pos == 1 ==> from[first + 1..i + 1] == from[first + 1..i] + [c];
      }
      i := i + 1;
      assert pos == 1 ==> first < |from|;
    }
    if i == |from| {
      assert from[..i] == from;
      if pos == 1 {
        assert from[first + 1..i] == from[first + 1..];
      }
    }
    out := Some(res);
  }

  lemma ShowHasNoColon(n: nat)
    ensures ':' !in Show(n)
  {
    ShowDigits(n);
  }

  /** The text form comes back unchanged exactly when the path has no colon. */
  lemma RoundTripIff(c: ChunkInfo)
    requires Fits(c)
    ensures Encode(c) == c.path + ":" + Show(c.index) + ":" + Show(c.duration)
    ensures Decode(c.path + ":" + Show(c.index) + ":" + Show(c.duration)) == Some(c) <==> ':' !in c.path
  {
    hide IndexOf, Show, Value;
    var s := Encode(c);
    if ':' !in c.path {
      var rest := Show(c.index) + ":" + Show(c.duration);
      assert s == c.path + ":" + rest;
      FirstColon(c.path, rest);
      assert s[..|c.path|] == c.path && s[|c.path| + 1..] == rest;
      ShowHasNoColon(c.index);
      FirstColon(Show(c.index), Show(c.duration));
      assert rest[..|Show(c.index)|] == Show(c.index) && rest[|Show(c.index)| + 1..] == Show(c.duration);
      ParseShow(c.index, UINT64_LIMIT);
      ParseShow(c.duration, UINT64_LIMIT);
    }
  }
}
