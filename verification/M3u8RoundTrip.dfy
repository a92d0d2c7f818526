/** Reading back a written playlist. */
module M3u8RoundTrip {
  import opened Wrappers
  import opened Decimal
  import opened Names
  import opened ChunkInfos
  import opened M3u8
  import opened Sequences

  /** A line that reaches the parser whole: it fits the buffer with its newline and loses nothing to trimming. */
  predicate PlainLine(line: string) {
    line != "" && |line| + 1 < MAX_LINE && '\n' !in line && '\0' !in line && !IsSpace(line[|line| - 1])
  }

  // One line

  lemma {:induction false} GetsWholeLine(t: string, pos: nat, k: nat, n: nat)
    requires pos + k < |t| && k < n
    requires t[pos + k] == '\n' && forall i | pos <= i < pos + k :: t[i] != '\n'
    ensures GetsEnd(t, pos, n) == pos + k + 1
    decreases k
  {
    if k > 0 {
      GetsWholeLine(t, pos + 1, k - 1, n - 1);
    }
  }

  lemma {:induction false} GetsToTheEnd(t: string, pos: nat, n: nat)
    requires pos <= |t| && |t| - pos <= n && forall i | pos <= i < |t| :: t[i] != '\n'
    ensures GetsEnd(t, pos, n) == |t|
    decreases n
  {
    if pos < |t| {
      GetsToTheEnd(t, pos + 1, n - 1);
    }
  }

  lemma WholeCString(s: string)
    requires '\0' !in s
    ensures CString(s) == s
  {
    var k := IndexOf(s, '\0');
    assert k == |s|;
  }

  lemma TrimPlainLine(line: string)
    requires PlainLine(line)
    ensures TrimRight(Line(line)) == line && TrimRight(line) == line && HasInk(line) && HasInk(Line(line))
  {
    var s := Line(line);
    assert s[..|s| - 1] == line;
    assert s[|line| - 1] == line[|line| - 1];
  }

  lemma LineAtSlice(t: string, pos: nat, line: string, rest: string)
    requires pos <= |t| && t[pos..] == Line(line) + rest
    ensures var e := pos + |line| + 1;
            && e <= |t| && t[pos..e] == Line(line) && t[e..] == rest && t[e - 1] == '\n'
            && forall i | pos <= i < e - 1 :: t[i] == line[i - pos]
  {
    var s, e := t[pos..], pos + |line| + 1;
    assert t[pos..e] == s[..e - pos] && t[e..] == s[e - pos..];
    assert t[e - 1] == s[|line|];
    assert forall i | pos <= i < e - 1 :: t[i] == s[i - pos];
  }

  lemma NextLineAt(t: string, pos: nat, line: string, rest: string)
    requires pos <= |t| && PlainLine(line) && t[pos..] == Line(line) + rest
    ensures NextLine(t, pos) == Some(LineAt(Line(line), pos + |line| + 1))
    ensures pos + |line| + 1 <= |t| && t[pos + |line| + 1..] == rest
  {
    hide TrimRight, CString, GetsEnd, HasInk;
    LineAtSlice(t, pos, line, rest);
    GetsWholeLine(t, pos, |line|, MAX_LINE - 1);
    WholeCString(Line(line));
    TrimPlainLine(line);
  }

  lemma LastLineAt(t: string, pos: nat, line: string)
    requires pos <= |t| && PlainLine(line) && t[pos..] == line
    ensures NextLine(t, pos) == Some(LineAt(line, |t|))
  {
    assert t[pos..|t|] == line;
    forall i | pos <= i < |t| ensures t[i] != '\n' {
      assert t[i] == line[i - pos];
    }
    GetsToTheEnd(t, pos, MAX_LINE - 1);
    WholeCString(line);
    TrimPlainLine(line);
  }

  /** A lone newline in front of a line is skipped. */
  lemma BlankThenLine(t: string, pos: nat)
    requires pos < |t| && t[pos] == '\n'
    ensures NextLine(t, pos) == NextLine(t, pos + 1)
  {
    assert GetsEnd(t, pos, MAX_LINE - 1) == pos + 1;
    assert t[pos..pos + 1] == "\n";
    WholeCString("\n");
  }

  // Numbers

  lemma CentisNear(duration: nat)
    ensures -5000000 <= Centis(duration) * CENTI - duration <= 5000000
    ensures duration < UINT64_LIMIT ==> Centis(duration) / 100 < Pow10(11)
  {
    assert Pow10(11) == 100000000000 by {
      assert Pow10(3) == 1000;
      assert Pow10(6) == 1000000;
      assert Pow10(9) == 1000000000;
    }
  }

  lemma OneDigit(d: nat)
    requires d < 10
    ensures AllDigits([DigitOf(d)]) && Value([DigitOf(d)]) == d
  {
    assert [DigitOf(d)][..0] == "";
  }

  lemma LastTwo(h: nat)
    ensures h / 10 % 10 * 10 + h % 10 == h % 100
  {
    var q, r := h / 10, h / 100;
    assert h == 10 * q + h % 10;
    assert q / 10 == r;
    assert q == 10 * r + q % 10;
  }

  lemma TwoDigits(h: nat)
    ensures var frac := [DigitOf(h / 10 % 10)] + [DigitOf(h % 10)];
            AllDigits(frac) && Value(frac) == h % 100
  {
    hide *;
    var a, b := h / 10 % 10, h % 10;
    OneDigit(a);
    OneDigit(b);
    ValueConcat([DigitOf(a)], [DigitOf(b)]);
    PowersOfTen();
    LastTwo(h);
  }

  lemma PowersOfTen()
    ensures Pow10(1) == 10 && Pow10(2) == 100
  {
    assert Pow10(0) == 1;
  }

  lemma FirstDot(whole: string, frac: string)
    requires AllDigits(whole)
    ensures IndexOf(whole + "." + frac, '.') == |whole|
  {
    var s := whole + "." + frac;
    var k := IndexOf(s, '.');
    SliceContains(s, 0, k);
    assert s[|whole|] == '.';
    assert forall i | 0 <= i < |whole| :: s[i] == whole[i] != '.';
  }

  /** The conversion of a number with a single dot. */
  lemma ParseNanosDotted(whole: string, frac: string)
    requires AllDigits(whole) && whole != "" && AllDigits(frac)
    ensures ParseNanos(whole + "." + frac)
            == Some((Value(whole) * Pow10(|frac|) + Value(frac)) * SECOND / Pow10(|frac|))
  {
    hide IndexOf, Value, Pow10;
    var s := whole + "." + frac;
    FirstDot(whole, frac);
    assert s[..|whole|] == whole && s[|whole| + 1..] == frac;
    ValueConcat(whole, frac);
  }

  lemma CentisToNanos(h: nat)
    ensures (h / 100 * Pow10(2) + h % 100) * SECOND / Pow10(2) == h * CENTI
  {
    hide Pow10;
    PowersOfTen();
    assert h / 100 * 100 + h % 100 == h;
  }

  lemma ShowCentisShape(h: nat)
    ensures DecimalChars(ShowCentis(h)) && ParseNanos(ShowCentis(h)) == Some(h * CENTI)
    ensures |ShowCentis(h)| == |Show(h / 100)| + 3
  {
    hide Show, Value, ParseNanos, Pow10;
    var whole := Show(h / 100);
    var frac := [DigitOf(h / 10 % 10)] + [DigitOf(h % 10)];
    assert ShowCentis(h) == whole + "." + frac;
    ShowDigits(h / 100);
    TwoDigits(h);
    ParseNanosDotted(whole, frac);
    CentisToNanos(h);
  }

  lemma ShowPlain(n: nat)
    ensures '\n' !in Show(n) && '\0' !in Show(n) && !IsSpace(Show(n)[|Show(n)| - 1])
    ensures n < UINT64_LIMIT ==> |Show(n)| <= 20
  {
    ShowDigits(n);
    assert Pow10(20) > UINT64_LIMIT by {
      assert Pow10(4) == 10000;
      assert Pow10(8) == 100000000;
      assert Pow10(12) == 1000000000000;
      assert Pow10(16) == 10000000000000000;
    }
    if n < UINT64_LIMIT {
      ShowLength(n, 20);
    }
  }

  // Header lines

  lemma KeyedLine(key: string, n: nat)
    requires 0 < |key| <= 30 && '\n' !in key && '\0' !in key && n < UINT64_LIMIT
    ensures PlainLine(key + Show(n)) && NumberField(key + Show(n), key) && (key + Show(n))[|key|..] == Show(n)
  {
    ShowDigits(n);
    ShowPlain(n);
  }

  lemma MediaSequenceLine(n: nat, p: Playlist)
    requires n < UINT64_LIMIT
    ensures PlainLine(M3U8_MEDIA_SEQUENCE + Show(n))
    ensures HeaderLine(M3U8_MEDIA_SEQUENCE + Show(n), p)
            == if n < INT32_LIMIT then Updated(p.(mediaSequence := n)) else Malformed
  {
    var line := M3U8_MEDIA_SEQUENCE + Show(n);
    KeyedLine(M3U8_MEDIA_SEQUENCE, n);
    assert line[4] == '-' && line[7] == 'M';
    ParseShow(n, INT32_LIMIT);
  }

  lemma TargetDurationLine(n: nat, p: Playlist)
    requires n < UINT64_LIMIT
    ensures PlainLine(M3U8_TARGET_DURATION + Show(n))
    ensures HeaderLine(M3U8_TARGET_DURATION + Show(n), p)
            == if n < INT32_LIMIT then Updated(p.(targetDuration := n)) else Malformed
  {
    var line := M3U8_TARGET_DURATION + Show(n);
    KeyedLine(M3U8_TARGET_DURATION, n);
    assert line[4] == '-' && line[7] == 'T';
    ParseShow(n, INT32_LIMIT);
  }

  lemma FirstLine(p: Playlist)
    ensures PlainLine(M3U8_HEADER) && HeaderLine(M3U8_HEADER, p) == Updated(p)
  {
    hide NumberField, CapitalsField, Parse;
  }

  lemma AllowCacheLine(p: Playlist)
    ensures PlainLine(M3U8_ALLOW_CACHE + "YES")
    ensures HeaderLine(M3U8_ALLOW_CACHE + "YES", p) == Updated(p.(allowCache := true))
  {
    hide Parse;
    var cache := M3U8_ALLOW_CACHE + "YES";
    assert cache[|M3U8_ALLOW_CACHE|..] == "YES" && cache[7] == 'A';
  }

  lemma VersionLine(p: Playlist)
    ensures PlainLine(M3U8_VERSION + "3") && HeaderLine(M3U8_VERSION + "3", p) == Updated(p.(version := 3))
  {
    hide Parse;
    var version := M3U8_VERSION + "3";
    assert version[|M3U8_VERSION|..] == "3";
    assert version[4] == '-';
    Three();
  }

  lemma Three()
    ensures Parse("3", INT32_LIMIT) == Some(3)
  {
    assert Show(3) == "3";
    ParseShow(3, INT32_LIMIT);
  }

  lemma FooterLine(p: Playlist)
    ensures PlainLine(M3U8_FOOTER) && HeaderLine(M3U8_FOOTER, p) == NotHeader
  {
    assert M3U8_FOOTER[4] == '-' && M3U8_FOOTER[7] == 'E';
  }

  lemma ExtinfLine(number: string)
    requires DecimalChars(number) && |number| <= 30
    ensures PlainLine(M3U8_CHUNK_HEADER + number + ",")
    ensures ChunkHeaderNanos(M3U8_CHUNK_HEADER + number + ",") == ParseNanos(number)
  {
    var key := M3U8_CHUNK_HEADER;
    var line := key + number + ",";
    assert line[|key|..|line| - 1] == number;
    assert '\n' !in key && '\0' !in key;
    assert '\n' !in number && '\0' !in number;
  }

  lemma ExtinfIsNoHeader(number: string, p: Playlist)
    requires number != ""
    ensures HeaderLine(M3U8_CHUNK_HEADER + number + ",", p) == NotHeader
    ensures M3U8_CHUNK_HEADER + number + "," != M3U8_FOOTER
  {
    assert (M3U8_CHUNK_HEADER + number + ",")[4] == 'I';
  }

  lemma ChunkHeaderLine(c: ChunkInfo, p: Playlist)
    requires Fits(c)
    ensures PlainLine(ChunkHeader(c)) && HeaderLine(ChunkHeader(c), p) == NotHeader && ChunkHeader(c) != M3U8_FOOTER
    ensures ChunkHeaderNanos(ChunkHeader(c)) == Some(Centis(c.duration) * CENTI)
  {
    var h := Centis(c.duration);
    ShowCentisShape(h);
    CentisNear(c.duration);
    ShowLength(h / 100, 11);
    ExtinfLine(ShowCentis(h));
    ExtinfIsNoHeader(ShowCentis(h), p);
  }

  // The chunks

  /** A line that reaches the parser whole, perhaps leaving its newline behind for the next read. */
  predicate FitsLine(line: string) {
    line != "" && |line| < MAX_LINE && '\n' !in line && '\0' !in line && !IsSpace(line[|line| - 1])
  }

  predicate Readable(c: ChunkInfo) {
    PlaylistIndex(c.path).Some?
  }

  predicate Good(c: ChunkInfo) {
    Fits(c) && FitsLine(c.path) && Readable(c)
  }

  /** What the reader makes of a chunk it accepts. */
  function ReadBack(c: ChunkInfo): ChunkInfo
    requires Readable(c)
  {
    ChunkInfo(c.path, Centis(c.duration) * CENTI, PlaylistIndex(c.path).value)
  }

  function ReadBackAll(cs: seq<ChunkInfo>): seq<ChunkInfo>
    requires forall c | c in cs :: Readable(c)
  {
    seq(|cs|, i requires 0 <= i < |cs| => ReadBack(cs[i]))
  }

  function Tail(finished: bool): string {
    if finished then M3U8_FOOTER else ""
  }

  /** The line of a path: its newline is read with it, unless the buffer is full. */
  lemma PathLineAt(t: string, pos: nat, path: string, rest: string)
    requires pos <= |t| && FitsLine(path) && t[pos..] == Line(path) + rest
    ensures var e := pos + |path|;
            && e < |t| && t[e] == '\n' && t[e + 1..] == rest
            && (NextLine(t, pos) == Some(LineAt(Line(path), e + 1)) || NextLine(t, pos) == Some(LineAt(path, e)))
    ensures TrimRight(Line(path)) == path && TrimRight(path) == path
  {
    LineAtSlice(t, pos, path, rest);
    if |path| + 1 < MAX_LINE {
      hide NextLine, TrimRight;
      NextLineAt(t, pos, path, rest);
      TrimPlainLine(path);
    } else {
      FullLineAt(t, pos, path);
      TrimFullLine(path);
    }
  }

  lemma TrimFullLine(line: string)
    requires FitsLine(line)
    ensures TrimRight(Line(line)) == line && TrimRight(line) == line
  {
    var s := Line(line);
    assert s[..|s| - 1] == line;
    assert s[|line| - 1] == line[|line| - 1];
  }

  lemma FullLineAt(t: string, pos: nat, path: string)
    requires FitsLine(path) && |path| + 1 == MAX_LINE && pos + |path| < |t|
    requires t[pos..pos + |path| + 1] == Line(path)
    ensures NextLine(t, pos) == Some(LineAt(path, pos + |path|))
  {
    var e := pos + |path|;
    forall i | pos <= i < e ensures t[i] == path[i - pos] {
      assert t[i] == t[pos..e + 1][i - pos];
    }
    assert t[pos..e] == path;
    GetsFullLine(t, pos, MAX_LINE - 1);
    WholeCString(path);
    assert HasInk(path);
    hide CString, GetsEnd, HasInk;
  }

  lemma {:induction false} GetsFullLine(t: string, pos: nat, n: nat)
    requires pos + n <= |t| && forall i | pos <= i < pos + n :: t[i] != '\n'
    ensures GetsEnd(t, pos, n) == pos + n
    decreases n
  {
    if n > 0 {
      GetsFullLine(t, pos + 1, n - 1);
    }
  }

  /** A newline left behind changes nothing for the chunk loop. */
  lemma SkipBlank(t: string, pos: nat, p: Playlist)
    requires pos < |t| && t[pos] == '\n'
    ensures ParseChunksFrom(t, pos, p) == ParseChunksFrom(t, pos + 1, p)
  {
    BlankThenLine(t, pos);
    hide NextLine, TrimRight, ChunkHeaderNanos, PlaylistIndex;
  }

  lemma ParseTwoLines(t: string, pos: nat, header: string, path: string, rest: string, p: Playlist, next: nat, c: ChunkInfo)
    requires pos <= |t| && PlainLine(header) && FitsLine(path) && header != M3U8_FOOTER
    requires ChunkHeaderNanos(header).Some? && PlaylistIndex(path).Some?
    requires t[pos..] == Line(header) + (Line(path) + rest) && next == pos + |header| + |path| + 2
    requires c == ChunkInfo(path, ChunkHeaderNanos(header).value, PlaylistIndex(path).value)
    ensures next <= |t| && t[next..] == rest
    ensures ParseChunksFrom(t, pos, p) == ParseChunksFrom(t, next, p.(chunks := p.chunks + [c]))
  {
    hide *;
    var mid := pos + |header| + 1;
    NextLineAt(t, pos, header, Line(path) + rest);
    PathLineAt(t, mid, path, rest);
    TrimPlainLine(header);
    var second := NextLine(t, mid).value;
    TwoLinesRead(t, pos, p, LineAt(Line(header), mid), second, header, c);
    if second.next == mid + |path| {
      SkipBlank(t, mid + |path|, p.(chunks := p.chunks + [c]));
    }
  }

  /** A line that heads a chunk and one that names it. */
  lemma TwoLinesRead(t: string, pos: nat, p: Playlist, first: LineAt, second: LineAt, header: string, c: ChunkInfo)
    requires pos <= |t| && NextLine(t, pos) == Some(first) && first.next <= |t| && NextLine(t, first.next) == Some(second)
    requires TrimRight(first.line) == header && TrimRight(second.line) == c.path && header != M3U8_FOOTER
    requires ChunkHeaderNanos(header) == Some(c.duration) && PlaylistIndex(c.path) == Some(c.index)
    ensures second.next <= |t| && ParseChunksFrom(t, pos, p) == ParseChunksFrom(t, second.next, p.(chunks := p.chunks + [c]))
  {
    hide ChunkHeaderNanos, PlaylistIndex, HasInk, NextLine, TrimRight;
  }

  lemma ChunkTextLines(c: ChunkInfo, rest: string)
    ensures ChunkText(c) + rest == Line(ChunkHeader(c)) + (Line(c.path) + rest)
    ensures |ChunkText(c)| == |ChunkHeader(c)| + |c.path| + 2
  {
    Reassociate(Line(ChunkHeader(c)), Line(c.path), rest);
  }

  lemma GoodChunk(c: ChunkInfo)
    requires Good(c)
    ensures Fits(c) && FitsLine(c.path) && PlaylistIndex(c.path).Some?
    ensures ReadBack(c) == ChunkInfo(c.path, Centis(c.duration) * CENTI, PlaylistIndex(c.path).value)
  {
    hide FitsLine, PlaylistIndex;
  }

  lemma ParseOneChunk(t: string, pos: nat, c: ChunkInfo, rest: string, p: Playlist)
    requires pos <= |t| && Good(c) && t[pos..] == ChunkText(c) + rest
    ensures var next := pos + |ChunkText(c)|;
            && next <= |t| && t[next..] == rest
            && ParseChunksFrom(t, pos, p) == ParseChunksFrom(t, next, p.(chunks := p.chunks + [ReadBack(c)]))
  {
    GoodChunk(c);
    hide *;
    ChunkHeaderLine(c, p);
    ChunkTextLines(c, rest);
    ParseTwoLines(t, pos, ChunkHeader(c), c.path, rest, p, pos + |ChunkText(c)|, ReadBack(c));
  }

  lemma ParseNoChunks(t: string, pos: nat, finished: bool, p: Playlist)
    requires pos <= |t| && t[pos..] == Tail(finished)
    ensures ParseChunksFrom(t, pos, p) == ParseResult(finished || p.chunks != [], p)
  {
    if finished {
      FooterLine(p);
      LastLineAt(t, pos, M3U8_FOOTER);
      TrimPlainLine(M3U8_FOOTER);
    } else {
      assert pos == |t|;
    }
  }

  lemma ReadBackCons(done: seq<ChunkInfo>, cs: seq<ChunkInfo>)
    requires cs != [] && forall c | c in cs :: Readable(c)
    ensures done + ReadBackAll(cs) == done + [ReadBack(cs[0])] + ReadBackAll(cs[1..])
  {
    assert cs == [cs[0]] + cs[1..];
    assert ReadBackAll(cs) == [ReadBack(cs[0])] + ReadBackAll(cs[1..]);
  }

  predicate AllGood(cs: seq<ChunkInfo>) {
    forall i | 0 <= i < |cs| :: Good(cs[i])
  }

  lemma AllGoodReadable(cs: seq<ChunkInfo>)
    requires AllGood(cs)
    ensures forall c | c in cs :: Readable(c)
    ensures cs != [] ==> AllGood(cs[1..]) && Good(cs[0]) && Fits(cs[0])
  {
  }

  lemma TextCons(cs: seq<ChunkInfo>, tail: string)
    requires cs != []
    ensures ChunksText(cs) + tail == ChunkText(cs[0]) + (ChunksText(cs[1..]) + tail)
  {
    Reassociate(ChunkText(cs[0]), ChunksText(cs[1..]), tail);
  }

  lemma ReadBackNone(done: seq<ChunkInfo>)
    ensures done + ReadBackAll([]) == done && done + [] == done
    ensures ChunksText([]) == ""
  {
  }

  lemma {:induction false} ParseWrittenChunks(t: string, pos: nat, cs: seq<ChunkInfo>, finished: bool, p: Playlist)
    requires pos <= |t| && AllGood(cs) && t[pos..] == ChunksText(cs) + Tail(finished)
    ensures forall c | c in cs :: Readable(c)
    ensures ParseChunksFrom(t, pos, p)
            == ParseResult(finished || p.chunks + cs != [], p.(chunks := p.chunks + ReadBackAll(cs)))
    decreases |cs|
  {
    hide *;
    AllGoodReadable(cs);
    if cs == [] {
      ReadBackNone(p.chunks);
      assert t[pos..] == Tail(finished);
      ParseNoChunks(t, pos, finished, p);
    } else {
      TextCons(cs, Tail(finished));
      ParseOneChunk(t, pos, cs[0], ChunksText(cs[1..]) + Tail(finished), p);
      ParseWrittenChunks(t, pos + |ChunkText(cs[0])|, cs[1..], finished, p.(chunks := p.chunks + [ReadBack(cs[0])]));
      ReadBackCons(p.chunks, cs);
    }
  }

  // The header

  lemma ParseHeaderField(t: string, pos: nat, line: string, rest: string, p: Playlist)
    requires pos <= |t| && PlainLine(line) && t[pos..] == Line(line) + rest && !HeaderLine(line, p).NotHeader?
    ensures var next := pos + |line| + 1;
            && next <= |t| && t[next..] == rest
            && ParseHeaderFrom(t, pos, p)
               == (match HeaderLine(line, p)
                   case Updated(p') => ParseHeaderFrom(t, next, p')
                   case Malformed => ParseResult(false, p))
  {
    hide PlainLine, NextLine, TrimRight, HeaderLine, HasInk;
    NextLineAt(t, pos, line, rest);
    TrimPlainLine(line);
  }

  /** The lines before the bad one take the header through the steps; the bad one, if there is one, is malformed. */
  ghost predicate Applies(lines: seq<string>, steps: seq<Playlist>, bad: nat) {
    && bad <= |lines| && |steps| == |lines| + 1
    && (forall i | 0 <= i < |lines| :: PlainLine(lines[i]))
    && (forall i | 0 <= i < bad :: HeaderLine(lines[i], steps[i]) == Updated(steps[i + 1]))
    && (bad < |lines| ==> HeaderLine(lines[bad], steps[bad]) == Malformed)
  }

  lemma {:induction false} ParseHeaderFields(t: string, pos: nat, lines: seq<string>, steps: seq<Playlist>, bad: nat,
                                             rest: string)
    requires pos <= |t| && Applies(lines, steps, bad) && t[pos..] == Lines(lines) + rest
    ensures |rest| <= |t| - pos
    ensures var r := ParseHeaderFrom(t, pos, steps[0]);
            if bad < |lines| then !r.ok else r == ParseHeaderFrom(t, |t| - |rest|, steps[|lines|])
    decreases |lines|
  {
    hide PlainLine, HeaderLine, ParseHeaderFrom;
    if lines == [] {
      assert t[pos..] == rest;
      assert pos == |t| - |rest|;
    } else {
      var rest' := Lines(lines[1..]) + rest;
      Reassociate(Line(lines[0]), Lines(lines[1..]), rest);
      assert HeaderLine(lines[0], steps[0]) == if bad == 0 then Malformed else Updated(steps[1]);
      ParseHeaderField(t, pos, lines[0], rest', steps[0]);
      if bad > 0 {
        ParseHeaderFields(t, pos + |lines[0]| + 1, lines[1..], steps[1..], bad - 1, rest);
      }
    }
  }

  /** The playlist after each header line. */
  function HeaderSteps(first: nat, target: nat): seq<Playlist> {
    [EmptyPlaylist, EmptyPlaylist, Playlist(-1, false, first, -1, []), Playlist(-1, true, first, -1, []),
     Playlist(3, true, first, -1, []), Playlist(3, true, first, target, [])]
  }

  /** The first header line whose number is no int. */
  function MalformedLine(first: nat, target: nat): nat {
    if first >= INT32_LIMIT then 1 else if target >= INT32_LIMIT then 4 else 5
  }

  lemma HeaderLinesApply(first: nat, target: nat)
    requires first < UINT64_LIMIT && target < UINT64_LIMIT
    ensures Applies(HeaderLines(first, target), HeaderSteps(first, target), MalformedLine(first, target))
    ensures |HeaderLines(first, target)| == 5
  {
    hide HeaderLine, PlainLine;
    var steps := HeaderSteps(first, target);
    FirstLine(steps[0]);
    MediaSequenceLine(first, steps[1]);
    AllowCacheLine(steps[2]);
    VersionLine(steps[3]);
    TargetDurationLine(target, steps[4]);
  }

  /** The header parses to its two numbers and leaves the chunks, or fails when a number is no int. */
  lemma ParseWrittenHeader(t: string, first: nat, target: nat, rest: string)
    requires first < UINT64_LIMIT && target < UINT64_LIMIT && t == HeaderText(first, target) + rest
    ensures if first < INT32_LIMIT && target < INT32_LIMIT
            then ParseText(t) == ParseHeaderFrom(t, |t| - |rest|, Playlist(3, true, first, target, []))
            else !ParseText(t).ok
  {
    hide Applies, HeaderLine, HeaderLines, ParseHeaderFrom, Lines;
    HeaderLinesApply(first, target);
    assert t[0..] == t;
    ParseHeaderFields(t, 0, HeaderLines(first, target), HeaderSteps(first, target), MalformedLine(first, target), rest);
  }

  /** The first line that is no header sends the reader back by its length and the newline. */
  lemma ParseFirstBodyLine(t: string, body: nat, line: string, rest: string, p: Playlist)
    requires body <= |t| && PlainLine(line) && t[body..] == Line(line) + rest && HeaderLine(line, p) == NotHeader
    ensures ParseHeaderFrom(t, body, p) == ParseChunksFrom(t, body, p)
  {
    hide PlainLine, NextLine, TrimRight, HeaderLine, HasInk, ParseChunksFrom;
    NextLineAt(t, body, line, rest);
    TrimPlainLine(line);
  }

  /** A footer right after the header has no newline to count, so the reader lands on the newline before it. */
  lemma ParseFooterOnly(t: string, body: nat, p: Playlist)
    requires 0 < body <= |t| && t[body - 1] == '\n' && t[body..] == M3U8_FOOTER
    ensures ParseHeaderFrom(t, body, p) == ParseResult(true, p)
  {
    hide PlainLine, NextLine, TrimRight, HeaderLine, HasInk;
    FooterLine(p);
    LastLineAt(t, body, M3U8_FOOTER);
    TrimPlainLine(M3U8_FOOTER);
    BlankThenLine(t, body - 1);
  }

  lemma ParseChunkBody(t: string, body: nat, cs: seq<ChunkInfo>, finished: bool, p: Playlist)
    requires body <= |t| && cs != [] && Fits(cs[0])
    requires t[body..] == ChunksText(cs) + Tail(finished)
    ensures ParseHeaderFrom(t, body, p) == ParseChunksFrom(t, body, p)
  {
    hide PlainLine, HeaderLine, ChunkHeader, ChunkHeaderNanos, ParseHeaderFrom, ParseChunksFrom;
    var rest := ChunksText(cs[1..]) + Tail(finished);
    ChunkHeaderLine(cs[0], p);
    Reassociate(ChunkText(cs[0]), ChunksText(cs[1..]), Tail(finished));
    ChunkTextLines(cs[0], rest);
    ParseFirstBodyLine(t, body, ChunkHeader(cs[0]), Line(cs[0].path) + rest, p);
  }

  lemma ParseBody(t: string, body: nat, cs: seq<ChunkInfo>, finished: bool, p: Playlist)
    requires 0 < body <= |t| && t[body - 1] == '\n' && p.chunks == []
    requires AllGood(cs) && t[body..] == ChunksText(cs) + Tail(finished)
    ensures forall c | c in cs :: Readable(c)
    ensures var r := ParseHeaderFrom(t, body, p);
            && (r.ok <==> finished || cs != [])
            && (r.ok ==> r.list == p.(chunks := ReadBackAll(cs)))
  {
    AllGoodReadable(cs);
    if cs != [] {
      hide *;
      ParseChunkBody(t, body, cs, finished, p);
      ParseWrittenChunks(t, body, cs, finished, p);
      assert [] + cs == cs && [] + ReadBackAll(cs) == ReadBackAll(cs);
    } else {
      assert t[body..] == Tail(finished);
      if finished {
        ParseFooterOnly(t, body, p);
      }
    }
  }

  // What any text can make the reader accept

  /** The line of an accepted chunk was its path, whose digits are its index. */
  predicate Accepted(c: ChunkInfo) {
    PlaylistIndex(c.path) == Some(c.index) && |c.path| < MAX_LINE
  }

  predicate AllAccepted(cs: seq<ChunkInfo>) {
    forall i | 0 <= i < |cs| :: Accepted(cs[i])
  }

  lemma {:induction false} GetsAtMost(t: string, pos: nat, n: nat)
    requires pos <= |t|
    ensures GetsEnd(t, pos, n) <= pos + n
    decreases n
  {
    if pos < |t| && n > 0 {
      GetsAtMost(t, pos + 1, n - 1);
    }
  }

  lemma {:induction false} NextLineShort(t: string, pos: nat)
    requires pos <= |t|
    ensures NextLine(t, pos).Some? ==> |NextLine(t, pos).value.line| < MAX_LINE
    decreases |t| - pos
  {
    hide GetsEnd, HasInk;
    if pos < |t| {
      var e := GetsEnd(t, pos, MAX_LINE - 1);
      GetsAtMost(t, pos, MAX_LINE - 1);
      NextLineShort(t, e);
    }
  }

  lemma {:induction false} ChunksAreAccepted(t: string, pos: nat, p: Playlist)
    requires pos <= |t| && AllAccepted(p.chunks)
    ensures AllAccepted(ParseChunksFrom(t, pos, p).list.chunks)
    decreases |t| - pos
  {
    hide NextLine, TrimRight, ChunkHeaderNanos, PlaylistIndex;
    match NextLine(t, pos)
    case None =>
    case Some(first) =>
      match NextLine(t, first.next)
      case None =>
      case Some(second) =>
        NextLineShort(t, first.next);
        var duration, line := ChunkHeaderNanos(TrimRight(first.line)), TrimRight(second.line);
        if duration.Some? && PlaylistIndex(line).Some? {
          var c := ChunkInfo(line, duration.value, PlaylistIndex(line).value);
          ChunksAreAccepted(t, second.next, p.(chunks := p.chunks + [c]));
        }
  }

  lemma {:induction false} HeaderKeepsChunks(t: string, pos: nat, p: Playlist)
    requires pos <= |t| && p.chunks == []
    ensures AllAccepted(ParseHeaderFrom(t, pos, p).list.chunks)
    decreases |t| - pos
  {
    hide NextLine, TrimRight, ParseChunksFrom, HeaderLine;
    match NextLine(t, pos)
    case None =>
    case Some(at) =>
      var line := TrimRight(at.line);
      HeaderLineChunks(line, p);
      match HeaderLine(line, p)
      case Updated(p') => HeaderKeepsChunks(t, at.next, p');
      case Malformed =>
      case NotHeader => ChunksAreAccepted(t, SeekBack(at.next, |line|), p);
  }

  lemma HeaderLineChunks(line: string, p: Playlist)
    ensures HeaderLine(line, p).Updated? ==> HeaderLine(line, p).list.chunks == p.chunks
  {
    hide NumberField, CapitalsField, Parse;
  }

  // The round trip

  /** Same paths and indexes, and durations within half a hundredth of a second. */
  predicate SameChunks(read: seq<ChunkInfo>, written: seq<ChunkInfo>) {
    && |read| == |written|
    && forall i | 0 <= i < |written| ::
         && read[i].path == written[i].path && read[i].index == written[i].index
         && -5000000 <= read[i].duration - written[i].duration <= 5000000
  }

  /** The path ends in the digits of the chunk's own index. */
  ghost predicate IndexedPath(c: ChunkInfo) {
    exists word, g :: ChunkPath(c.path, word, g, c.index)
  }

  /** Every path ends in its index and, with its terminator, fits the line buffer. */
  ghost predicate IndexedPaths(cs: seq<ChunkInfo>) {
    forall i | 0 <= i < |cs| :: IndexedPath(cs[i]) && |cs[i].path| <= 254
  }

  lemma AcceptedIsIndexed(read: seq<ChunkInfo>, cs: seq<ChunkInfo>)
    requires AllAccepted(read) && SameChunks(read, cs)
    ensures IndexedPaths(cs)
  {
    forall i | 0 <= i < |cs| ensures IndexedPath(cs[i]) && |cs[i].path| <= 254 {
      assert Accepted(read[i]) && read[i].path == cs[i].path && read[i].index == cs[i].index;
      PlaylistIndexIff(cs[i].path, cs[i].index);
    }
  }

  lemma IndexedIsGood(c: ChunkInfo)
    requires Fits(c) && IndexedPath(c) && |c.path| <= 254
    ensures Good(c) && PlaylistIndex(c.path) == Some(c.index)
  {
    hide PlaylistIndex, ChunkPath, IsSpace;
    PlaylistIndexIff(c.path, c.index);
    var word, g :| ChunkPath(c.path, word, g, c.index);
    PathIsPlain(c.path, word, g, c.index);
  }

  lemma PathIsPlain(path: string, word: string, g: string, index: nat)
    requires ChunkPath(path, word, g, index)
    ensures path != "" && '\n' !in path && '\0' !in path && !IsSpace(path[|path| - 1])
  {
    forall i | 0 <= i < |path| ensures path[i] != '\n' && path[i] != '\0' {
      if i < |word| {
        assert IsWordChar(word[i]) && path[i] == word[i];
      } else if i < |word + g| {
        assert IsDigit(g[i - |word|]) && path[i] == g[i - |word|];
      } else {
        assert path[i] == CHUNK_EXT[i - |word + g|];
      }
    }
  }

  lemma IndexedAreGood(cs: seq<ChunkInfo>)
    requires IndexedPaths(cs) && forall c | c in cs :: Fits(c)
    ensures AllGood(cs) && (forall c | c in cs :: Readable(c)) && SameChunks(ReadBackAll(cs), cs)
  {
    forall i | 0 <= i < |cs| ensures Good(cs[i]) && PlaylistIndex(cs[i].path) == Some(cs[i].index) {
      assert cs[i] in cs;
      IndexedIsGood(cs[i]);
    }
    AllGoodReadable(cs);
    hide PlaylistIndex, IndexedPath, FitsLine;
    forall i | 0 <= i < |cs| {
      CentisNear(cs[i].duration);
    }
  }

  lemma {:induction false} LinesEndInNewline(lines: seq<string>)
    requires lines != []
    ensures Lines(lines) != "" && Lines(lines)[|Lines(lines)| - 1] == '\n'
  {
    if lines[1..] != [] {
      LinesEndInNewline(lines[1..]);
    }
  }

  lemma HeaderTextEnds(first: nat, target: nat)
    ensures var header := HeaderText(first, target); header != "" && header[|header| - 1] == '\n'
  {
    LinesEndInNewline(HeaderLines(first, target));
  }

  /** Which written playlists are read back, and only those: the header numbers fit an int, there is a footer or a chunk,
      and every path ends in its index and has at most 254 characters. */
  lemma RoundTripIff(first: nat, target: nat, cs: seq<ChunkInfo>, finished: bool)
    requires first < UINT64_LIMIT && target < UINT64_LIMIT && forall c | c in cs :: Fits(c)
    ensures var r := ParseText(PlaylistText(first, target, cs, finished));
            && r.ok && r.list.mediaSequence == first && r.list.targetDuration == target && SameChunks(r.list.chunks, cs)
            <==> first < INT32_LIMIT && target < INT32_LIMIT && (finished || cs != []) && IndexedPaths(cs)
  {
    var t := PlaylistText(first, target, cs, finished);
    var header, rest := HeaderText(first, target), ChunksText(cs) + Tail(finished);
    HeaderKeepsChunks(t, 0, EmptyPlaylist);
    hide HeaderLine, ParseHeaderFrom, HeaderText, ReadBackAll, SameChunks, IndexedPaths, AllAccepted, AllGood, Readable;
    assert t == header + rest;
    ParseWrittenHeader(t, first, target, rest);
    HeaderTextEnds(first, target);
    if SameChunks(ParseText(t).list.chunks, cs) {
      AcceptedIsIndexed(ParseText(t).list.chunks, cs);
    }
    if first < INT32_LIMIT && target < INT32_LIMIT && IndexedPaths(cs) {
      var body := |header|;
      assert t[body..] == rest && t[body - 1] == header[body - 1];
      IndexedAreGood(cs);
      ParseBody(t, body, cs, finished, Playlist(3, true, first, target, []));
    }
  }
}
