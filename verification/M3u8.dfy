/** The HLS playlist text, and what its reader makes of any text. */
module M3u8 {
  import opened Wrappers
  import opened Decimal
  import opened Names
  import opened ChunkInfos
  import opened Sequences

  // Writing

  const M3U8_HEADER := "#EXTM3U"
  const M3U8_VERSION := "#EXT-X-VERSION:"
  const M3U8_ALLOW_CACHE := "#EXT-X-ALLOW-CACHE:"
  const M3U8_MEDIA_SEQUENCE := "#EXT-X-MEDIA-SEQUENCE:"
  const M3U8_TARGET_DURATION := "#EXT-X-TARGETDURATION:"
  const M3U8_CHUNK_HEADER := "#EXTINF:"
  const M3U8_FOOTER := "#EXT-X-ENDLIST"

  function Line(s: string): string {
    s + "\n"
  }

  function Lines(lines: seq<string>): string {
    if lines == [] then "" else Line(lines[0]) + Lines(lines[1..])
  }

  function HeaderLines(firstIndex: nat, targetDuration: nat): seq<string> {
    [M3U8_HEADER, M3U8_MEDIA_SEQUENCE + Show(firstIndex), M3U8_ALLOW_CACHE + "YES", M3U8_VERSION + "3",
     M3U8_TARGET_DURATION + Show(targetDuration)]
  }

  function HeaderText(firstIndex: nat, targetDuration: nat): string {
    Lines(HeaderLines(firstIndex, targetDuration))
  }

  const CENTI: nat := SECOND / 100

  /** Hundredths of a second nearest to a duration, ties to even as printf rounds them. */
  function Centis(duration: nat): nat {
    var q, r := duration / CENTI, duration % CENTI;
    if 2 * r < CENTI || (2 * r == CENTI && q % 2 == 0) then q else q + 1
  }

  /** "%.2f" of a number of hundredths. */
  function ShowCentis(h: nat): string {
    Show(h / 100) + "." + [DigitOf(h / 10 % 10)] + [DigitOf(h % 10)]
  }

  function ChunkHeader(c: ChunkInfo): string {
    M3U8_CHUNK_HEADER + ShowCentis(Centis(c.duration)) + ","
  }

  function ChunkText(c: ChunkInfo): string {
    Line(ChunkHeader(c)) + Line(c.path)
  }

  function ChunksText(cs: seq<ChunkInfo>): string {
    if cs == [] then "" else ChunkText(cs[0]) + ChunksText(cs[1..])
  }

  /** A whole playlist; without the footer it is still being recorded. */
  function PlaylistText(firstIndex: nat, targetDuration: nat, chunks: seq<ChunkInfo>, finished: bool): string {
    HeaderText(firstIndex, targetDuration) + (ChunksText(chunks) + if finished then M3U8_FOOTER else "")
  }

  lemma {:induction false} ChunksTextAppend(cs: seq<ChunkInfo>, c: ChunkInfo)
    ensures ChunksText(cs + [c]) == ChunksText(cs) + ChunkText(c)
  {
    if cs == [] {
      assert [c][1..] == [];
    } else {
      ChunksTextAppend(cs[1..], c);
      assert (cs + [c])[1..] == cs[1..] + [c];
      Reassociate(ChunkText(cs[0]), ChunksText(cs[1..]), ChunkText(c));
    }
  }

  // Lines, as fgets and the blank-line filter deliver them

  const MAX_LINE: nat := 255

  predicate IsSpace(c: char) {
    c == ' ' || '\t' <= c <= '\r'
  }

  /** The white space of C: tab, newline, vertical tab, form feed, carriage return and the space. */
  lemma SpacesAre(c: char)
    ensures IsSpace(c) <==> c as int in {9, 10, 11, 12, 13, 32}
  {
  }

  predicate HasInk(s: string) {
    exists i | 0 <= i < |s| :: !IsSpace(s[i])
  }

  /** Where fgets stops when it may still take n characters. */
  function GetsEnd(t: string, pos: nat, n: nat): (e: nat)
    requires pos <= |t|
    ensures pos <= e <= |t| && (n > 0 && pos < |t| ==> pos < e)
    decreases n
  {
    if pos == |t| || n == 0 then pos
    else if t[pos] == '\n' then pos + 1
    else GetsEnd(t, pos + 1, n - 1)
  }

  /** The C string in a buffer ends at the first NUL. */
  function CString(s: string): string {
    s[..IndexOf(s, '\0')]
  }

  datatype LineAt = LineAt(line: string, next: nat)

  function NextLine(t: string, pos: nat): (r: Option<LineAt>)
    requires pos <= |t|
    ensures r.Some? ==> pos < r.value.next <= |t| && HasInk(r.value.line)
    decreases |t| - pos
  {
    if pos == |t| then None else
      var e := GetsEnd(t, pos, MAX_LINE - 1);
      var s := CString(t[pos..e]);
      if HasInk(s) then Some(LineAt(s, e)) else NextLine(t, e)
  }

  function TrimRight(s: string): (r: string)
    ensures r <= s && (r != "" ==> !IsSpace(r[|r| - 1]))
  {
    if s != "" && IsSpace(s[|s| - 1]) then TrimRight(s[..|s| - 1]) else s
  }

  // Parsing

  datatype Playlist = Playlist(version: int, allowCache: bool, mediaSequence: int, targetDuration: int,
                               chunks: seq<ChunkInfo>)

  const EmptyPlaylist := Playlist(-1, false, -1, -1, [])

  datatype ParseResult = ParseResult(ok: bool, list: Playlist)

  predicate NumberField(line: string, key: string) {
    key <= line && line != key && AllDigits(line[|key|..])
  }

  predicate CapitalsField(line: string, key: string) {
    key <= line && line != key && forall i | |key| <= i < |line| :: 'A' <= line[i] <= 'Z'
  }

  datatype HeaderStep = Updated(list: Playlist) | Malformed | NotHeader

  /** One pass of the header loop over a trimmed line. */
  function HeaderLine(line: string, p: Playlist): HeaderStep {
    if line == M3U8_HEADER then Updated(p)
    else if NumberField(line, M3U8_VERSION) then
      match Parse(line[|M3U8_VERSION|..], INT32_LIMIT)
      case Some(n) => Updated(p.(version := n))
      case None => Malformed
    else if CapitalsField(line, M3U8_ALLOW_CACHE) then
      if line[|M3U8_ALLOW_CACHE|..] == "YES" then Updated(p.(allowCache := true))
      else if line[|M3U8_ALLOW_CACHE|..] == "NO" then Updated(p.(allowCache := false))
      else Malformed
    else if NumberField(line, M3U8_MEDIA_SEQUENCE) then
      match Parse(line[|M3U8_MEDIA_SEQUENCE|..], INT32_LIMIT)
      case Some(n) => Updated(p.(mediaSequence := n))
      case None => Malformed
    else if NumberField(line, M3U8_TARGET_DURATION) then
      match Parse(line[|M3U8_TARGET_DURATION|..], INT32_LIMIT)
      case Some(n) => Updated(p.(targetDuration := n))
      case None => Malformed
    else NotHeader
  }

  /** fseek(file, off - length - 1): a negative target fails and leaves the position alone. */
  function SeekBack(off: nat, length: nat): (pos: nat)
    ensures pos <= off
  {
    if off >= length + 1 then off - length - 1 else off
  }

  predicate DecimalChars(s: string) {
    s != "" && forall i | 0 <= i < |s| :: IsDigit(s[i]) || s[i] == '.'
  }

  /** Nanoseconds of a decimal number of seconds; more than one dot or no digit at all is no number. */
  function ParseNanos(s: string): Option<nat> {
    var k := IndexOf(s, '.');
    var frac := if k < |s| then s[k + 1..] else "";
    if AllDigits(s[..k]) && AllDigits(frac) && s[..k] + frac != "" then
      Some(Value(s[..k] + frac) * SECOND / Pow10(|frac|))
    else None
  }

  /** ^#EXTINF:([0-9.]+),$ and the conversion of its number. */
  function ChunkHeaderNanos(line: string): Option<nat> {
    var n := |M3U8_CHUNK_HEADER|;
    if M3U8_CHUNK_HEADER <= line && n + 1 < |line| && line[|line| - 1] == ',' && DecimalChars(line[n..|line| - 1]) then
      ParseNanos(line[n..|line| - 1])
    else None
  }

  function ParseChunksFrom(t: string, pos: nat, p: Playlist): ParseResult
    requires pos <= |t|
    decreases |t| - pos
  {
    match NextLine(t, pos)
    case None => ParseResult(p.chunks != [], p)
    case Some(first) =>
      var headerLine := TrimRight(first.line);
      if headerLine == M3U8_FOOTER then ParseResult(true, p) else
        match NextLine(t, first.next)
        case None => ParseResult(false, p)
        case Some(second) =>
          var chunkLine := TrimRight(second.line);
          var duration, index := ChunkHeaderNanos(headerLine), PlaylistIndex(chunkLine);
          if duration == None || index == None then ParseResult(false, p) else
            var c := ChunkInfo(chunkLine, duration.value, index.value);
            ParseChunksFrom(t, second.next, p.(chunks := p.chunks + [c]))
  }

  function ParseHeaderFrom(t: string, pos: nat, p: Playlist): ParseResult
    requires pos <= |t|
    decreases |t| - pos
  {
    match NextLine(t, pos)
    case None => ParseResult(false, p)
    case Some(at) =>
      var line := TrimRight(at.line);
      match HeaderLine(line, p)
      case Updated(p') => ParseHeaderFrom(t, at.next, p')
      case Malformed => ParseResult(false, p)
      case NotHeader => ParseChunksFrom(t, SeekBack(at.next, |line|), p)
  }

  function ParseText(t: string): ParseResult {
    ParseHeaderFrom(t, 0, EmptyPlaylist)
  }

  // The formats, letter by letter

  lemma HeaderStarts(g: string, rest: string)
    ensures Line("#EXTM3U") + (Line("#EXT-X-MEDIA-SEQUENCE:" + g) + rest)
            == "#EXTM3U\n#EXT-X-MEDIA-SEQUENCE:" + g + ("\n" + rest)
  {
    var a, b := "#EXTM3U" + "\n", "#EXT-X-MEDIA-SEQUENCE:";
    assert a + b == "#EXTM3U\n#EXT-X-MEDIA-SEQUENCE:";
    assert a + ((b + g + "\n") + rest) == (a + b) + g + ("\n" + rest);
  }

  lemma CacheLine()
    ensures "\n" + Line("#EXT-X-ALLOW-CACHE:" + "YES") == "\n#EXT-X-ALLOW-CACHE:YES\n"
  {
  }

  lemma CacheAndVersion()
    ensures "\n#EXT-X-ALLOW-CACHE:YES\n" + Line("#EXT-X-VERSION:" + "3")
            == "\n#EXT-X-ALLOW-CACHE:YES\n#EXT-X-VERSION:3\n"
  {
  }

  lemma HeaderEnds(g: string)
    ensures "\n#EXT-X-ALLOW-CACHE:YES\n#EXT-X-VERSION:3\n" + Line("#EXT-X-TARGETDURATION:" + g)
            == "\n#EXT-X-ALLOW-CACHE:YES\n#EXT-X-VERSION:3\n#EXT-X-TARGETDURATION:" + g + "\n"
  {
    assert "\n#EXT-X-ALLOW-CACHE:YES\n#EXT-X-VERSION:3\n" + "#EXT-X-TARGETDURATION:"
           == "\n#EXT-X-ALLOW-CACHE:YES\n#EXT-X-VERSION:3\n#EXT-X-TARGETDURATION:";
  }

  lemma FiveLines(a: string, b: string, c: string, d: string, e: string)
    ensures Lines([a, b, c, d, e]) == Line(a) + (Line(b) + (Line(c) + (Line(d) + Line(e))))
  {
    hide Line;
    assert Lines([e]) == Line(e) by { assert [e][1..] == [] && Line(e) + "" == Line(e); }
    assert Lines([d, e]) == Line(d) + Line(e) by { assert [d, e][1..] == [e]; }
    assert Lines([c, d, e]) == Line(c) + (Line(d) + Line(e)) by { assert [c, d, e][1..] == [d, e]; }
    assert Lines([b, c, d, e]) == Line(b) + (Line(c) + (Line(d) + Line(e))) by {
      assert [b, c, d, e][1..] == [c, d, e];
    }
    assert [a, b, c, d, e][1..] == [b, c, d, e];
  }

  /** The header of every playlist. */
  lemma HeaderTextIs(firstIndex: nat, targetDuration: nat)
    ensures HeaderText(firstIndex, targetDuration)
            == "#EXTM3U\n#EXT-X-MEDIA-SEQUENCE:" + Show(firstIndex)
               + ("\n#EXT-X-ALLOW-CACHE:YES\n#EXT-X-VERSION:3\n#EXT-X-TARGETDURATION:" + Show(targetDuration) + "\n")
  {
    var cache, version, last :=
      Line("#EXT-X-ALLOW-CACHE:" + "YES"), Line("#EXT-X-VERSION:" + "3"),
      Line("#EXT-X-TARGETDURATION:" + Show(targetDuration));
    assert HeaderText(firstIndex, targetDuration)
           == Line("#EXTM3U") + (Line("#EXT-X-MEDIA-SEQUENCE:" + Show(firstIndex)) + (cache + (version + last))) by {
      hide Line, Lines, Show;
      FiveLines("#EXTM3U", "#EXT-X-MEDIA-SEQUENCE:" + Show(firstIndex), "#EXT-X-ALLOW-CACHE:" + "YES",
                "#EXT-X-VERSION:" + "3", "#EXT-X-TARGETDURATION:" + Show(targetDuration));
    }
    hide *;
    var start := "#EXTM3U\n#EXT-X-MEDIA-SEQUENCE:" + Show(firstIndex);
    HeaderStarts(Show(firstIndex), cache + (version + last));
    assert HeaderText(firstIndex, targetDuration) == start + ("\n" + (cache + (version + last)));
    Reassociate("\n", cache, version + last);
    Reassociate("\n" + cache, version, last);
    CacheLine();
    CacheAndVersion();
    HeaderEnds(Show(targetDuration));
    var end := "\n#EXT-X-ALLOW-CACHE:YES\n#EXT-X-VERSION:3\n#EXT-X-TARGETDURATION:" + Show(targetDuration) + "\n";
    assert "\n" + (cache + (version + last)) == end;
    assert HeaderText(firstIndex, targetDuration) == start + end;
  }

  lemma ChunkTextIs(c: ChunkInfo)
    ensures ChunkText(c) == "#EXTINF:" + ShowCentis(Centis(c.duration)) + ",\n" + c.path + "\n"
  {
    hide ShowCentis, Centis;
    var n := ShowCentis(Centis(c.duration));
    assert ",\n" == "," + "\n";
    assert ("#EXTINF:" + n + "," + "\n") + (c.path + "\n") == "#EXTINF:" + n + ("," + "\n") + c.path + "\n";
  }

  // Header lines: the reader's regular expressions

  predicate Digits(g: string) {
    g != "" && AllDigits(g)
  }

  predicate Capitals(g: string) {
    g != "" && forall i | 0 <= i < |g| :: 'A' <= g[i] <= 'Z'
  }

  lemma FieldOf(key: string, g: string)
    ensures key <= key + g && (key + g)[|key|..] == g
    ensures NumberField(key + g, key) <==> Digits(g)
    ensures CapitalsField(key + g, key) <==> Capitals(g)
  {
    var line := key + g;
    assert line[|key|..] == g;
    assert forall i | 0 <= i < |g| :: line[|key| + i] == g[i];
    assert forall i | |key| <= i < |line| :: line[i] == g[i - |key|];
  }

  /** A key that differs somewhere is no match. */
  lemma OtherKey(line: string, key: string, i: nat)
    requires i < |key| && (i < |line| ==> line[i] != key[i])
    ensures line != key && !NumberField(line, key) && !CapitalsField(line, key)
  {
  }

  lemma ParsesAs(g: string)
    requires Digits(g)
    ensures Parse(g, INT32_LIMIT) == if Value(g) < 0x8000_0000 then Some(Value(g)) else None
  {
  }

  lemma ReadsHeader(p: Playlist)
    ensures HeaderLine("#EXTM3U", p) == Updated(p)
  {
  }

  lemma ReadsVersion(g: string, p: Playlist)
    requires Digits(g)
    ensures HeaderLine("#EXT-X-VERSION:" + g, p)
            == if Value(g) < 0x8000_0000 then Updated(p.(version := Value(g))) else Malformed
  {
    var line := "#EXT-X-VERSION:" + g;
    assert line[4] == '-';
    OtherKey(line, M3U8_HEADER, 4);
    FieldOf(M3U8_VERSION, g);
    ParsesAs(g);
    hide NumberField, CapitalsField, Parse, Digits, Capitals, AllDigits;
  }

  lemma ReadsAllowCache(g: string, p: Playlist)
    requires Capitals(g)
    ensures HeaderLine("#EXT-X-ALLOW-CACHE:" + g, p)
            == if g == "YES" then Updated(p.(allowCache := true))
               else if g == "NO" then Updated(p.(allowCache := false)) else Malformed
  {
    var line := "#EXT-X-ALLOW-CACHE:" + g;
    assert line[4] == '-' && line[7] == 'A';
    OtherKey(line, M3U8_HEADER, 4);
    OtherKey(line, M3U8_VERSION, 7);
    FieldOf(M3U8_ALLOW_CACHE, g);
    hide NumberField, CapitalsField, Parse, Digits, Capitals, AllDigits;
  }

  lemma ReadsMediaSequence(g: string, p: Playlist)
    requires Digits(g)
    ensures HeaderLine("#EXT-X-MEDIA-SEQUENCE:" + g, p)
            == if Value(g) < 0x8000_0000 then Updated(p.(mediaSequence := Value(g))) else Malformed
  {
    var line := "#EXT-X-MEDIA-SEQUENCE:" + g;
    assert line[4] == '-' && line[7] == 'M';
    OtherKey(line, M3U8_HEADER, 4);
    OtherKey(line, M3U8_VERSION, 7);
    OtherKey(line, M3U8_ALLOW_CACHE, 7);
    FieldOf(M3U8_MEDIA_SEQUENCE, g);
    ParsesAs(g);
    hide NumberField, CapitalsField, Parse, Digits, Capitals, AllDigits;
  }

  lemma ReadsTargetDuration(g: string, p: Playlist)
    requires Digits(g)
    ensures HeaderLine("#EXT-X-TARGETDURATION:" + g, p)
            == if Value(g) < 0x8000_0000 then Updated(p.(targetDuration := Value(g))) else Malformed
  {
    var line := "#EXT-X-TARGETDURATION:" + g;
    assert line[4] == '-' && line[7] == 'T';
    OtherKey(line, M3U8_HEADER, 4);
    OtherKey(line, M3U8_VERSION, 7);
    OtherKey(line, M3U8_ALLOW_CACHE, 7);
    OtherKey(line, M3U8_MEDIA_SEQUENCE, 7);
    FieldOf(M3U8_TARGET_DURATION, g);
    ParsesAs(g);
    hide NumberField, CapitalsField, Parse, Digits, Capitals, AllDigits;
  }

  lemma FieldIs(line: string, key: string)
    ensures NumberField(line, key) ==> exists g :: Digits(g) && line == key + g
    ensures CapitalsField(line, key) ==> exists g :: Capitals(g) && line == key + g
  {
    if key <= line {
      var g := line[|key|..];
      assert line == key + g;
      FieldOf(key, g);
    }
  }

  /** Any other line ends the header. */
  lemma OtherLineEndsHeader(line: string, p: Playlist)
    requires line != "#EXTM3U"
    requires forall g | Capitals(g) :: line != "#EXT-X-ALLOW-CACHE:" + g
    requires forall g | Digits(g) ::
               line != "#EXT-X-VERSION:" + g && line != "#EXT-X-MEDIA-SEQUENCE:" + g && line != "#EXT-X-TARGETDURATION:" + g
    ensures HeaderLine(line, p) == NotHeader
  {
    FieldIs(line, "#EXT-X-VERSION:");
    FieldIs(line, "#EXT-X-ALLOW-CACHE:");
    FieldIs(line, "#EXT-X-MEDIA-SEQUENCE:");
    FieldIs(line, "#EXT-X-TARGETDURATION:");
    hide NumberField, CapitalsField, Parse, Digits, Capitals;
  }

  /** The line before a chunk's path: the text between key and comma is the duration. */
  lemma ReadsChunkHeader(g: string)
    requires DecimalChars(g)
    ensures ChunkHeaderNanos("#EXTINF:" + g + ",") == ParseNanos(g)
  {
    var line := "#EXTINF:" + g + ",";
    assert line == "#EXTINF:" + (g + ",");
    assert line[8..|line| - 1] == g;
    hide ParseNanos, DecimalChars;
  }

  lemma ChunkHeaderIs(line: string)
    ensures ChunkHeaderNanos(line).Some? ==> exists g :: DecimalChars(g) && line == "#EXTINF:" + g + ","
  {
    if ChunkHeaderNanos(line).Some? {
      var g := line[8..|line| - 1];
      assert line[..8] == "#EXTINF:" && line[|line| - 1..] == ",";
      assert line == line[..8] + g + line[|line| - 1..];
    }
  }

  /** Any other line is none. */
  lemma OtherChunkHeader(line: string)
    requires forall g | DecimalChars(g) :: line != "#EXTINF:" + g + ","
    ensures ChunkHeaderNanos(line) == None
  {
    ChunkHeaderIs(line);
  }
}
