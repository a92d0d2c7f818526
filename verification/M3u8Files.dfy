/** The playlist writer and the stateful reader, working on open files. */
module M3u8Files {
  import opened Wrappers
  import opened Decimal
  import opened Names
  import opened ChunkInfos
  import opened M3u8
  import opened Sequences

  class M3u8Writer {
    var file: string

    constructor ()
      ensures file == ""
    {
      file := "";
    }

    method WriteHeader(firstIndex: nat, targetDuration: nat)
      modifies this
      ensures file == old(file) + HeaderText(firstIndex, targetDuration)
      ensures file == old(file) + ("#EXTM3U\n#EXT-X-MEDIA-SEQUENCE:" + Show(firstIndex)
                                   + ("\n#EXT-X-ALLOW-CACHE:YES\n#EXT-X-VERSION:3\n#EXT-X-TARGETDURATION:"
                                      + Show(targetDuration) + "\n"))
    {
      hide *;
      HeaderTextIs(firstIndex, targetDuration);
      file := file + ("#EXTM3U\n#EXT-X-MEDIA-SEQUENCE:" + Show(firstIndex)
                      + ("\n#EXT-X-ALLOW-CACHE:YES\n#EXT-X-VERSION:3\n#EXT-X-TARGETDURATION:"
                         + Show(targetDuration) + "\n"));
    }

    method WriteLine(chunk: ChunkInfo)
      modifies this
      ensures file == old(file) + ChunkText(chunk)
      ensures file == old(file) + ("#EXTINF:" + ShowCentis(Centis(chunk.duration)) + ",\n" + chunk.path + "\n")
    {
      hide *;
      ChunkTextIs(chunk);
      var centis := Centis(chunk.duration);
      file := file + ("#EXTINF:" + ShowCentis(centis) + ",\n" + chunk.path + "\n");
    }

    method WriteFooter()
      modifies this
      ensures file == old(file) + "#EXT-X-ENDLIST" && M3U8_FOOTER == "#EXT-X-ENDLIST"
    {
      file := file + "#EXT-X-ENDLIST";
    }

    /** The writer's calls for one playlist; without the footer the list is still being recorded. */
    method WritePlaylist(firstIndex: nat, targetDuration: nat, chunks: seq<ChunkInfo>, finished: bool)
      modifies this
      ensures file == old(file) + PlaylistText(firstIndex, targetDuration, chunks, finished)
    {
      hide HeaderText, ChunkText, ShowCentis, Centis, Show;
      ghost var before := file;
      ghost var header := HeaderText(firstIndex, targetDuration);
      WriteHeader(firstIndex, targetDuration);
      for i := 0 to |chunks|
        invariant file == before + (header + ChunksText(chunks[..i]))
      {
        ghost var done := ChunksText(chunks[..i]);
        WriteLine(chunks[i]);
        Reassociate(before, header + done, ChunkText(chunks[i]));
        Reassociate(header, done, ChunkText(chunks[i]));
        ChunksTextAppend(chunks[..i], chunks[i]);
        assert chunks[..i + 1] == chunks[..i] + [chunks[i]];
      }
      assert chunks[..|chunks|] == chunks;
      if finished {
        WriteFooter();
        Reassociate(before, header + ChunksText(chunks), M3U8_FOOTER);
        Reassociate(header, ChunksText(chunks), M3U8_FOOTER);
      }
    }
  }

  /** An open text file: its contents and the position of the next read. */
  class TextFile {
    const text: string
    var pos: nat

    ghost predicate Valid()
      reads this
    {
      pos <= |text|
    }

    constructor (text: string)
      ensures Valid() && this.text == text && pos == 0
    {
      this.text := text;
      pos := 0;
    }

    /** fgets(t, max, file). */
    method Gets(max: nat) returns (line: Option<string>)
      requires Valid() && max > 1
      modifies this
      ensures Valid()
      ensures old(pos) == |text| ==> line == None && pos == old(pos)
      ensures old(pos) < |text| ==> pos == GetsEnd(text, old(pos), max - 1) && line == Some(text[old(pos)..pos])
    {
      if pos == |text| {
        return None;
      }
      var e := GetsEnd(text, pos, max - 1);
      line := Some(text[pos..e]);
      pos := e;
    }

    /** fseek(file, off, SEEK_SET). */
    method Seek(off: int)
      requires Valid() && off <= |text|
      modifies this
      ensures Valid() && pos == if off >= 0 then off else old(pos)
    {
      if off >= 0 {
        pos := off;
      }
    }
  }

  method GetNonEmptyLine(file: TextFile) returns (line: Option<string>)
    requires file.Valid()
    modifies file
    ensures file.Valid()
    ensures match NextLine(file.text, old(file.pos))
            case None => line == None && file.pos == |file.text|
            case Some(at) => line == Some(at.line) && file.pos == at.next
  {
    while true
      invariant file.Valid()
      invariant NextLine(file.text, file.pos) == NextLine(file.text, old(file.pos))
      decreases |file.text| - file.pos
    {
      var t := file.Gets(MAX_LINE);
      if t == None {
        return None;
      }
      var s := CString(t.value);
      if HasInk(s) {
        return Some(s);
      }
    }
  }

  /** Removes the trailing white space; the string has a visible character, so it never runs empty. */
  method RemoveTrailingSpaces(str: string) returns (r: string)
    requires HasInk(str)
    ensures r == TrimRight(str) && r != ""
  {
    r := str;
    var i :| 0 <= i < |str| && !IsSpace(str[i]);
    while IsSpace(r[|r| - 1])
      invariant i < |r| && r <= str
      invariant TrimRight(r) == TrimRight(str)
      decreases |r|
    {
      r := r[..|r| - 1];
    }
  }

  datatype HeaderKind = Field | BadField | Body

  class M3u8Reader {
    var version: int
    var allowCache: bool
    var mediaSequence: int
    var targetDuration: int
    var chunks: seq<ChunkInfo>

    ghost function List(): Playlist
      reads this
    {
      Playlist(version, allowCache, mediaSequence, targetDuration, chunks)
    }

    constructor ()
      ensures List() == EmptyPlaylist
    {
      version, allowCache, mediaSequence, targetDuration, chunks := -1, false, -1, -1, [];
    }

    method Clear()
      modifies this
      ensures List() == EmptyPlaylist
    {
      version, allowCache, mediaSequence, targetDuration, chunks := -1, false, -1, -1, [];
    }

    /** The chain of tests on a trimmed header line, updating the field it carries. */
    method HandleHeaderLine(line: string) returns (kind: HeaderKind)
      modifies this
      ensures match HeaderLine(line, old(List()))
              case Updated(p) => kind == Field && List() == p
              case Malformed => kind == BadField && List() == old(List())
              case NotHeader => kind == Body && List() == old(List())
    {
      if line == M3U8_HEADER {
        return Field;
      } else if NumberField(line, M3U8_VERSION) {
        var n := Parse(line[|M3U8_VERSION|..], INT32_LIMIT);
        if n == None {
          return BadField;
        }
        version := n.value;
      } else if CapitalsField(line, M3U8_ALLOW_CACHE) {
        var allow := line[|M3U8_ALLOW_CACHE|..];
        if allow == "YES" {
          allowCache := true;
        } else if allow == "NO" {
          allowCache := false;
        } else {
          return BadField;
        }
      } else if NumberField(line, M3U8_MEDIA_SEQUENCE) {
        var n := Parse(line[|M3U8_MEDIA_SEQUENCE|..], INT32_LIMIT);
        if n == None {
          return BadField;
        }
        mediaSequence := n.value;
      } else if NumberField(line, M3U8_TARGET_DURATION) {
        var n := Parse(line[|M3U8_TARGET_DURATION|..], INT32_LIMIT);
        if n == None {
          return BadField;
        }
        targetDuration := n.value;
      } else {
        return Body;
      }
      return Field;
    }

    /** A file that could not be opened is null. */
    method ParseFile(file: TextFile?) returns (ok: bool)
      requires file != null ==> file.Valid() && file.pos == 0
      modifies this, file
      ensures file == null ==> !ok && List() == EmptyPlaylist
      ensures file != null ==> ParseResult(ok, List()) == ParseText(file.text)
    {
      Clear();
      if file == null {
        return false;
      }
      ok := ParseHeader(file);
    }

    method ParseHeader(file: TextFile) returns (ok: bool)
      requires file.Valid()
      modifies this, file
      ensures ParseResult(ok, List()) == ParseHeaderFrom(file.text, old(file.pos), old(List()))
    {
      ghost var result := ParseHeaderFrom(file.text, file.pos, List());
      while true
        invariant file.Valid()
        invariant ParseHeaderFrom(file.text, file.pos, List()) == result
        decreases |file.text| - file.pos
      {
        var next := GetNonEmptyLine(file);
        if next == None {
          return false;
        }
        var line := RemoveTrailingSpaces(next.value);
        var kind := HandleHeaderLine(line);
        if kind == BadField {
          return false;
        } else if kind == Body {
          var off := file.pos;
          file.Seek(off - |line| - 1);
          ok := ParseChunks(file);
          return;
        }
      }
    }

    method ParseChunks(file: TextFile) returns (ok: bool)
      requires file.Valid()
      modifies this, file
      ensures ParseResult(ok, List()) == ParseChunksFrom(file.text, old(file.pos), old(List()))
    {
      ghost var result := ParseChunksFrom(file.text, file.pos, List());
      while true
        invariant file.Valid()
        invariant ParseChunksFrom(file.text, file.pos, List()) == result
        decreases |file.text| - file.pos
      {
        var first := GetNonEmptyLine(file);
        if first == None {
          return chunks != [];
        }
        var headerLine := RemoveTrailingSpaces(first.value);
        if headerLine == M3U8_FOOTER {
          return true;
        }
        var second := GetNonEmptyLine(file);
        if second == None {
          return false;
        }
        var chunkLine := RemoveTrailingSpaces(second.value);
        var duration := ChunkHeaderNanos(headerLine);
        if duration == None {
          return false;
        }
        var index := PlaylistIndex(chunkLine);
        if index == None {
          return false;
        }
        chunks := chunks + [ChunkInfo(chunkLine, duration.value, index.value)];
      }
    }
  }
}
