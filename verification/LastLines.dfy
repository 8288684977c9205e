/**
 LastLines: reads a file backwards, a buffer at a time, and collects its last lines.  The buffer size is a
 parameter; the result does not depend on it.
 */
module LastLines {
  import opened Wrappers
  import opened ByteStrings
  import opened Lines
  import opened WhiteSpace

  /** A byte taken as a code point, not as part of an encoding. */
  function Text(bytes: Bytes): (s: string)
    ensures |s| == |bytes| && forall i :: 0 <= i < |s| ==> s[i] == bytes[i] as char
  {
    seq(|bytes|, i requires 0 <= i < |bytes| => bytes[i] as char)
  }

  /** Which of the operations on a file fail, by their number, and with what. */
  type Faults = nat -> Option<string>

  ghost predicate Fails(fails: Faults, what: string) { exists n: nat :: fails(n) == Some(what) }

  /** The operations from number `n` up to number `m` did not fail. */
  ghost predicate AllWork(fails: Faults, n: nat, m: nat) { forall k: nat :: n <= k < m ==> fails(k).None? }

  lemma WorkOn(fails: Faults, n: nat, m: nat, l: nat)
    requires AllWork(fails, n, m) && AllWork(fails, m, l)
    ensures AllWork(fails, n, l)
  {
  }

  lemma StatWorks(fails: Faults)
    requires AllWork(fails, 0, 1) && fails(1).None?
    ensures AllWork(fails, 0, 2)
  {
  }

  lemma WorkNone(fails: Faults, n: nat)
    ensures AllWork(fails, n, n)
  {
  }

  lemma FailsAt(fails: Faults, n: nat, what: string)
    requires fails(n) == Some(what)
    ensures Fails(fails, what)
  {
  }

  /** An open file that is read only. */
  class Handle {
    const data: Bytes
    const fails: Faults
    var offset: nat
    var ops: nat

    constructor (bytes: Bytes, fails: Faults, ops: nat)
      ensures data == bytes && this.fails == fails && offset == 0 && this.ops == ops
    {
      data, this.fails, offset, this.ops := bytes, fails, 0, ops;
    }

    method Stat() returns (r: Result<nat, string>)
      modifies this
      ensures offset == old(offset) && ops == old(ops) + 1
      ensures r == match fails(old(ops)) case Some(w) => Err(w) case None => Ok(|data|)
    {
      var err := fails(ops);
      ops := ops + 1;
      return if err.Some? then Err(err.value) else Ok(|data|);
    }

    /** Moves to `cursor` counted from the end; a position before the start is an error. */
    method SeekEnd(cursor: int) returns (r: Result<nat, string>)
      modifies this
      ensures ops == old(ops) + 1
      ensures r.Err? ==> fails(old(ops)) == Some(r.error) || |data| + cursor < 0
      ensures r.Ok? ==> fails(old(ops)).None? && r.value == |data| + cursor && offset == r.value
    {
      var err := fails(ops);
      ops := ops + 1;
      if err.Some? { return Err(err.value); }
      if |data| + cursor < 0 { return Err("invalid argument"); }
      offset := |data| + cursor;
      return Ok(offset);
    }

    /** Fills the buffer as far as the file goes; nothing to read into a non-empty buffer is the end of file. */
    method Read(buffer: array<Byte>) returns (r: Result<nat, string>)
      modifies this, buffer
      ensures ops == old(ops) + 1
      ensures r.Err? ==> fails(old(ops)) == Some(r.error) || (buffer.Length > 0 && old(offset) >= |data|)
      ensures r.Ok? ==> r.value == if old(offset) + buffer.Length <= |data| then buffer.Length
                                   else if old(offset) <= |data| then |data| - old(offset) else 0
      ensures r.Ok? && r.value > 0 ==> buffer[..r.value] == data[old(offset)..old(offset) + r.value]
      ensures r.Ok? ==> fails(old(ops)).None? && offset == old(offset) + r.value
    {
      var err := fails(ops);
      ops := ops + 1;
      if err.Some? { return Err(err.value); }
      if buffer.Length > 0 && offset >= |data| { return Err("EOF"); }
      var n := 0;
      while n < buffer.Length && offset + n < |data|
        invariant offset == old(offset) && ops == old(ops) + 1
        invariant n <= buffer.Length && (n > 0 ==> offset + n <= |data|)
        invariant forall k :: 0 <= k < n ==> buffer[k] == data[offset + k]
      {
        buffer[n] := data[offset + n];
        n := n + 1;
      }
      offset := offset + n;
      return Ok(n);
    }
  }

  /** Seeks and reads.  Inside the file a read fills the buffer, and nothing fails but what fails by itself. */
  method ReadAt(h: Handle, cursor: int, buffer: array<Byte>) returns (r: Result<(nat, nat), string>)
    requires 0 <= |h.data| + cursor && cursor + buffer.Length <= 0
    modifies h, buffer
    ensures r.Err? ==> Fails(h.fails, r.error)
    ensures r.Ok? ==> h.ops == old(h.ops) + 2 && AllWork(h.fails, old(h.ops), h.ops)
    ensures r.Ok? ==>
              var start := |h.data| + cursor;
              r.value == (start, buffer.Length) && buffer[..] == h.data[start..start + buffer.Length]
  {
    ghost var n := h.ops;
    var sought := h.SeekEnd(cursor);
    if sought.Err? {
      FailsAt(h.fails, n, sought.error);
      return Err(sought.error);
    }
    n := h.ops;
    var got := h.Read(buffer);
    if got.Err? {
      FailsAt(h.fails, n, got.error);
      return Err(got.error);
    }
    return Ok((sought.value, got.value));
  }

  /** Opens a file by name. */
  method Open(files: map<string, Bytes>, fails: Faults, file: string) returns (r: Result<Handle, string>)
    ensures r.Err? ==> Fails(fails, r.error) || file !in files
    ensures r.Ok? ==> fresh(r.value) && file in files && r.value.data == files[file] && r.value.fails == fails
    ensures r.Ok? ==> r.value.ops == 1 && AllWork(fails, 0, 1)
  {
    if fails(0).Some? { return Err(fails(0).value); }
    if file !in files { return Err("no such file"); }
    var h := new Handle(files[file], fails, 1);
    return Ok(h);
  }

  // ---------- one backward pass ----------

  /** The lines of `u` after its first one that pass the filter, as they are shown. */
  function Later(u: string, skipEmpty: bool, noCrlf: bool): seq<string> {
    var p := Split(u);
    if p.lines == [] then [] else ShownAll(Filtered(p.lines[1..], skipEmpty), noCrlf)
  }

  function Reversed(s: seq<string>): seq<string> {
    if s == [] then [] else Reversed(s[1..]) + [s[0]]
  }

  lemma {:induction false} ReversedAppend(s: seq<string>, x: string)
    ensures Reversed(s + [x]) == [x] + Reversed(s) && |Reversed(s)| == |s|
    decreases |s|
  {
    if s != [] {
      assert (s + [x])[1..] == s[1..] + [x];
      ReversedAppend(s[1..], x);
    }
  }

  /** What the scan knows when it has gone back over `u`. */
  ghost predicate Scanned(u: string, skipEmpty: bool, noCrlf: bool,
                          firstCharacter: bool, currLine: string, accLines: seq<string>) {
    var p := Split(u);
    && (firstCharacter <==> p.lines == [])
    && currLine == (if p.lines == [] then p.tail else p.lines[0])
    && Reversed(accLines) == Later(u, skipEmpty, noCrlf)
  }

  lemma ScanStart(skipEmpty: bool, noCrlf: bool)
    ensures Scanned([], skipEmpty, noCrlf, true, [], [])
  {
  }

  /** A character that ends no line is put in front of the current line. */
  lemma ScanJoin(c: char, u: string, skipEmpty: bool, noCrlf: bool,
                 firstCharacter: bool, currLine: string, accLines: seq<string>)
    requires Scanned(u, skipEmpty, noCrlf, firstCharacter, currLine, accLines)
    requires !IsBreak(c) || (currLine == ['\n'] && c != '\n')
    ensures Scanned([c] + u, skipEmpty, noCrlf, firstCharacter, [c] + currLine, accLines)
  {
    var p, q := Split(u), Split([c] + u);
    if IsBreak(c) {
      StartsWithLf(u);
      SplitCrLf(u);
      assert q.lines[1..] == p.lines[1..];
    } else {
      SplitPlainCons(c, u);
      if p.lines != [] { assert q.lines[1..] == p.lines[1..]; }
    }
  }

  /** A break: the current line is complete, and is dropped if it is the unterminated tail or filtered out. */
  lemma ScanBreak(c: char, u: string, skipEmpty: bool, noCrlf: bool,
                  firstCharacter: bool, currLine: string, accLines: seq<string>, after: seq<string>)
    requires Scanned(u, skipEmpty, noCrlf, firstCharacter, currLine, accLines)
    requires IsBreak(c) && (currLine != ['\n'] || c == '\n')
    requires after == if firstCharacter || (skipEmpty && TrimSpace(currLine) == []) then accLines
                      else accLines + [Shown(currLine, noCrlf)]
    ensures Scanned([c] + u, skipEmpty, noCrlf, false, [c], after)
  {
    var p, q := Split(u), Split([c] + u);
    StartsWithLf(u);
    SplitBreakCons(c, u);
    assert q.lines[1..] == p.lines;
    if !firstCharacter {
      TrimSpaceBlank(currLine);
      ReversedAppend(accLines, Shown(currLine, noCrlf));
      LaterCons(p.lines, skipEmpty, noCrlf);
    }
  }

  lemma LaterCons(lines: seq<string>, skipEmpty: bool, noCrlf: bool)
    requires lines != []
    ensures ShownAll(Filtered(lines, skipEmpty), noCrlf) ==
            (if skipEmpty && Blank(lines[0]) then [] else [Shown(lines[0], noCrlf)])
            + ShownAll(Filtered(lines[1..], skipEmpty), noCrlf)
  {
  }

  /** What has been collected stays at the end, however far back the scan goes. */
  lemma {:induction false} LaterSuffix(x: string, u: string, skipEmpty: bool, noCrlf: bool)
    ensures EndsIn(Later(x + u, skipEmpty, noCrlf), Later(u, skipEmpty, noCrlf))
    decreases |x|
  {
    if x == [] {
      assert x + u == u;
    } else {
      hide Later, EndsIn;
      var v := x[1..] + u;
      assert x + u == [x[0]] + v;
      LaterSuffix(x[1..], u, skipEmpty, noCrlf);
      LaterGrows(x[0], v, skipEmpty, noCrlf);
      EndsFurther(Later([x[0]] + v, skipEmpty, noCrlf), Later(v, skipEmpty, noCrlf), Later(u, skipEmpty, noCrlf));
    }
  }

  lemma EndsFurther(a: seq<string>, b: seq<string>, c: seq<string>)
    requires (a == b || (a != [] && a[1..] == b)) && EndsIn(b, c)
    ensures EndsIn(a, c)
  {
  }

  lemma LaterGrows(c: char, u: string, skipEmpty: bool, noCrlf: bool)
    ensures var a, b := Later([c] + u, skipEmpty, noCrlf), Later(u, skipEmpty, noCrlf);
            a == b || (a != [] && a[1..] == b)
  {
    var p, q := Split(u), Split([c] + u);
    if !IsBreak(c) {
      SplitPlainCons(c, u);
      if p.lines != [] { assert q.lines[1..] == p.lines[1..]; }
    } else if c == '\r' && u != [] && u[0] == '\n' {
      SplitCrLf(u);
      assert q.lines[1..] == p.lines[1..];
    } else {
      SplitBreakCons(c, u);
      assert q.lines[1..] == p.lines;
      if p.lines != [] { LaterCons(p.lines, skipEmpty, noCrlf); }
    }
  }

  /** The first line and the later ones are the lines to choose from. */
  lemma KeptLater(s: string, skipEmpty: bool, noCrlf: bool)
    ensures var p := Split(s);
            ShownAll(Kept(s, skipEmpty), noCrlf) ==
            (if p.lines != [] then [Shown(p.lines[0], noCrlf)]
             else if p.tail != [] then [Shown(p.tail, noCrlf)] else [])
            + Later(s, skipEmpty, noCrlf)
  {
    hide Split, NonBlank, Shown;
    var p := Split(s);
    if p.lines != [] { ShownCons(p.lines[0], Filtered(p.lines[1..], skipEmpty), noCrlf); }
    hide ShownAll, Filtered;
  }

  lemma ShownCons(x: string, ys: seq<string>, noCrlf: bool)
    ensures ShownAll([x] + ys, noCrlf) == [Shown(x, noCrlf)] + ShownAll(ys, noCrlf)
  {
  }

  lemma ShownLast(lines: seq<string>, n: int, noCrlf: bool)
    ensures ShownAll(LastOf(lines, n), noCrlf) == LastOf(ShownAll(lines, noCrlf), n)
  {
  }

  predicate EndsIn(k: seq<string>, a: seq<string>) { |a| <= |k| && k[|k| - |a|..] == a }

  lemma LastOfSuffix(k: seq<string>, a: seq<string>, b: seq<string>)
    requires EndsIn(k, a) && EndsIn(a, b) && b != []
    ensures LastOf(k, |b|) == b
  {
    assert k[|k| - |b|..] == k[|k| - |a|..][|a| - |b|..];
  }

  lemma KeptEnds(s: string, skipEmpty: bool, noCrlf: bool)
    ensures EndsIn(ShownAll(Kept(s, skipEmpty), noCrlf), Later(s, skipEmpty, noCrlf))
  {
    hide Later, ShownAll, Kept, Split;
    KeptLater(s, skipEmpty, noCrlf);
  }

  /** The early break: enough lines have been collected. */
  lemma ScanEnough(x: string, u: string, nlines: int, skipEmpty: bool, noCrlf: bool,
                   firstCharacter: bool, currLine: string, accLines: seq<string>)
    requires Scanned(u, skipEmpty, noCrlf, firstCharacter, currLine, accLines)
    requires nlines == |accLines| && accLines != []
    ensures Reversed(accLines) == Asked(x + u, nlines, skipEmpty, noCrlf)
  {
    hide Split, Kept, Later, ShownAll, LastOf, EndsIn, Reversed;
    ReversedAppend(accLines, []);
    LaterSuffix(x, u, skipEmpty, noCrlf);
    KeptEnds(x + u, skipEmpty, noCrlf);
    ShownLast(Kept(x + u, skipEmpty), nlines, noCrlf);
    LastOfSuffix(ShownAll(Kept(x + u, skipEmpty), noCrlf), Later(x + u, skipEmpty, noCrlf), Reversed(accLines));
  }

  /** The start of the file: what is left is its first line, or all of it. */
  lemma ScanEnd(s: string, nlines: int, skipEmpty: bool, noCrlf: bool,
                firstCharacter: bool, currLine: string, accLines: seq<string>, after: seq<string>)
    requires Scanned(s, skipEmpty, noCrlf, firstCharacter, currLine, accLines)
    requires nlines <= 0 || |accLines| < nlines
    requires after == if currLine != [] then accLines + [Shown(currLine, noCrlf)] else accLines
    ensures Reversed(after) == Asked(s, nlines, skipEmpty, noCrlf)
  {
    if !firstCharacter { SplitIs(s); }
    ReversedAppend(accLines, Shown(currLine, noCrlf));
    KeptLater(s, skipEmpty, noCrlf);
    ShownLast(Kept(s, skipEmpty), nlines, noCrlf);
  }

  // ---------- the chunks ----------

  /** A read of the file: where it starts and how long it is. */
  datatype Chunk = Chunk(start: nat, len: nat)

  /** The reads go backwards from `end` without gap or overlap down to `start`, none longer than the buffer. */
  ghost predicate Tiles(chunks: seq<Chunk>, start: nat, end: nat, size: nat)
    decreases |chunks|
  {
    if chunks == [] then start == end
    else
      var c := chunks[|chunks| - 1];
      c.start == start && c.len <= size && Tiles(chunks[..|chunks| - 1], start + c.len, end, size)
  }

  lemma TilesStart(end: nat, size: nat)
    ensures Tiles([], end, end, size)
  {
  }

  lemma TileAppend(chunks: seq<Chunk>, c: Chunk, end: nat, size: nat)
    requires Tiles(chunks, c.start + c.len, end, size) && c.len <= size
    ensures Tiles(chunks + [c], c.start, end, size)
  {
    assert (chunks + [c])[..|chunks|] == chunks;
  }

  method RemoveCrLf(noCrlf: bool, line: string) returns (r: string)
    ensures r == Shown(line, noCrlf)
  {
    r := line;
    if noCrlf { r := TrimSpace(r); }
  }

  lemma ChunkText(data: Bytes, start: nat, chunk: Bytes, at: nat)
    requires start + |chunk| <= |data| && chunk == data[start..start + |chunk|] && at <= |chunk|
    ensures Text(chunk)[at..] + Text(data)[start + |chunk|..] == Text(data)[start + at..]
    ensures Text(data)[..start + at] + Text(data)[start + at..] == Text(data)
  {
  }

  /** Goes back over the buffer a byte at a time, `u` being what has been gone over before; stops early when
      enough lines are collected. */
  method ScanBuffer(buffer: array<Byte>, nlines: int, skipEmpty: bool, noincludecrlf: bool, ghost u: string,
                    first: bool, curr: string, acc: seq<string>)
    returns (enough: bool, firstCharacter: bool, currLine: string, accLines: seq<string>, ghost at: nat)
    requires Scanned(u, skipEmpty, noincludecrlf, first, curr, acc) && (nlines <= 0 || |acc| < nlines)
    ensures at <= buffer.Length && (!enough ==> at == 0)
    ensures Scanned(Text(buffer[..])[at..] + u, skipEmpty, noincludecrlf, firstCharacter, currLine, accLines)
    ensures if enough then nlines == |accLines| > 0 else nlines <= 0 || |accLines| < nlines
  {
    hide *;
    firstCharacter, currLine, accLines, at := first, curr, acc, buffer.Length;
    ghost var text := Text(buffer[..]);
    assert text[at..] + u == u;
    var i := buffer.Length - 1;
    while i >= 0
      invariant -1 <= i < buffer.Length && at == i + 1
      invariant nlines <= 0 || |accLines| < nlines
      invariant Scanned(text[at..] + u, skipEmpty, noincludecrlf, firstCharacter, currLine, accLines)
    {
      var c := buffer[i] as char;
      ghost var v := text[at..] + u;
      at := i;
      assert text[at..] + u == [c] + v;
      if buffer[i] == 10 || buffer[i] == 13 {
        assert IsBreak(c) by { BreakBytes(buffer[i]); }
        // a CR in front of an LF belongs to the same break
        if currLine != "\n" || buffer[i] == 10 {
          var appendLine := true;
          ghost var before := accLines;
          if firstCharacter {
            appendLine := false;
          } else if skipEmpty {
            if TrimSpace(currLine) == "" { appendLine := false; }
          }
          if appendLine {
            var line := RemoveCrLf(noincludecrlf, currLine);
            accLines := accLines + [line];
          }
          ScanBreak(c, v, skipEmpty, noincludecrlf, firstCharacter, currLine, before, accLines);
          firstCharacter := false;
          currLine := "";
          assert [c] + currLine == [c];
          if appendLine && nlines == |accLines| {
            return true, firstCharacter, [c], accLines, at;
          }
        } else {
          ScanJoin(c, v, skipEmpty, noincludecrlf, firstCharacter, currLine, accLines);
        }
      } else {
        BreakBytes(buffer[i]);
        ScanJoin(c, v, skipEmpty, noincludecrlf, firstCharacter, currLine, accLines);
      }
      currLine := [c] + currLine;
      i := i - 1;
    }
    enough := false;
  }

  lemma BreakBytes(b: Byte)
    ensures IsBreak(b as char) <==> b == 10 || b == 13
    ensures b as char == '\n' <==> b == 10
  {
  }

  /** Reads backwards from the end of the open file until enough lines are collected or its start is reached. */
  method ScanBack(fileHandle: Handle, filesize: nat, size: nat, nlines: int, skipEmpty: bool, noincludecrlf: bool)
    returns (r: Result<seq<string>, string>, ghost chunks: seq<Chunk>, ghost start: nat)
    requires size >= 1 && filesize == |fileHandle.data|
    modifies fileHandle
    ensures r.Ok? ==> r.value == Asked(Text(fileHandle.data), nlines, skipEmpty, noincludecrlf)
    ensures r.Err? ==> Fails(fileHandle.fails, r.error)
    ensures start <= filesize && Tiles(chunks, start, filesize, size)
    ensures r.Ok? && start > 0 ==> |r.value| == nlines
    ensures r.Ok? ==> AllWork(fileHandle.fails, old(fileHandle.ops), old(fileHandle.ops) + 2 * |chunks|)
  {
    hide *;
    ghost var fails, first, ops := fileHandle.fails, fileHandle.ops, 0;
    WorkNone(fails, first);
    ghost var data, text := fileHandle.data, Text(fileHandle.data);
    var bufferSize := if size > filesize then filesize else size;
    var cursor := -bufferSize;
    var buffer := new Byte[bufferSize];
    var accLines: seq<string> := [];
    var currLine := "";
    var firstCharacter := true;
    chunks, start := [], filesize;
    assert text[start..] == [];
    ScanStart(skipEmpty, noincludecrlf);
    TilesStart(filesize, size);
    label outer: while true
      invariant start <= filesize && cursor == start - buffer.Length - filesize
      invariant buffer.Length <= bufferSize && fresh(buffer)
      invariant buffer.Length == bufferSize <= start || buffer.Length == start
      invariant start > 0 ==> buffer.Length > 0
      invariant start == filesize || start > 0
      invariant nlines <= 0 || |accLines| < nlines
      invariant Scanned(text[start..], skipEmpty, noincludecrlf, firstCharacter, currLine, accLines)
      invariant Tiles(chunks, start, filesize, size)
      invariant ops == 2 * |chunks| && fileHandle.ops == first + ops && AllWork(fails, first, first + ops)
      decreases start + (if chunks == [] then 1 else 0)
    {
      var got := ReadAt(fileHandle, cursor, buffer);
      if got.Err? { return Err(got.error), chunks, start; }
      WorkOn(fails, first, first + ops, first + ops + 2);
      ops := ops + 2;
      var (newOffset, bytesRead) := got.value;
      assert bytesRead == buffer.Length && newOffset + bytesRead == start;
      TileAppend(chunks, Chunk(newOffset, bytesRead), filesize, size);
      chunks := chunks + [Chunk(newOffset, bytesRead)];
      start := newOffset;
      ghost var u := text[newOffset + bytesRead..];
      var enough: bool;
      ghost var at;
      enough, firstCharacter, currLine, accLines, at :=
        ScanBuffer(buffer, nlines, skipEmpty, noincludecrlf, u, firstCharacter, currLine, accLines);
      ChunkText(data, newOffset, buffer[..], at);
      if enough {
        ScanEnough(text[..newOffset + at], text[newOffset + at..], nlines, skipEmpty, noincludecrlf,
                   firstCharacter, currLine, accLines);
        ReversedAppend(accLines, "");
        break outer;
      }
      if newOffset == 0 {
        ghost var before := accLines;
        assert text[0..] == text;
        if currLine != "" {
          var line := RemoveCrLf(noincludecrlf, currLine);
          accLines := accLines + [line];
        }
        ScanEnd(text, nlines, skipEmpty, noincludecrlf, firstCharacter, currLine, before, accLines);
        break outer;
      }
      if newOffset > bufferSize {
        cursor := cursor - bytesRead;
      } else {
        // the beginning of the file: the last read is only as long as what is left
        cursor := cursor - newOffset;
        buffer := new Byte[newOffset];
      }
    }
    return Ok(Reversed(accLines)), chunks, start;
  }

  /** The last lines of the file, whatever the buffer size, if none of its operations failed (opening, Stat, and
      a seek and a read for each chunk); or the error of an operation that failed, or of a file that does not
      exist, and no other: no seek leaves the file and no read meets its end.  The reads
      tile the part of the file they cover, and that is all of it unless enough lines were found before. */
  method LastLines(files: map<string, Bytes>, fails: Faults, file: string, size: nat,
                   nlines: int, skipEmpty: bool, noincludecrlf: bool)
    returns (r: Result<seq<string>, string>, ghost chunks: seq<Chunk>, ghost start: nat)
    requires size >= 1
    ensures r.Ok? ==> file in files && r.value == Asked(Text(files[file]), nlines, skipEmpty, noincludecrlf)
    ensures r.Err? ==> file !in files || Fails(fails, r.error)
    ensures r.Ok? ==> start <= |files[file]| && Tiles(chunks, start, |files[file]|, size)
    ensures r.Ok? && start > 0 ==> |r.value| == nlines
    ensures r.Ok? ==> AllWork(fails, 0, 2 + 2 * |chunks|)
  {
    hide *;
    chunks, start := [], 0;
    var found := Open(files, fails, file);
    if found.Err? { return Err(found.error), chunks, start; }
    var fileHandle := found.value;
    ghost var n := fileHandle.ops;
    var stat := fileHandle.Stat();
    if stat.Err? {
      FailsAt(fails, n, stat.error);
      return Err(stat.error), chunks, start;
    }
    StatWorks(fails);
    r, chunks, start := ScanBack(fileHandle, stat.value, size, nlines, skipEmpty, noincludecrlf);
    if r.Ok? { WorkOn(fails, 0, 2, 2 + 2 * |chunks|); }
  }
}
