/**
 Lines of a text: the forward split on CRLF, LF or a lone CR, and the lines that are asked for with
 LastLines.  This is the specification; LastLines.dfy has the backward reader.
 */
module Lines {
  import opened WhiteSpace

  predicate IsBreak(c: char) { c == '\n' || c == '\r' }

  /** The length of the line break at the start of `s`, 0 if there is none. */
  function BreakAt(s: string): nat {
    if s == [] || !IsBreak(s[0]) then 0
    else if s[0] == '\r' && |s| > 1 && s[1] == '\n' then 2
    else 1
  }

  /** The length of the first line with its break, if any. */
  function FirstLine(s: string): (n: nat)
    ensures n <= |s| && (s != [] ==> n > 0)
  {
    if s == [] then 0 else if BreakAt(s) > 0 then BreakAt(s) else 1 + FirstLine(s[1..])
  }

  predicate HasBreak(s: string) { exists i :: 0 <= i < |s| && IsBreak(s[i]) }

  /** The terminated lines, each with its break, and what follows the last break. */
  datatype Pieces = Pieces(lines: seq<string>, tail: string)

  function Split(s: string): Pieces
    decreases |s|
  {
    if HasBreak(s) then
      var n := FirstLine(s);
      var rest := Split(s[n..]);
      Pieces([s[..n]] + rest.lines, rest.tail)
    else Pieces([], s)
  }

  function Concat(lines: seq<string>): string {
    if lines == [] then [] else lines[0] + Concat(lines[1..])
  }

  // ---------- what the split is ----------

  predicate Plain(s: string) { forall i :: 0 <= i < |s| ==> !IsBreak(s[i]) }

  /** Text without breaks, then one break. */
  predicate IsLine(l: string) {
    || (l != [] && IsBreak(l[|l| - 1]) && Plain(l[..|l| - 1]))
    || (|l| > 1 && l[|l| - 2] == '\r' && l[|l| - 1] == '\n' && Plain(l[..|l| - 2]))
  }

  /** A break of the form CRLF is never cut in two. */
  predicate NotCut(l: string, next: string) {
    l != [] && l[|l| - 1] == '\r' ==> next == [] || next[0] != '\n'
  }

  predicate IsSplit(p: Pieces)
    decreases |p.lines|
  {
    if p.lines == [] then Plain(p.tail)
    else
      && IsLine(p.lines[0])
      && NotCut(p.lines[0], Concat(p.lines[1..]) + p.tail)
      && IsSplit(Pieces(p.lines[1..], p.tail))
  }

  lemma {:induction false} FirstLineIs(l: string, rest: string)
    requires IsLine(l) && NotCut(l, rest)
    ensures FirstLine(l + rest) == |l| && HasBreak(l + rest)
    decreases |l|
  {
    var s := l + rest;
    assert s[|l| - 1] == l[|l| - 1] && IsBreak(s[|l| - 1]);
    if |l| == 1 {
      assert s[0] == l[0];
      if |s| > 1 { assert s[1] == rest[0]; }
    } else if |l| == 2 && l[0] == '\r' && l[1] == '\n' {
      assert s[0] == l[0] && s[1] == l[1];
    } else {
      assert s[0] == l[0] && !IsBreak(l[0]) by {
        if IsBreak(l[|l| - 1]) && Plain(l[..|l| - 1]) { assert l[..|l| - 1][0] == l[0]; }
        else { assert l[..|l| - 2][0] == l[0]; }
      }
      TailIsLine(l);
      FirstLineIs(l[1..], rest);
      assert s[1..] == l[1..] + rest;
    }
  }

  lemma TailIsLine(l: string)
    requires IsLine(l) && |l| > 1 && !(|l| == 2 && l[0] == '\r' && l[1] == '\n')
    ensures IsLine(l[1..])
  {
    var m := l[1..];
    if IsBreak(l[|l| - 1]) && Plain(l[..|l| - 1]) {
      assert m[..|m| - 1] == l[..|l| - 1][1..];
      assert Plain(m[..|m| - 1]);
    } else {
      assert m[..|m| - 2] == l[..|l| - 2][1..];
      assert Plain(m[..|m| - 2]);
    }
  }

  /** The first line of a text that has a break is a line, and no CRLF is cut. */
  lemma {:induction false} FirstLineOk(s: string)
    requires HasBreak(s)
    ensures IsLine(s[..FirstLine(s)]) && NotCut(s[..FirstLine(s)], s[FirstLine(s)..])
    decreases |s|
  {
    if BreakAt(s) == 0 {
      var i :| 0 <= i < |s| && IsBreak(s[i]);
      assert s[1..][i - 1] == s[i];
      FirstLineOk(s[1..]);
      var n := FirstLine(s[1..]);
      var m := s[1..][..n];
      assert s[..n + 1] == [s[0]] + m && s[n + 1..] == s[1..][n..];
      ConsLine(s[0], m, s[n + 1..]);
    }
  }

  lemma ConsLine(c: char, m: string, next: string)
    requires !IsBreak(c) && IsLine(m) && NotCut(m, next)
    ensures IsLine([c] + m) && NotCut([c] + m, next)
  {
    var l := [c] + m;
    if IsBreak(m[|m| - 1]) && Plain(m[..|m| - 1]) {
      assert l[..|l| - 1] == [c] + m[..|m| - 1];
    } else {
      assert l[..|l| - 2] == [c] + m[..|m| - 2];
    }
  }

  lemma ConsSplit(l: string, p: Pieces)
    requires IsLine(l) && NotCut(l, Concat(p.lines) + p.tail) && IsSplit(p)
    ensures IsSplit(Pieces([l] + p.lines, p.tail))
  {
    hide IsLine, NotCut, Concat;
    assert ([l] + p.lines)[1..] == p.lines;
  }

  lemma ConsConcat(l: string, lines: seq<string>, tail: string)
    ensures Concat([l] + lines) + tail == l + (Concat(lines) + tail)
  {
    assert ([l] + lines)[1..] == lines;
  }

  /** The split is a split of the text... */
  lemma {:induction false} SplitIs(s: string)
    ensures IsSplit(Split(s)) && Concat(Split(s).lines) + Split(s).tail == s
    decreases |s|
  {
    hide IsLine, NotCut, Concat, Split, IsSplit, HasBreak;
    if HasBreak(s) {
      var n := FirstLine(s);
      hide FirstLine;
      FirstLineOk(s);
      SplitIs(s[n..]);
      SplitStep(s);
      ConsSplit(s[..n], Split(s[n..]));
      ConsConcat(s[..n], Split(s[n..]).lines, Split(s[n..]).tail);
      Cut(s, n);
    } else {
      NoLines(s);
    }
  }

  lemma SplitStep(s: string)
    requires HasBreak(s)
    ensures var n := FirstLine(s); Split(s) == Pieces([s[..n]] + Split(s[n..]).lines, Split(s[n..]).tail)
  {
    hide FirstLine, HasBreak;
  }

  lemma Cut(s: string, n: nat)
    requires n <= |s|
    ensures s[..n] + s[n..] == s
  {
  }

  lemma NoLines(s: string)
    requires !HasBreak(s)
    ensures IsSplit(Split(s)) && Concat(Split(s).lines) + Split(s).tail == s
  {
    assert [] + s == s;
  }

  /** ... and the only one. */
  lemma {:induction false} SplitUnique(p: Pieces)
    requires IsSplit(p)
    ensures Split(Concat(p.lines) + p.tail) == p
    decreases |p.lines|
  {
    if p.lines == [] {
      assert Concat(p.lines) + p.tail == p.tail;
    } else {
      var l, rest := p.lines[0], Concat(p.lines[1..]) + p.tail;
      assert Concat(p.lines) + p.tail == l + rest;
      FirstLineIs(l, rest);
      assert (l + rest)[..|l|] == l && (l + rest)[|l|..] == rest;
      SplitUnique(Pieces(p.lines[1..], p.tail));
      assert p.lines == [l] + p.lines[1..];
    }
  }

  // ---------- one more character in front ----------

  /** A character that is not a break joins the first piece. */
  lemma SplitPlainCons(c: char, u: string)
    requires !IsBreak(c)
    ensures Split([c] + u) ==
            var p := Split(u);
            if p.lines == [] then Pieces([], [c] + p.tail)
            else Pieces([[c] + p.lines[0]] + p.lines[1..], p.tail)
  {
    var s := [c] + u;
    assert s[1..] == u;
    if HasBreak(u) {
      var i :| 0 <= i < |u| && IsBreak(u[i]);
      assert IsBreak(s[i + 1]);
      var n := FirstLine(u);
      assert FirstLine(s) == n + 1;
      assert s[..n + 1] == [c] + u[..n] && s[n + 1..] == u[n..];
    }
  }

  /** A CR joins the LF it stands in front of. */
  lemma SplitCrLf(u: string)
    requires u != [] && u[0] == '\n'
    ensures Split(u).lines != [] && Split(u).lines[0] == ['\n']
    ensures Split(['\r'] + u) == Pieces(["\r\n"] + Split(u).lines[1..], Split(u).tail)
  {
    var s := ['\r'] + u;
    assert IsBreak(s[0]) && IsBreak(u[0]);
    assert s[0] == '\r' && s[1] == '\n';
    assert FirstLine(s) == 2 && s[..2] == "\r\n" && s[2..] == u[1..];
    assert FirstLine(u) == 1 && u[..1] == ['\n'];
  }

  /** Any other break is a line of its own so far. */
  lemma SplitBreakCons(c: char, u: string)
    requires IsBreak(c) && (c == '\n' || u == [] || u[0] != '\n')
    ensures Split([c] + u) == Pieces([[c]] + Split(u).lines, Split(u).tail)
  {
    var s := [c] + u;
    assert IsBreak(s[0]);
    if |s| > 1 { assert s[1] == u[0]; }
    assert FirstLine(s) == 1 && s[..1] == [c] && s[1..] == u;
  }

  /** The text starts with an LF just if its first line is a bare LF. */
  lemma StartsWithLf(u: string)
    ensures var p := Split(u);
            (u != [] && u[0] == '\n') <==> (if p.lines == [] then p.tail else p.lines[0]) == ['\n']
  {
    if u != [] && u[0] == '\n' {
      SplitCrLf(u);
    } else if HasBreak(u) {
      assert Split(u).lines[0] == u[..FirstLine(u)] && Split(u).lines[0][0] == u[0];
    }
  }

  // ---------- the lines that are asked for ----------

  function NonBlank(lines: seq<string>): seq<string> {
    if lines == [] then []
    else (if Blank(lines[0]) then [] else [lines[0]]) + NonBlank(lines[1..])
  }

  function Filtered(lines: seq<string>, skipEmpty: bool): seq<string> {
    if skipEmpty then NonBlank(lines) else lines
  }

  /** The lines to choose from: the first line of the file is never tested for being blank, and the text
      after the last break counts only when there is no break. */
  function Kept(s: string, skipEmpty: bool): seq<string> {
    var p := Split(s);
    if p.lines != [] then [p.lines[0]] + Filtered(p.lines[1..], skipEmpty)
    else if p.tail != [] then [p.tail]
    else []
  }

  /** The last `n` of them, or all for `n <= 0`. */
  function LastOf(lines: seq<string>, n: int): seq<string> {
    if 0 < n < |lines| then lines[|lines| - n..] else lines
  }

  function Shown(line: string, noCrlf: bool): string { if noCrlf then TrimSpace(line) else line }

  function ShownAll(lines: seq<string>, noCrlf: bool): (r: seq<string>) {
    seq(|lines|, i requires 0 <= i < |lines| => Shown(lines[i], noCrlf))
  }

  /** What LastLines promises. */
  function Asked(s: string, nlines: int, skipEmpty: bool, noCrlf: bool): seq<string> {
    ShownAll(LastOf(Kept(s, skipEmpty), nlines), noCrlf)
  }

  // ---------- what that means ----------

  /** With both flags off: the last lines of the split, the tail only when it is all there is. */
  lemma AskedPlain(s: string, nlines: int)
    requires nlines >= 1
    ensures var p := Split(s); var l := |p.lines|;
            Asked(s, nlines, false, false) ==
            if l == 0 then (if p.tail == [] then [] else [p.tail])
            else if nlines <= l then p.lines[l - nlines..] else p.lines
  {
    var p := Split(s);
    if p.lines != [] { assert Kept(s, false) == p.lines; }
  }

  /** At most `nlines` entries: all there are, if there are fewer or `nlines` is not positive. */
  lemma AskedSize(s: string, nlines: int, skipEmpty: bool, noCrlf: bool)
    ensures |Asked(s, nlines, skipEmpty, noCrlf)| ==
            if 0 < nlines < |Kept(s, skipEmpty)| then nlines else |Kept(s, skipEmpty)|
    ensures !skipEmpty && Split(s).lines != [] ==> |Kept(s, skipEmpty)| == |Split(s).lines|
  {
  }

  lemma {:induction false} ConcatSplit(a: seq<string>, b: seq<string>)
    ensures Concat(a + b) == Concat(a) + Concat(b)
    decreases |a|
  {
    if a == [] {
      assert a + b == b;
    } else {
      assert (a + b)[1..] == a[1..] + b;
      ConcatSplit(a[1..], b);
    }
  }

  /** A file that ends with a break: the result, put together, is its end. */
  lemma AskedSuffix(s: string, nlines: int)
    requires Split(s).tail == []
    ensures var r := Concat(Asked(s, nlines, false, false));
            |r| <= |s| && s[|s| - |r|..] == r && (nlines <= 0 ==> r == s)
  {
    hide Split, IsSplit, Concat;
    SplitIs(s);
    var lines, r := Split(s).lines, Asked(s, nlines, false, false);
    assert s == Concat(lines) by { assert Concat(lines) + [] == Concat(lines); }
    AskedTerminated(s, nlines);
    hide Asked, LastOf;
    var k := |lines| - |r|;
    ConcatSplit(lines[..k], r);
    assert lines == lines[..k] + r;
    EndOf(Concat(lines[..k]), Concat(r), s);
  }

  lemma AskedTerminated(s: string, nlines: int)
    requires Split(s).tail == []
    ensures var lines, r := Split(s).lines, Asked(s, nlines, false, false);
            |r| <= |lines| && r == lines[|lines| - |r|..] && (nlines <= 0 ==> r == lines)
  {
    hide Split;
    var lines := Split(s).lines;
    if lines != [] { assert Kept(s, false) == lines; }
    assert ShownAll(LastOf(lines, nlines), false) == LastOf(lines, nlines);
  }

  lemma EndOf(a: string, b: string, s: string)
    requires s == a + b
    ensures |b| <= |s| && s[|s| - |b|..] == b
  {
  }

  // ---------- with the flags on ----------

  /** With noCrlf: the same lines, each trimmed at both ends. */
  lemma AskedTrimmed(s: string, nlines: int, skipEmpty: bool)
    ensures var plain, trimmed := Asked(s, nlines, skipEmpty, false), Asked(s, nlines, skipEmpty, true);
            |trimmed| == |plain| && forall i :: 0 <= i < |plain| ==> trimmed[i] == TrimSpace(plain[i])
  {
    hide Kept, LastOf, TrimSpace;
  }

  /** So no line asked for with noCrlf has a break left, neither at an end nor inside. */
  lemma AskedNoBreaks(s: string, nlines: int, skipEmpty: bool, i: nat)
    requires i < |Asked(s, nlines, skipEmpty, true)|
    ensures Plain(Asked(s, nlines, skipEmpty, true)[i])
  {
    hide TrimSpace, Split, IsLine, Plain;
    var k := Kept(s, skipEmpty);
    var j := if 0 < nlines < |k| then |k| - nlines + i else i;
    KeptPieces(s, skipEmpty, j);
    TrimmedPlain(k[j]);
  }

  lemma KeptPieces(s: string, skipEmpty: bool, j: nat)
    requires j < |Kept(s, skipEmpty)|
    ensures IsLine(Kept(s, skipEmpty)[j]) || Plain(Kept(s, skipEmpty)[j])
  {
    hide Split, IsLine, NotCut, Concat, Plain;
    SplitIs(s);
    var p := Split(s);
    if p.lines != [] && j > 0 {
      var l := Filtered(p.lines[1..], skipEmpty)[j - 1];
      if skipEmpty { FilteredFrom(p.lines[1..], l); }
      var n: nat :| n < |p.lines| && p.lines[n] == l;
      PieceIsLine(p, n);
    }
  }

  lemma {:induction false} FilteredFrom(lines: seq<string>, l: string)
    requires l in NonBlank(lines)
    ensures l in lines
  {
    if Blank(lines[0]) || l != lines[0] { FilteredFrom(lines[1..], l); }
  }

  lemma {:induction false} PieceIsLine(p: Pieces, n: nat)
    requires IsSplit(p) && n < |p.lines|
    ensures IsLine(p.lines[n])
    decreases n
  {
    if n > 0 { PieceIsLine(Pieces(p.lines[1..], p.tail), n - 1); }
  }

  /** Trimming a line takes its break off. */
  lemma TrimmedPlain(l: string)
    requires IsLine(l) || Plain(l)
    ensures Plain(TrimSpace(l))
  {
    hide TrimSpace, Blank;
    var i, j := TrimSpaceIs(l);
    if !Plain(l) && i < j {
      if !(IsBreak(l[|l| - 1]) && Plain(l[..|l| - 1])) {
        assert j <= |l| - 2 by { assert IsSpace(l[|l| - 1]) && IsSpace(l[|l| - 2]); }
        assert l[i..j] == l[..|l| - 2][i..j];
      } else {
        assert j <= |l| - 1 by { assert IsSpace(l[|l| - 1]); }
        assert l[i..j] == l[..|l| - 1][i..j];
      }
    }
  }

  /** Indices into the lines, in order: those of the lines that are not blank, and 0 if `first`. */
  ghost predicate Chooses(ks: seq<nat>, lines: seq<string>, first: bool) {
    && (forall a, b :: 0 <= a < b < |ks| ==> ks[a] < ks[b])
    && (forall j: nat :: j in ks <==> j < |lines| && ((first && j == 0) || !Blank(lines[j])))
  }

  /** The lines `r` are those that `ks` numbers. */
  ghost predicate Numbered(ks: seq<nat>, lines: seq<string>, r: seq<string>) {
    |r| == |ks| && forall a :: 0 <= a < |ks| ==> ks[a] < |lines| && r[a] == lines[ks[a]]
  }

  function Raised(ks: seq<nat>): (r: seq<nat>)
    ensures |r| == |ks| && forall a :: 0 <= a < |ks| ==> r[a] == ks[a] + 1
  {
    seq(|ks|, a requires 0 <= a < |ks| => ks[a] + 1)
  }

  lemma RaisedHas(ks: seq<nat>, j: nat)
    ensures j in Raised(ks) <==> j > 0 && j - 1 in ks
  {
    if j > 0 && j - 1 in ks {
      var a :| 0 <= a < |ks| && ks[a] == j - 1;
      assert Raised(ks)[a] == j;
    }
  }

  /** One more line in front. */
  lemma ChoosesCons(ks: seq<nat>, l: string, lines: seq<string>, first: bool)
    requires Chooses(ks, lines, false)
    ensures Chooses((if first || !Blank(l) then [0] else []) + Raised(ks), [l] + lines, first)
  {
    hide Blank, Raised;
    var here: seq<nat> := if first || !Blank(l) then [0] else [];
    forall j: nat
      ensures j in here + Raised(ks) <==>
              j < |lines| + 1 && ((first && j == 0) || !Blank(([l] + lines)[j]))
    {
      RaisedHas(ks, j);
    }
  }

  lemma NumberedCons(ks: seq<nat>, l: string, lines: seq<string>, r: seq<string>)
    requires Numbered(ks, lines, r)
    ensures Numbered(Raised(ks), [l] + lines, r) && Numbered([0] + Raised(ks), [l] + lines, [l] + r)
  {
    hide Raised;
  }

  lemma {:induction false} NonBlankIs(lines: seq<string>) returns (ks: seq<nat>)
    ensures Chooses(ks, lines, false) && Numbered(ks, lines, NonBlank(lines))
  {
    hide Chooses, Numbered, Blank;
    if lines == [] {
      ks := [];
      NoneChosen();
    } else {
      ks := NonBlankIs(lines[1..]);
      assert lines == [lines[0]] + lines[1..];
      assert [] + Raised(ks) == Raised(ks) && [] + NonBlank(lines[1..]) == NonBlank(lines[1..]);
      ChoosesCons(ks, lines[0], lines[1..], false);
      NumberedCons(ks, lines[0], lines[1..], NonBlank(lines[1..]));
      ks := (if !Blank(lines[0]) then [0] else []) + Raised(ks);
    }
  }

  lemma NoneChosen()
    ensures Chooses([], [], false) && Numbered([], [], [])
  {
  }

  /**
   With skipEmpty the lines to choose from are the first line of the file and every later one that is not blank, in
   their order, and the last of them are the result.  A file without a break gives the same as without the flag.
   */
  lemma AskedFiltered(s: string, nlines: int) returns (ks: seq<nat>)
    ensures Chooses(ks, Split(s).lines, true)
    ensures var p, r := Split(s), Asked(s, nlines, true, false); var n := if 0 < nlines < |ks| then nlines else |ks|;
            if p.lines == [] then r == Asked(s, nlines, false, false) else Numbered(ks[|ks| - n..], p.lines, r)
  {
    hide Split, Chooses, NonBlank;
    var p := Split(s);
    if p.lines == [] {
      ks := [];
      ChoosesNone();
    } else {
      ks := NonBlankIs(p.lines[1..]);
      assert p.lines == [p.lines[0]] + p.lines[1..];
      ChoosesCons(ks, p.lines[0], p.lines[1..], true);
      NumberedCons(ks, p.lines[0], p.lines[1..], NonBlank(p.lines[1..]));
      ks := [0] + Raised(ks);
    }
  }

  lemma ChoosesNone()
    ensures Chooses([], [], true)
  {
  }
}
