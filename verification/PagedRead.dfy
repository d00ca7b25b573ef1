/** Paged reading of internal/domain/tools/pagedread.go: line and byte accounting over a buffered line reader. */
module PagedRead {
  import opened Words
  import opened BufferedReader

  // ---------------------------------------------------------------- the normalised text

  /** The normalised text: every line ended by one line feed. */
  function Normal(lines: seq<Bytes>): Bytes {
    if |lines| == 0 then [] else Normal(lines[..|lines| - 1]) + lines[|lines| - 1] + [LF]
  }

  /** Where line `i` (from 0) starts in the normalised text. */
  function Start(lines: seq<Bytes>, i: nat): nat
    requires i <= |lines|
  {
    |Normal(lines[..i])|
  }

  lemma {:induction false} NormalSplit(lines: seq<Bytes>, i: nat)
    requires i <= |lines|
    ensures Start(lines, i) <= |Normal(lines)| && Normal(lines)[..Start(lines, i)] == Normal(lines[..i])
    decreases |lines|
  {
    if i < |lines| {
      var n := |lines| - 1;
      NormalSplit(lines[..n], i);
      assert lines[..n][..i] == lines[..i];
    } else {
      assert lines[..i] == lines;
    }
  }

  lemma {:induction false} NormalFromFront(line: Bytes, rest: seq<Bytes>)
    ensures Normal([line] + rest) == line + [LF] + Normal(rest)
  {
    var all := [line] + rest;
    if |rest| == 0 {
      assert all[..0] == [];
    } else {
      var n := |rest| - 1;
      NormalFromFront(line, rest[..n]);
      assert all[..|all| - 1] == [line] + rest[..n];
    }
  }

  /** A text without the carriage returns that stand directly before a line feed, byte by byte. */
  function Cleaned(text: Bytes): Bytes {
    if |text| == 0 then []
    else if text[0] == CR && |text| > 1 && text[1] == LF then Cleaned(text[1..])
    else [text[0]] + Cleaned(text[1..])
  }

  /** With a line feed after an unended last line. */
  function Ended(text: Bytes): Bytes {
    if |text| == 0 || text[|text| - 1] == LF then text else text + [LF]
  }

  lemma CleanedStep(text: Bytes)
    requires |text| > 0
    ensures Cleaned(text) == (if text[0] == CR && |text| > 1 && text[1] == LF then [] else [text[0]]) + Cleaned(text[1..])
  {
  }

  lemma ReturnAfter(line: Bytes)
    requires |line| > 1
    ensures WithoutReturn(line) == [line[0]] + WithoutReturn(line[1..])
  {
    assert line == [line[0]] + line[1..];
  }

  lemma {:induction false} CleanedLine(line: Bytes, rest: Bytes)
    requires LF !in line
    ensures Cleaned(line + [LF] + rest) == WithoutReturn(line) + [LF] + Cleaned(rest)
    decreases |line|
  {
    hide Cleaned;
    var text := line + [LF] + rest;
    CleanedStep(text);
    if |line| == 0 {
      assert text[0] == LF && text[1..] == rest;
    } else {
      CleanedLine(line[1..], rest);
      assert text[0] == line[0] && text[1..] == line[1..] + [LF] + rest;
      assert text[1] == if |line| == 1 then LF else line[1];
      if |line| > 1 { ReturnAfter(line); }
    }
  }

  lemma {:induction false} CleanedEnds(text: Bytes)
    ensures LF !in text ==> Cleaned(text) == text
    ensures |text| > 0 ==> |Cleaned(text)| > 0 && Cleaned(text)[|Cleaned(text)| - 1] == text[|text| - 1]
    decreases |text|
  {
    if |text| > 0 { CleanedEnds(text[1..]); }
  }

  /** For every text: normalising removes each carriage return directly before a line feed, adds a line feed to an
      unended last line, and changes nothing else. */
  lemma {:induction false} NormalIsCleaned(text: Bytes)
    ensures Normal(Lines(text)) == Ended(Cleaned(text))
    decreases |text|
  {
    var n := FirstLineFeed(text);
    if n == |text| {
      UnendedIsCleaned(text);
    } else {
      NormalIsCleaned(text[n + 1..]);
      LineIsCleaned(text);
    }
  }

  lemma UnendedIsCleaned(text: Bytes)
    requires FirstLineFeed(text) == |text|
    ensures Normal(Lines(text)) == Ended(Cleaned(text))
  {
    CleanedEnds(text);
    assert LF !in text;
    hide FirstLineFeed, Cleaned;
    if |text| > 0 {
      assert [text] + [] == [text];
      NormalFromFront(text, []);
    }
  }

  lemma LineIsCleaned(text: Bytes)
    requires var n := FirstLineFeed(text); n < |text| && Normal(Lines(text[n + 1..])) == Ended(Cleaned(text[n + 1..]))
    ensures Normal(Lines(text)) == Ended(Cleaned(text))
  {
    hide *;
    var n := FirstLineFeed(text);
    var line, rest := text[..n], text[n + 1..];
    SplitAtLineFeed(text);
    NormalFromFront(WithoutReturn(line), Lines(rest));
    CleanedLine(line, rest);
    EndedAfter(WithoutReturn(line) + [LF], Cleaned(rest));
  }

  lemma SplitAtLineFeed(text: Bytes)
    requires FirstLineFeed(text) < |text|
    ensures var n := FirstLineFeed(text);
            && text == text[..n] + [LF] + text[n + 1..] && LF !in text[..n]
            && Lines(text) == [WithoutReturn(text[..n])] + Lines(text[n + 1..])
  {
    FirstLine(text);
    hide *;
    var n, lines := FirstLineFeed(text), Lines(text);
    CutAt(text, n);
    assert lines == [lines[0]] + lines[1..];
  }

  lemma CutAt(text: Bytes, n: nat)
    requires n < |text| && text[n] == LF && forall k :: 0 <= k < n ==> text[k] != LF
    ensures text == text[..n] + [LF] + text[n + 1..] && LF !in text[..n]
  {
  }

  lemma {:induction false} CleanedPlain(text: Bytes)
    requires CR !in text
    ensures Cleaned(text) == text
    decreases |text|
  {
    if |text| > 0 {
      assert text[0] in text;
      CleanedPlain(text[1..]);
    }
  }

  /** Without carriage returns normalising only ends an unended last line. */
  lemma NormalOfText(text: Bytes)
    requires CR !in text
    ensures Normal(Lines(text)) == if |text| == 0 || text[|text| - 1] == LF then text else text + [LF]
  {
    NormalIsCleaned(text);
    CleanedPlain(text);
  }

  lemma EndedAfter(a: Bytes, b: Bytes)
    requires |a| > 0 && a[|a| - 1] == LF
    ensures Ended(a + b) == a + Ended(b)
  {
    if |b| > 0 { assert (a + b)[|a + b| - 1] == b[|b| - 1]; } else { assert a + b == a; }
  }

  /** Line `i` and its line feed stand between its start and the next line's. */
  lemma LineAt(lines: seq<Bytes>, i: nat)
    requires i < |lines|
    ensures Start(lines, i + 1) == Start(lines, i) + |lines[i]| + 1 <= |Normal(lines)|
    ensures Normal(lines)[Start(lines, i)..Start(lines, i + 1)] == lines[i] + [LF]
  {
    NormalSplit(lines, i + 1);
    NormalSplit(lines, i);
    assert lines[..i + 1][..i] == lines[..i];
    assert Normal(lines[..i + 1]) == Normal(lines[..i]) + lines[i] + [LF];
    var all, a, b := Normal(lines), Start(lines, i), Start(lines, i + 1);
    assert all[a..b] == all[..b][a..];
    assert all[..b][a..] == lines[i] + [LF];
  }

  /** The byte that a request names: line and byte from 1, clamped to the line feed of the line and to the end. */
  function Offset(lines: seq<Bytes>, line: nat, byte: nat): nat {
    if line < 1 then 0
    else if line > |lines| then |Normal(lines)|
    else Start(lines, line - 1) + if byte < 1 then 0 else if byte - 1 <= |lines[line - 1]| then byte - 1 else |lines[line - 1]|
  }

  /** What the pages of a file make together: the normalised text, short of the last line feed when the reader does
      not see the last line end. */
  function Visible(lines: seq<Bytes>, cut: bool): Bytes
    requires cut ==> CanBeCut(lines)
  {
    if cut then Normal(lines)[..|Normal(lines)| - 1] else Normal(lines)
  }

  // ---------------------------------------------------------------- one page

  datatype Request = Request(maxBytes: nat, maxLines: int, startLine: int, startByte: int)

  datatype Page = Page(
    content: Bytes, linesRead: nat, startLine: nat, endLine: nat, truncated: bool, truncatedBytes: nat, finished: bool,
    failed: bool)

  /** The continuation rule. */
  function NextLine(p: Page): nat {
    if p.truncated then p.endLine else p.endLine + 1
  }

  function NextByte(p: Page): nat {
    if p.truncated then p.truncatedBytes + 1 else 1
  }

  function Clamp(n: int): nat {
    if n < 1 then 1 else n
  }

  function From(lines: seq<Bytes>, q: Request): nat {
    Offset(lines, Clamp(q.startLine), Clamp(q.startByte))
  }

  /** What a request names: the rest of its line and that line's line feed come next, from the requested byte on; beyond
      the end of the line just its line feed, and beyond the last line nothing. Below 1 both count as 1. */
  lemma RequestNames(lines: seq<Bytes>, q: Request)
    ensures var all, at := Normal(lines), From(lines, q);
            var line, byte := if q.startLine < 1 then 1 else q.startLine, if q.startByte < 1 then 1 else q.startByte;
            && at <= |all|
            && if line > |lines| then at == |all|
               else
                 var l := lines[line - 1];
                 var rest := if byte - 1 <= |l| then l[byte - 1..] else [];
                 at + |rest| + 1 <= |all| && all[at..at + |rest| + 1] == rest + [LF]
  {
    var line, byte := Clamp(q.startLine), Clamp(q.startByte);
    if line <= |lines| {
      LineAt(lines, line - 1);
      var l := lines[line - 1];
      var skip := if byte - 1 <= |l| then byte - 1 else |l|;
      var a := Start(lines, line - 1);
      hide Normal, Start;
      RestOf(Normal(lines), a, l, skip);
      assert skip == |l| ==> l[skip..] == [];
    }
  }

  lemma RestOf(all: Bytes, a: nat, l: Bytes, skip: nat)
    requires skip <= |l| && a + |l| + 1 <= |all| && all[a..a + |l| + 1] == l + [LF]
    ensures all[a + skip..a + skip + (|l| - skip) + 1] == l[skip..] + [LF]
  {
    assert all[a + skip..a + |l| + 1] == all[a..a + |l| + 1][skip..];
  }

  /** The next byte wanted when the reader stands at `pos` of line `line` (from 0). */
  function Wanted(lines: seq<Bytes>, q: Request, line: nat, pos: nat): nat
    requires line <= |lines|
  {
    var start, skip := Clamp(q.startLine), Clamp(q.startByte) - 1;
    if line + 1 < start then From(lines, q)
    else if line == |lines| then |Normal(lines)|
    else if line + 1 == start then Start(lines, line) + Max(pos, Min(skip, |lines[line]|))
    else Start(lines, line) + pos
  }

  function Max(a: nat, b: nat): nat {
    if a >= b then a else b
  }

  /** The page holds the text from the requested byte on, and as long as it is not full it ends where the reader is. */
  ghost predicate Follows(lines: seq<Bytes>, q: Request, p: Page, line: nat, pos: nat) {
    var from := From(lines, q);
    && line <= |lines| && |p.content| <= q.maxBytes && from + |p.content| <= |Normal(lines)|
    && p.content == Normal(lines)[from..from + |p.content|]
    && (|p.content| < q.maxBytes ==> from + |p.content| == Wanted(lines, q, line, pos))
  }

  /** The counters agree with the reader. */
  ghost predicate Counts(lines: seq<Bytes>, q: Request, p: Page, line: nat, pos: nat, open: bool, skipped: nat, consumed: nat) {
    var start, skip := Clamp(q.startLine), Clamp(q.startByte) - 1;
    && p.endLine == line + (if open then 1 else 0)
    && (if open then line < |lines| && pos <= |lines[line]| else pos == 0 && line <= |lines|)
    && (p.endLine < start ==> skipped == 0 && !p.truncated)
    && (p.endLine == start && open ==> skipped == Min(skip, pos))
    && (|p.content| < q.maxBytes && !open ==> !p.truncated)
    && (|p.content| < q.maxBytes && open && p.endLine >= start ==> p.truncated && p.truncatedBytes == consumed == pos)
    && (|p.content| < q.maxBytes && line + 1 >= start ==> p.linesRead == line + 1 - start)
    && p.linesRead <= |p.content| && (q.maxLines > 0 ==> p.linesRead <= q.maxLines)
  }

  /** No page holds more than the reader sees. */
  ghost predicate Within(lines: seq<Bytes>, cut: bool, q: Request, p: Page)
    requires cut ==> CanBeCut(lines)
  {
    p.content != [] ==> From(lines, q) + |p.content| <= |Visible(lines, cut)|
  }

  /** A page with some content ends where the continuation rule goes on. */
  ghost predicate Continues(lines: seq<Bytes>, q: Request, p: Page) {
    p.content != [] ==>
      && p.endLine >= Clamp(q.startLine)
      && p.linesRead == NextLine(p) - Clamp(q.startLine)
      && From(lines, q) + |p.content| == Offset(lines, NextLine(p), NextByte(p))
  }

  /** A page being read. */
  ghost predicate Going(lines: seq<Bytes>, cut: bool, q: Request, p: Page, line: nat, pos: nat, open: bool, skipped: nat, consumed: nat)
    requires cut ==> CanBeCut(lines)
  {
    && Follows(lines, q, p, line, pos) && Counts(lines, q, p, line, pos, open, skipped, consumed)
    && Continues(lines, q, p) && Within(lines, cut, q, p)
    && !p.finished && !p.failed && p.startLine == Clamp(q.startLine)
  }

  /** What a finished or broken-off page is. */
  ghost predicate IsPage(lines: seq<Bytes>, cut: bool, q: Request, p: Page)
    requires cut ==> CanBeCut(lines)
  {
    var from := From(lines, q);
    && |p.content| <= q.maxBytes && from + |p.content| <= |Normal(lines)|
    && p.content == Normal(lines)[from..from + |p.content|]
    && Within(lines, cut, q, p)
    && (!p.failed ==>
          && from + |p.content| == Offset(lines, NextLine(p), NextByte(p))
          && (p.content != [] ==> p.linesRead == NextLine(p) - Clamp(q.startLine))
          && (p.finished ==> from + |p.content| >= |Visible(lines, cut)|)
          && (!p.finished ==> |p.content| > 0 && (|p.content| == q.maxBytes || p.linesRead == q.maxLines > 0)))
    && p.linesRead <= |p.content| && (q.maxLines > 0 ==> p.linesRead <= q.maxLines)
  }

  /** A piece of a line that is not before the requested one: skip up to the requested byte, keep what still fits, and
      end the line when it came whole and its line feed still fits. */
  method Take(ghost lines: seq<Bytes>, q: Request, p: Page, ghost L: nat, ghost pos: nat, piece: Bytes, isPrefix: bool,
              skippedBefore: nat, consumedBefore: nat)
    returns (p': Page, skipped: nat, consumed: nat)
    requires L < |lines| && pos + |piece| <= |lines[L]| && piece == lines[L][pos..pos + |piece|]
    requires if isPrefix then |piece| > 0 else pos + |piece| == |lines[L]|
    requires p.endLine == L + 1 >= Clamp(q.startLine) && |p.content| < q.maxBytes && !p.finished && !p.failed
    requires q.maxLines > 0 ==> p.linesRead < q.maxLines
    requires Follows(lines, q, p, L, pos) && p.linesRead <= |p.content| && p.linesRead == L + 1 - Clamp(q.startLine)
    requires consumedBefore == pos && (L + 1 == Clamp(q.startLine) ==> skippedBefore == Min(Clamp(q.startByte) - 1, pos))
    ensures p'.endLine == p.endLine && p'.startLine == p.startLine && !p'.finished && !p'.failed
    ensures p'.content == p.content || From(lines, q) + |p'.content| <= Start(lines, L) + |lines[L]| + if isPrefix then 0 else 1
    ensures var line', pos' := if isPrefix then L else L + 1, if isPrefix then pos + |piece| else 0;
            && Follows(lines, q, p', line', pos') && Counts(lines, q, p', line', pos', isPrefix, skipped, consumed)
            && Continues(lines, q, p')
  {
    hide *;
    var startLine, startByte := Clamp(q.startLine), Clamp(q.startByte);
    var skip := if p.endLine == startLine && skippedBefore < startByte - 1 then Min(|piece|, startByte - 1 - skippedBefore) else 0;
    SkipsTo(q, L, pos, |piece|, skippedBefore, skip);
    if skip > 0 { SkippingIsEmpty(lines, q, p, L, pos); }
    var rest := piece[skip..];
    skipped := skippedBefore + skip;
    consumed := consumedBefore + skip;
    var keep := Min(|rest|, q.maxBytes - |p.content|);
    KeepsWhatFits(|rest|, q.maxBytes - |p.content|, keep);
    p' := p.(content := p.content + rest[..keep]);
    consumed := consumed + keep;
    Located(lines, q, p, L, pos, piece, skip, keep);
    if !isPrefix && keep == |rest| && |p'.content| < q.maxBytes {
      EndsLine(lines, q, p', L);
      p' := p'.(content := p'.content + [LF], linesRead := p'.linesRead + 1, truncated := false, truncatedBytes := 0);
      TookLine(lines, q, p', L, skipped, consumed);
    } else {
      p' := p'.(truncated := true, truncatedBytes := consumed);
      TookPart(lines, q, p', L, pos, |piece|, skip, keep, isPrefix, skipped, consumed);
    }
  }

  /** How many bytes of a piece are skipped. */
  lemma SkipsTo(q: Request, L: nat, pos: nat, length: nat, before: nat, skip: nat)
    requires skip == if L + 1 == Clamp(q.startLine) && before < Clamp(q.startByte) - 1 then Min(length, Clamp(q.startByte) - 1 - before) else 0
    requires L + 1 == Clamp(q.startLine) ==> before == Min(Clamp(q.startByte) - 1, pos)
    ensures skip == if L + 1 == Clamp(q.startLine) && pos < Clamp(q.startByte) - 1 then Min(length, Clamp(q.startByte) - 1 - pos) else 0
    ensures skip <= length && (skip > 0 ==> L + 1 == Clamp(q.startLine) && pos < Clamp(q.startByte) - 1)
    ensures L + 1 == Clamp(q.startLine) ==> before + skip == Min(Clamp(q.startByte) - 1, pos + length)
  {
  }

  lemma KeepsWhatFits(a: nat, b: nat, keep: nat)
    requires keep == Min(a, b)
    ensures keep <= a && keep <= b && (keep < a ==> keep == b)
  {
  }

  /** As long as bytes are skipped nothing has been kept. */
  lemma SkippingIsEmpty(lines: seq<Bytes>, q: Request, p: Page, L: nat, pos: nat)
    requires L < |lines| && pos <= |lines[L]| && L + 1 == Clamp(q.startLine) && pos < Clamp(q.startByte) - 1
    requires Follows(lines, q, p, L, pos) && |p.content| < q.maxBytes
    ensures p.content == []
  {
    hide Normal, Start;
  }

  lemma StartOfEnd(lines: seq<Bytes>)
    ensures Start(lines, |lines|) == |Normal(lines)|
  {
    assert lines[..|lines|] == lines;
  }

  lemma TookLine(lines: seq<Bytes>, q: Request, p: Page, L: nat, skipped: nat, consumed: nat)
    requires L < |lines| && p.endLine == L + 1 >= Clamp(q.startLine) && !p.truncated && |p.content| <= q.maxBytes
    requires var from := From(lines, q);
             && from + |p.content| == Start(lines, L + 1) <= |Normal(lines)|
             && p.content == Normal(lines)[from..from + |p.content|]
    requires p.linesRead <= |p.content| && (q.maxLines > 0 ==> p.linesRead <= q.maxLines)
    requires p.linesRead == L + 2 - Clamp(q.startLine)
    ensures Follows(lines, q, p, L + 1, 0) && Continues(lines, q, p) && Counts(lines, q, p, L + 1, 0, false, skipped, consumed)
  {
    StartOfEnd(lines);
    hide Normal, Start;
  }

  lemma TookPart(lines: seq<Bytes>, q: Request, p: Page, L: nat, pos: nat, length: nat, skip: nat, keep: nat, isPrefix: bool,
                 skipped: nat, consumed: nat)
    requires L < |lines| && p.endLine == L + 1 >= Clamp(q.startLine) && p.truncated && p.truncatedBytes == pos + skip + keep
    requires pos + length <= |lines[L]| && skip + keep <= length && |p.content| <= q.maxBytes
    requires if isPrefix then length > 0 else pos + length == |lines[L]|
    requires !isPrefix || keep < length - skip ==> |p.content| == q.maxBytes
    requires var from := From(lines, q);
             && from + |p.content| <= |Normal(lines)| && p.content == Normal(lines)[from..from + |p.content|]
             && (skip < length ==> from + |p.content| == Start(lines, L) + pos + skip + keep)
             && (!isPrefix && skip == length ==> from + |p.content| == Start(lines, L) + |lines[L]|)
             && (keep == length - skip ==> from + |p.content| == Wanted(lines, q, L, pos + length))
             && (skip == length && isPrefix ==> p.content == [])
    requires p.linesRead <= |p.content| && (q.maxLines > 0 ==> p.linesRead <= q.maxLines) && consumed == p.truncatedBytes
    requires p.linesRead == L + 1 - Clamp(q.startLine)
    requires L + 1 == Clamp(q.startLine) ==> skipped == Min(Clamp(q.startByte) - 1, pos + length)
    ensures Continues(lines, q, p)
    ensures var line, pos' := if isPrefix then L else L + 1, if isPrefix then pos + length else 0;
            Follows(lines, q, p, line, pos') && Counts(lines, q, p, line, pos', isPrefix, skipped, consumed)
  {
    hide Normal, Start;
  }

  /** Where the piece that is left after skipping stands in the normalised text, and what the page holds after it. */
  lemma Located(lines: seq<Bytes>, q: Request, p: Page, L: nat, pos: nat, piece: Bytes, skip: nat, keep: nat)
    requires L < |lines| && pos + |piece| <= |lines[L]| && piece == lines[L][pos..pos + |piece|]
    requires L + 1 >= Clamp(q.startLine) && |p.content| < q.maxBytes && Follows(lines, q, p, L, pos)
    requires skip == if L + 1 == Clamp(q.startLine) && pos < Clamp(q.startByte) - 1 then Min(|piece|, Clamp(q.startByte) - 1 - pos) else 0
    requires keep <= |piece| - skip && |p.content| + keep <= q.maxBytes
    ensures var content, from, at := p.content + piece[skip..][..keep], From(lines, q), Start(lines, L);
            && from + |content| <= |Normal(lines)| && content == Normal(lines)[from..from + |content|]
            && (keep > 0 ==> from + |p.content| == at + pos + skip)
            && (skip < |piece| ==> from + |p.content| == at + pos + skip)
            && (pos + |piece| == |lines[L]| && skip == |piece| ==> from + |p.content| == at + |lines[L]|)
            && (keep == |piece| - skip ==> from + |content| == Wanted(lines, q, L, pos + |piece|))
  {
    hide Normal, Start, Offset;
    var from, at := From(lines, q), Start(lines, L);
    LineAt(lines, L);
    assert from + |p.content| == Wanted(lines, q, L, pos);
    InLine(lines, L, pos + skip, pos + skip + keep);
    assert piece[skip..][..keep] == lines[L][pos + skip..pos + skip + keep];
    if keep > 0 {
      assert from + |p.content| == at + pos + skip;
      Joined(Normal(lines), from, from + |p.content|, from + |p.content| + keep);
    } else {
      assert piece[skip..][..keep] == [];
    }
  }

  lemma SliceOfSlice(all: Bytes, from: nat, to: nat, a: nat, b: nat)
    requires from <= to <= |all| && a <= b <= to - from
    ensures all[from..to][a..b] == all[from + a..from + b]
  {
    var x, y := all[from..to][a..b], all[from + a..from + b];
    assert |x| == |y| && forall k :: 0 <= k < |x| ==> x[k] == all[from..to][a + k] == all[from + a + k] == y[k];
  }

  lemma OneByteMore(all: Bytes, a: nat, b: nat)
    requires a <= b < |all|
    ensures all[a..b] + [all[b]] == all[a..b + 1]
  {
  }

  lemma Joined(all: Bytes, a: nat, b: nat, c: nat)
    requires a <= b <= c <= |all|
    ensures all[a..b] + all[b..c] == all[a..c]
  {
  }

  lemma InLine(lines: seq<Bytes>, L: nat, a: nat, b: nat)
    requires L < |lines| && a <= b <= |lines[L]|
    ensures Start(lines, L) + |lines[L]| < |Normal(lines)|
    ensures Normal(lines)[Start(lines, L) + a..Start(lines, L) + b] == lines[L][a..b]
    ensures Normal(lines)[Start(lines, L) + |lines[L]|] == LF
  {
    LineAt(lines, L);
    hide Normal, Start;
    var all, at, next := Normal(lines), Start(lines, L), Start(lines, L + 1);
    SliceOfSlice(all, at, next, a, b);
    SliceOfSlice(lines[L] + [LF], 0, |lines[L]|, a, b);
    assert (lines[L] + [LF])[0..|lines[L]|] == lines[L];
    assert all[at..next][|lines[L]|] == LF;
  }

  lemma OffsetInside(lines: seq<Bytes>, line: nat, byte: nat)
    ensures Offset(lines, line, byte) <= |Normal(lines)|
  {
    if 1 <= line <= |lines| { LineAt(lines, line - 1); }
  }

  lemma AtTheBeginning(lines: seq<Bytes>, cut: bool, q: Request, p: Page)
    requires (cut ==> CanBeCut(lines)) && p == Page([], 0, Clamp(q.startLine), 0, false, 0, false, false)
    ensures Going(lines, cut, q, p, 0, 0, false, 0, 0)
  {
    OffsetInside(lines, Clamp(q.startLine), Clamp(q.startByte));
    assert lines[..0] == [];
  }

  /** A read that fails leaves what was read so far. */
  lemma Stops(lines: seq<Bytes>, cut: bool, q: Request, p: Page, line: nat, pos: nat, open: bool, skipped: nat, consumed: nat)
    requires (cut ==> CanBeCut(lines)) && Going(lines, cut, q, p, line, pos, open, skipped, consumed)
    ensures IsPage(lines, cut, q, p.(failed := true)) && p.startLine == Clamp(q.startLine)
  {
    hide Normal, Visible;
  }

  /** At the end of the file the page holds all the rest that the reader sees. */
  lemma Ends(lines: seq<Bytes>, cut: bool, q: Request, p: Page, line: nat, pos: nat, open: bool, skipped: nat, consumed: nat)
    requires (cut ==> CanBeCut(lines)) && Going(lines, cut, q, p, line, pos, open, skipped, consumed)
    requires AtEnd(lines, cut, line, pos) && |p.content| < q.maxBytes
    ensures IsPage(lines, cut, q, p.(finished := true)) && p.startLine == Clamp(q.startLine)
  {
    if cut { LineAt(lines, line); StartOfEnd(lines); assert open; }
    VisibleLength(lines, cut);
    hide Normal, Start, Visible;
  }

  lemma VisibleLength(lines: seq<Bytes>, cut: bool)
    requires cut ==> CanBeCut(lines)
    ensures |Visible(lines, cut)| == |Normal(lines)| - (if cut then 1 else 0)
  {
  }

  /** The limits reached: some content, and it ends where the continuation goes on. */
  lemma Fills(lines: seq<Bytes>, cut: bool, q: Request, p: Page, line: nat, pos: nat, open: bool, skipped: nat, consumed: nat)
    requires (cut ==> CanBeCut(lines)) && Going(lines, cut, q, p, line, pos, open, skipped, consumed) && q.maxBytes > 0
    requires |p.content| >= q.maxBytes || (q.maxLines > 0 && p.linesRead >= q.maxLines)
    ensures IsPage(lines, cut, q, p) && p.startLine == Clamp(q.startLine)
  {
    hide Normal, Offset, Visible;
  }

  /** What a piece adds stays within what the reader sees. */
  lemma StaysWithin(lines: seq<Bytes>, cut: bool, q: Request, p: Page, p': Page, L: nat, isPrefix: bool)
    requires (cut ==> CanBeCut(lines)) && L < |lines| && (cut && L == |lines| - 1 ==> isPrefix)
    requires Within(lines, cut, q, p)
    requires p'.content == p.content || From(lines, q) + |p'.content| <= Start(lines, L) + |lines[L]| + if isPrefix then 0 else 1
    ensures Within(lines, cut, q, p')
  {
    VisibleLength(lines, cut);
    LineAt(lines, L);
    if L + 1 < |lines| { LineAt(lines, L + 1); }
    hide Normal, Start, Visible;
  }

  /** What the counters say once the line at hand is counted. */
  lemma MidLine(lines: seq<Bytes>, q: Request, p: Page, L: nat, pos: nat, open: bool, skipped: nat, consumed: nat)
    requires Follows(lines, q, p, L, pos) && Counts(lines, q, p, L, pos, open, skipped, consumed) && Continues(lines, q, p)
    requires |p.content| < q.maxBytes && L < |lines|
    ensures p.endLine == L + (if open then 1 else 0) && p.linesRead <= |p.content| && (!open ==> pos == 0)
    ensures Follows(lines, q, p.(endLine := L + 1), L, pos)
    ensures L + 1 >= Clamp(q.startLine) ==> p.linesRead == L + 1 - Clamp(q.startLine) && (open ==> consumed == pos)
    ensures L + 1 == Clamp(q.startLine) ==> skipped == Min(Clamp(q.startByte) - 1, pos)
    ensures L + 1 < Clamp(q.startLine) ==> p.content == [] && p.linesRead == 0 && skipped == 0 && !p.truncated
  {
    hide Normal, Start, Offset, Wanted;
  }

  /** A line before the requested one passes by. */
  lemma Passes(lines: seq<Bytes>, q: Request, p: Page, L: nat, pos: nat, line: nat, pos': nat, isPrefix: bool, consumed: nat)
    requires L < |lines| && L + 1 < Clamp(q.startLine) && p.endLine == L + 1 && p.content == [] && p.linesRead == 0 && !p.truncated
    requires Follows(lines, q, p, L, pos)
    requires if isPrefix then line == L && pos' <= |lines[L]| else line == L + 1 && pos' == 0
    ensures Follows(lines, q, p, line, pos') && Counts(lines, q, p, line, pos', isPrefix, 0, consumed) && Continues(lines, q, p)
  {
    hide Normal, Start;
  }

  /** After the last byte of a line its line feed is next. */
  lemma EndsLine(lines: seq<Bytes>, q: Request, p: Page, L: nat)
    requires L < |lines| && |p.content| < q.maxBytes
    requires var from := From(lines, q);
             && from + |p.content| == Start(lines, L) + |lines[L]| <= |Normal(lines)|
             && p.content == Normal(lines)[from..from + |p.content|]
    ensures var from, content := From(lines, q), p.content + [LF];
            && from + |content| == Start(lines, L + 1) <= |Normal(lines)| && content == Normal(lines)[from..from + |content|]
  {
    LineAt(lines, L);
    InLine(lines, L, 0, 0);
    hide *;
    OneByteMore(Normal(lines), From(lines, q), From(lines, q) + |p.content|);
  }

  /** Accounts for one piece: a new line is counted at its first piece, lines before the requested one pass by. */
  method Account(ghost lines: seq<Bytes>, ghost cut: bool, q: Request, p: Page, ghost L: nat, ghost pos: nat, read: Read,
                 open: bool, skippedBefore: nat, consumedBefore: nat)
    returns (p': Page, skipped: nat, consumed: nat)
    requires L < |lines| && read.Chunk? && IsPiece(lines, L, pos, read)
    requires (cut ==> CanBeCut(lines)) && (cut && L == |lines| - 1 ==> read.isPrefix)
    requires Going(lines, cut, q, p, L, pos, open, skippedBefore, consumedBefore)
    requires |p.content| < q.maxBytes && (q.maxLines > 0 ==> p.linesRead < q.maxLines)
    ensures Going(lines, cut, q, p', After(L, read), PosAfter(pos, read), read.isPrefix, skipped, consumed)
  {
    hide Follows, Counts, Continues, Within, Normal, Start, Clamp;
    var piece, isPrefix := read.bytes, read.isPrefix;
    p', skipped, consumed := p, skippedBefore, consumedBefore;
    MidLine(lines, q, p, L, pos, open, skipped, consumed);
    if !open {
      p' := p'.(endLine := p'.endLine + 1);
      consumed := 0;
    }
    assert p' == p.(endLine := L + 1);
    if p'.endLine >= Clamp(q.startLine) {
      p', skipped, consumed := Take(lines, q, p', L, pos, piece, isPrefix, skipped, consumed);
    } else {
      Passes(lines, q, p', L, pos, if isPrefix then L else L + 1, if isPrefix then pos + |piece| else 0, isPrefix, consumed);
    }
    StaysWithin(lines, cut, q, p, p', L, isPrefix);
  }

  method ReadPaged(r: LineReader, q: Request) returns (p: Page)
    requires r.Valid() && r.line == 0 && r.pos == 0 && q.maxBytes > 0
    modifies r
    ensures FillsExactly(r.text, r.size) ==> CanBeCut(Lines(r.text))
    ensures IsPage(Lines(r.text), FillsExactly(r.text, r.size), q, p) && p.startLine == Clamp(q.startLine)
    ensures var all, from := Ended(Cleaned(r.text)), From(Lines(r.text), q);
            from + |p.content| <= |all| && p.content == all[from..from + |p.content|]
  {
    hide *;
    ghost var lines, cut := r.lines, r.cut;
    ValidMeansCuttable(r);
    p := Page([], 0, Clamp(q.startLine), 0, false, 0, false, false);
    var open, skipped: nat, consumed: nat := false, 0, 0;
    AtTheBeginning(lines, cut, q, p);
    while !(|p.content| >= q.maxBytes || (q.maxLines > 0 && p.linesRead >= q.maxLines))
      invariant r.Valid() && Going(lines, cut, q, p, r.line, r.pos, open, skipped, consumed)
      decreases r.Left()
    {
      ghost var L, pos := r.line, r.pos;
      var read := r.ReadLine();
      if read.Broken? {
        Stops(lines, cut, q, p, r.line, r.pos, open, skipped, consumed);
        p := p.(failed := true);
        PageOfText(r.text, r.size, q, p);
        return;
      }
      if read.Eof? {
        Ends(lines, cut, q, p, r.line, r.pos, open, skipped, consumed);
        p := p.(finished := true);
        PageOfText(r.text, r.size, q, p);
        return;
      }
      p, skipped, consumed := Account(lines, cut, q, p, L, pos, read, open, skipped, consumed);
      open := read.isPrefix;
    }
    Fills(lines, cut, q, p, r.line, r.pos, open, skipped, consumed);
    PageOfText(r.text, r.size, q, p);
  }

  /** A page is part of the text without carriage returns before line feeds. */
  lemma PageOfText(text: Bytes, size: nat, q: Request, p: Page)
    requires size >= 2 && (FillsExactly(text, size) ==> CanBeCut(Lines(text)))
    requires IsPage(Lines(text), FillsExactly(text, size), q, p)
    ensures var all, from := Ended(Cleaned(text)), From(Lines(text), q);
            from + |p.content| <= |all| && p.content == all[from..from + |p.content|]
  {
    NormalIsCleaned(text);
    hide Cleaned, Lines, Normal, Offset, FillsExactly, Visible, Within;
  }

  lemma ValidMeansCuttable(r: LineReader)
    requires r.Valid()
    ensures r.size >= 2 && r.lines == Lines(r.text) && r.cut == FillsExactly(r.text, r.size) && (r.cut ==> CanBeCut(r.lines))
  {
    if r.cut { FilledIsALine(r.text); }
  }

  // ---------------------------------------------------------------- page after page

  /** Reads a file from its first byte with the continuation rule, page after page with limits that may change, each
      page from a reader of its own, until the end or a failing read. The pages make the lines, each ended by one line
      feed, exactly when the last line does not fill the buffer; otherwise just the last line feed is missing. */
  method ReadAll(text: Bytes, size: nat) returns (pages: seq<Page>, complete: bool)
    requires size >= 2
    ensures FillsExactly(text, size) ==> CanBeCut(Lines(text))
    ensures Together(pages) <= Visible(Lines(text), FillsExactly(text, size))
    ensures complete ==> Together(pages) == Visible(Lines(text), FillsExactly(text, size))
    ensures complete ==> (Together(pages) == Ended(Cleaned(text)) <==> !FillsExactly(text, size))
    ensures complete && FillsExactly(text, size) ==> Together(pages) + [LF] == Ended(Cleaned(text))
    ensures complete <==> |pages| > 0 && pages[|pages| - 1].finished && !pages[|pages| - 1].failed
  {
    hide *;
    ghost var lines, cut := Lines(text), FillsExactly(text, size);
    if cut { FillsALine(text, size); }
    pages, complete := [], false;
    var line, byte := 1, 1;
    NothingRead(lines, cut);
    NormalIsCleaned(text);
    ShortByALineFeed(lines);
    while true
      invariant line >= 1 && byte >= 1 && !complete && (|pages| > 0 ==> !pages[|pages| - 1].finished)
      invariant |Together(pages)| == Offset(lines, line, byte) && Together(pages) <= Visible(lines, cut)
      decreases |Visible(lines, cut)| - |Together(pages)|
    {
      var maxBytes: int, maxLines: int := *, *;
      if maxBytes <= 0 { return; } // the caller reads no further
      var q := Request(maxBytes, maxLines, line, byte);
      var r := new LineReader(text, size);
      ghost var before := Together(pages);
      var p := ReadPaged(r, q);
      Appended(pages, p);
      RequestsAt(lines, q);
      PageFollows(lines, cut, q, p, before);
      pages := pages + [p];
      if p.failed { return; }
      if p.finished { complete := true; return; }
      line, byte := NextLine(p), NextByte(p);
    }
  }

  lemma ShortByALineFeed(lines: seq<Bytes>)
    ensures CanBeCut(lines) ==> Visible(lines, true) + [LF] == Normal(lines)
  {
  }

  lemma FillsALine(text: Bytes, size: nat)
    requires size >= 2 && FillsExactly(text, size)
    ensures CanBeCut(Lines(text))
  {
    FilledIsALine(text);
  }

  /** A file of one buffer without a line feed: what its pages make together has none either. */
  lemma OneBufferIsCut(text: Bytes, size: nat)
    requires size >= 2 && |text| == size && LF !in text && text[size - 1] != CR
    ensures FillsExactly(text, size) && CanBeCut(Lines(text))
    ensures Normal(Lines(text)) == text + [LF] && Visible(Lines(text), true) == text
  {
    assert FirstLineFeed(text) == |text| by { LineFeedAt(text, |text|); }
    hide FirstLineFeed;
    assert text[size..] == [] && Drained([], size);
    NormalFromFront(text, []);
    assert [text] + [] == [text] && Normal([]) == [];
  }

  lemma RequestsAt(lines: seq<Bytes>, q: Request)
    requires q.startLine >= 1 && q.startByte >= 1
    ensures From(lines, q) == Offset(lines, q.startLine, q.startByte)
  {
  }

  function Together(pages: seq<Page>): Bytes {
    if |pages| == 0 then [] else Together(pages[..|pages| - 1]) + pages[|pages| - 1].content
  }

  lemma Appended(pages: seq<Page>, p: Page)
    ensures Together(pages + [p]) == Together(pages) + p.content
  {
    assert (pages + [p])[..|pages|] == pages;
  }

  lemma NothingRead(lines: seq<Bytes>, cut: bool)
    requires cut ==> CanBeCut(lines)
    ensures Together([]) == [] && Offset(lines, 1, 1) == 0
    ensures Visible(lines, cut) == Normal(lines) <==> !cut
  {
    assert lines[..0] == [];
    VisibleLength(lines, cut);
  }

  /** A page read where the text so far ends goes on with it, ends where the next request begins, and when it is not
      the last it adds something. */
  lemma PageFollows(lines: seq<Bytes>, cut: bool, q: Request, p: Page, before: Bytes)
    requires (cut ==> CanBeCut(lines)) && IsPage(lines, cut, q, p)
    requires before <= Visible(lines, cut) && |before| == From(lines, q)
    ensures before + p.content <= Visible(lines, cut) && |Visible(lines, cut)| == |Normal(lines)| - (if cut then 1 else 0)
    ensures !p.failed ==> |before + p.content| == Offset(lines, NextLine(p), NextByte(p))
    ensures !p.failed && p.finished ==> before + p.content == Visible(lines, cut)
    ensures !p.failed && !p.finished ==> |p.content| > 0 && NextLine(p) >= 1 && NextByte(p) >= 1
  {
    VisibleLength(lines, cut);
    var seen, from := Visible(lines, cut), From(lines, q);
    SeenIn(lines, cut, from, from + |p.content|);
    assert p.content != [] ==> from + |p.content| <= |seen|;
    hide Normal, Start, Visible, Within;
    PrefixGrows(seen, before, p.content);
  }

  lemma SeenIn(lines: seq<Bytes>, cut: bool, a: nat, b: nat)
    requires cut ==> CanBeCut(lines)
    ensures a <= b <= |Visible(lines, cut)| ==> Visible(lines, cut)[a..b] == Normal(lines)[a..b]
  {
    if cut && a <= b <= |Visible(lines, cut)| { SliceOfSlice(Normal(lines), 0, |Normal(lines)| - 1, a, b); }
  }

  lemma PrefixGrows(all: Bytes, before: Bytes, piece: Bytes)
    requires before <= all
    requires piece != [] ==> |before| + |piece| <= |all| && piece == all[|before|..|before| + |piece|]
    ensures before + piece <= all && (|before| + |piece| >= |all| ==> before + piece == all)
  {
    if piece == [] {
      assert before + piece == before;
    } else {
      assert all[..|before|] + all[|before|..|before| + |piece|] == all[..|before| + |piece|];
    }
  }
}
