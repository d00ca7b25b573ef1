/** Lines of a text, and Go's bufio.Reader.ReadLine over it: how internal/domain/tools/pagedread.go gets its lines. */
module BufferedReader {
  import opened Words

  const LF: Byte := 10
  const CR: Byte := 13

  // ---------------------------------------------------------------- a text as lines

  /** The lines of a text: each ends at a line feed, which goes with a carriage return before it; what follows the
      last line feed is a line only when it is not empty. */
  function Lines(text: Bytes): seq<Bytes> {
    if |text| == 0 then []
    else
      var n := FirstLineFeed(text);
      if n == |text| then [text] else [WithoutReturn(text[..n])] + Lines(text[n + 1..])
  }

  function FirstLineFeed(text: Bytes): (n: nat)
    ensures n <= |text| && (n < |text| ==> text[n] == LF) && forall k :: 0 <= k < n ==> text[k] != LF
  {
    if |text| == 0 || text[0] == LF then 0 else 1 + FirstLineFeed(text[1..])
  }

  function WithoutReturn(line: Bytes): Bytes {
    if |line| > 0 && line[|line| - 1] == CR then line[..|line| - 1] else line
  }

  /** What follows the last line feed. */
  function LastLine(text: Bytes): Bytes {
    var n := FirstLineFeed(text);
    if n == |text| then text else LastLine(text[n + 1..])
  }

  /** The last line is what it is called: no line feed in it, and one right before it. */
  lemma {:induction false} LastLineIs(text: Bytes)
    ensures var last := LastLine(text);
            && |last| <= |text| && text[|text| - |last|..] == last && LF !in last
            && (|last| < |text| ==> text[|text| - |last| - 1] == LF)
    decreases |text|
  {
    var n := FirstLineFeed(text);
    hide FirstLineFeed;
    if n < |text| {
      LastLineIs(text[n + 1..]);
    } else {
      assert LF !in text;
      assert text[0..] == text;
    }
  }

  // ---------------------------------------------------------------- the buffer

  /** A full buffer without a line feed is handed out as it is, but a carriage return at its end is put back. */
  function ChunkLength(rest: Bytes, size: nat): (n: nat)
    requires 2 <= size <= |rest|
    ensures 0 < n <= size
  {
    if rest[size - 1] == CR then size - 1 else size
  }

  /** Full buffers use up the text exactly. */
  predicate Drained(rest: Bytes, size: nat)
    requires size >= 2
  {
    if |rest| < size then |rest| == 0 else Drained(rest[ChunkLength(rest, size)..], size)
  }

  /** The last line has no line feed and its last piece ends with a full buffer. */
  predicate FillsExactly(text: Bytes, size: nat)
    requires size >= 2
  {
    LastLine(text) != [] && Drained(LastLine(text), size)
  }

  /** Without carriage returns that is a matter of the last line's length. */
  lemma {:induction false} FillsByLength(rest: Bytes, size: nat)
    requires size >= 2 && CR !in rest
    ensures Drained(rest, size) <==> |rest| % size == 0
    decreases |rest|
  {
    if |rest| >= size {
      assert rest[size - 1] in rest;
      FillsByLength(rest[size..], size);
      assert |rest| % size == (|rest| - size) % size by { ModuloStep(|rest|, size); }
    }
  }

  /** The condition for a last line without carriage returns: its length is a positive multiple of the buffer's. */
  lemma FillsByLastLine(text: Bytes, size: nat)
    requires size >= 2 && CR !in LastLine(text)
    ensures FillsExactly(text, size) <==> |LastLine(text)| > 0 && |LastLine(text)| % size == 0
  {
    FillsByLength(LastLine(text), size);
  }

  lemma ModuloStep(a: nat, b: nat)
    requires a >= b > 0
    ensures a % b == (a - b) % b
  {
    var q, q', m, m' := a / b, (a - b) / b, a % b, (a - b) % b;
    assert b * (q - q' - 1) == m' - m;
    if q > q' + 1 { Multiple(b, q - q' - 1); } else if q < q' + 1 { Multiple(b, q' + 1 - q); }
  }

  lemma Multiple(b: nat, k: nat)
    requires k > 0
    ensures b * k >= b
  {
    assert b * k == b + b * (k - 1);
  }

  datatype Read = Chunk(bytes: Bytes, isPrefix: bool) | Eof | Broken

  /** ReadLine with a buffer of `size` bytes at byte `at`: up to the first line feed when it is within the buffer,
      a full buffer otherwise, and what is left when that is less. The end of the file is noticed only by a read that
      finds room in the buffer. */
  function BufferedLine(text: Bytes, size: nat, at: nat): (r: (Read, nat))
    requires at <= |text| && size >= 2
    ensures at <= r.1 <= |text| && !r.0.Broken? && (r.0.Chunk? ==> r.1 > at)
  {
    var rest := text[at..];
    var n := FirstLineFeed(rest);
    if |rest| == 0 then (Eof, at)
    else if n < |rest| && n < size then (Chunk(WithoutReturn(rest[..n]), false), at + n + 1)
    else if |rest| < size then (Chunk(rest, false), |text|)
    else (Chunk(rest[..ChunkLength(rest, size)], true), at + ChunkLength(rest, size))
  }

  // ---------------------------------------------------------------- pieces of lines

  /** A piece of line `line` from `pos` on: not empty when more may follow, and up to the end when not. */
  predicate IsPiece(lines: seq<Bytes>, line: nat, pos: nat, r: Read)
    requires r.Chunk? && line < |lines|
  {
    && pos + |r.bytes| <= |lines[line]| && r.bytes == lines[line][pos..pos + |r.bytes|]
    && if r.isPrefix then |r.bytes| > 0 else pos + |r.bytes| == |lines[line]|
  }

  function After(line: nat, r: Read): nat
    requires r.Chunk?
  {
    if r.isPrefix then line else line + 1
  }

  function PosAfter(pos: nat, r: Read): nat
    requires r.Chunk?
  {
    if r.isPrefix then pos + |r.bytes| else 0
  }

  predicate CanBeCut(lines: seq<Bytes>) {
    |lines| > 0 && lines[|lines| - 1] != []
  }

  lemma {:induction false} FilledIsALine(text: Bytes)
    requires LastLine(text) != []
    ensures CanBeCut(Lines(text)) && Lines(text)[|Lines(text)| - 1] == LastLine(text)
    decreases |text|
  {
    var n := FirstLineFeed(text);
    if n < |text| { FilledIsALine(text[n + 1..]); }
  }

  /** Byte `at` of the text is byte `pos` of line `line`. */
  ghost predicate StandsAt(text: Bytes, size: nat, at: nat, line: nat, pos: nat)
    requires size >= 2
  {
    && pos <= at <= |text| && line <= |Lines(text)| && Lines(text)[line..] == Lines(text[at - pos..])
    && (FillsExactly(text[at - pos..], size) <==> FillsExactly(text, size))
    && pos <= FirstLineFeed(text[at - pos..])
    && (if line < |Lines(text)| then pos <= |Lines(text)[line]| else pos == 0)
    && (FirstLineFeed(text[at - pos..]) == |text| - (at - pos) > 0 ==> (FillsExactly(text, size) <==> Drained(text[at..], size)))
  }

  lemma LineFeedAt(text: Bytes, n: nat)
    requires n <= |text| && (n < |text| ==> text[n] == LF) && forall k :: 0 <= k < n ==> text[k] != LF
    ensures FirstLineFeed(text) == n
  {
    var m := FirstLineFeed(text);
    hide *;
    assert m >= n;
  }

  /** What a reader that stands at `pos` of the first line of `all` finds in the rest. */
  lemma RestOfLine(all: Bytes, pos: nat)
    requires pos <= FirstLineFeed(all)
    ensures FirstLineFeed(all[pos..]) == FirstLineFeed(all) - pos
  {
    var n := FirstLineFeed(all);
    hide *;
    assert forall k :: 0 <= k < |all| - pos ==> all[pos..][k] == all[pos + k];
    LineFeedAt(all[pos..], n - pos);
  }

  /** The first line, and what comes after it. */
  lemma FirstLine(all: Bytes)
    requires all != []
    ensures var n, lines := FirstLineFeed(all), Lines(all);
            && |lines| > 0
            && (if n == |all| then lines[0] == all && lines[1..] == [] && LastLine(all) == all
                else lines[0] == WithoutReturn(all[..n]) && lines[1..] == Lines(all[n + 1..]) && LastLine(all) == LastLine(all[n + 1..]))
  {
  }

  /** Up to the line feed of the first line. */
  lemma EndOfLine(all: Bytes, pos: nat)
    requires var n := FirstLineFeed(all); pos <= n < |all| && pos <= |WithoutReturn(all[..n])|
    ensures var n := FirstLineFeed(all); WithoutReturn(all[pos..][..n - pos]) == WithoutReturn(all[..n])[pos..]
  {
    var n := FirstLineFeed(all);
    hide FirstLineFeed, Lines, LastLine;
    var line, rest := all[..n], all[pos..][..n - pos];
    assert rest == line[pos..];
    if pos < n {
      assert rest[|rest| - 1] == line[n - 1];
      assert rest[..|rest| - 1] == line[..n - 1][pos..];
    }
  }

  /** A full buffer of the first line. */
  lemma FullBuffer(all: Bytes, pos: nat, size: nat)
    requires size >= 2 && pos + size <= |all| && pos + size <= FirstLineFeed(all)
    ensures var k := ChunkLength(all[pos..], size);
            |Lines(all)| > 0 && pos + k <= |Lines(all)[0]| && all[pos..][..k] == Lines(all)[0][pos..pos + k]
  {
    FirstLine(all);
    hide *;
    var n, k, rest := FirstLineFeed(all), ChunkLength(all[pos..], size), all[pos..];
    ChunkEnds(rest, size);
    assert rest[size - 1] == all[pos + size - 1];
    if n < |all| {
      var line := all[..n];
      ReturnIsLast(line);
      if pos + size == n { assert line[n - 1] == all[pos + size - 1]; }
      SamePiece(all, line, WithoutReturn(line), pos, k);
    } else {
      SamePiece(all, all, all, pos, k);
    }
  }

  lemma ChunkEnds(rest: Bytes, size: nat)
    requires 2 <= size <= |rest|
    ensures ChunkLength(rest, size) == size || (ChunkLength(rest, size) == size - 1 && rest[size - 1] == CR)
    ensures ChunkLength(rest, size) == size ==> rest[size - 1] != CR
  {
  }

  lemma ReturnIsLast(line: Bytes)
    ensures WithoutReturn(line) <= line
    ensures |WithoutReturn(line)| == |line| || (|WithoutReturn(line)| == |line| - 1 && line[|line| - 1] == CR)
  {
  }

  lemma SamePiece(all: Bytes, line: Bytes, kept: Bytes, pos: nat, k: nat)
    requires kept <= line <= all && pos + k <= |kept|
    ensures all[pos..][..k] == kept[pos..pos + k]
  {
  }

  /** What one call of ReadLine means for a reader that stands at `pos` of line `line`. */
  ghost predicate Advances(text: Bytes, size: nat, at: nat, line: nat, pos: nat)
    requires size >= 2 && at <= |text|
  {
    var lines, cut, (r, next) := Lines(text), FillsExactly(text, size), BufferedLine(text, size, at);
    if r.Chunk? then
      && line < |lines| && IsPiece(lines, line, pos, r) && StandsAt(text, size, next, After(line, r), PosAfter(pos, r))
      && (cut && line == |lines| - 1 ==> r.isPrefix)
    else AtEnd(lines, cut, line, pos)
  }

  /** The end of the file is met after the last line, and within it when its end was not seen. */
  predicate AtEnd(lines: seq<Bytes>, cut: bool, line: nat, pos: nat) {
    if cut then line + 1 == |lines| && pos == |lines[line]| else line == |lines|
  }

  /** The line the reader stands in. */
  lemma Here(text: Bytes, size: nat, at: nat, line: nat, pos: nat)
    requires size >= 2 && StandsAt(text, size, at, line, pos)
    ensures var all, lines := text[at - pos..], Lines(text);
            var n := FirstLineFeed(all);
            && text[at..] == all[pos..] && pos <= n && FirstLineFeed(text[at..]) == n - pos
            && (all != [] ==>
                  && line < |lines| && lines[line] == (if n == |all| then all else WithoutReturn(all[..n])) && pos <= |lines[line]|
                  && lines[line + 1..] == (if n == |all| then [] else Lines(all[n + 1..]))
                  && (FillsExactly(text, size) <==> if n == |all| then Drained(text[at..], size) else FillsExactly(all[n + 1..], size)))
            && (all == [] ==> line == |lines| && pos == 0 && !FillsExactly(text, size))
  {
    var all := text[at - pos..];
    RestOfLine(all, pos);
    if all != [] { FirstLine(all); }
    hide FirstLineFeed, LastLine, Drained, WithoutReturn;
    assert all[pos..] == text[at..];
    if all != [] {
      hide Lines;
      assert Lines(text)[line..] == Lines(all);
      assert Lines(text)[line] == Lines(all)[0];
      assert Lines(text)[line + 1..] == Lines(all)[1..];
    }
  }

  lemma ReadsOn(text: Bytes, size: nat, at: nat, line: nat, pos: nat)
    requires size >= 2 && StandsAt(text, size, at, line, pos)
    ensures Advances(text, size, at, line, pos)
  {
    Here(text, size, at, line, pos);
    var all := text[at - pos..];
    var n := FirstLineFeed(all);
    hide *;
    if |all| == pos {
      NothingLeft(text, size, at, line, pos);
    } else if n < |all| && n - pos < size {
      ToLineFeed(text, size, at, line, pos);
    } else if |all| - pos < size {
      ToTheEnd(text, size, at, line, pos);
    } else {
      Filled(text, size, at, line, pos);
    }
  }

  lemma NothingLeft(text: Bytes, size: nat, at: nat, line: nat, pos: nat)
    requires size >= 2 && StandsAt(text, size, at, line, pos) && at == |text|
    ensures Advances(text, size, at, line, pos)
  {
    Here(text, size, at, line, pos);
    hide FirstLineFeed, Lines, FillsExactly, StandsAt, IsPiece;
    assert text[at..] == [];
    if line < |Lines(text)| { assert Lines(text)[line + 1..] == [] ==> |Lines(text)| <= line + 1; }
  }

  lemma ToLineFeed(text: Bytes, size: nat, at: nat, line: nat, pos: nat)
    requires size >= 2 && pos <= at <= |text| && StandsAt(text, size, at, line, pos)
    requires var all := text[at - pos..]; var n := FirstLineFeed(all); pos <= n < |all| && n - pos < size
    ensures Advances(text, size, at, line, pos)
  {
    hide *;
    var all := text[at - pos..];
    Here(text, size, at, line, pos);
    var n := FirstLineFeed(all);
    var next := at + (n - pos) + 1;
    WholeLineRead(text, size, at, pos);
    assert text[next..] == all[n + 1..];
    if line == |Lines(text)| - 1 { NothingFollows(all[n + 1..], size); }
    LineStarts(text, size, next, line + 1);
    LastPiece(Lines(text), line, pos);
    Advanced(text, size, at, line, pos, Chunk(Lines(text)[line][pos..], false), next);
  }

  lemma LastPiece(lines: seq<Bytes>, line: nat, pos: nat)
    requires line < |lines| && pos <= |lines[line]|
    ensures IsPiece(lines, line, pos, Chunk(lines[line][pos..], false))
  {
  }

  lemma Advanced(text: Bytes, size: nat, at: nat, line: nat, pos: nat, r: Read, next: nat)
    requires size >= 2 && at <= |text| && r.Chunk? && BufferedLine(text, size, at) == (r, next)
    requires line < |Lines(text)| && IsPiece(Lines(text), line, pos, r)
    requires if r.isPrefix then StandsAt(text, size, next, line, pos + |r.bytes|) else StandsAt(text, size, next, line + 1, 0)
    requires FillsExactly(text, size) && line == |Lines(text)| - 1 ==> r.isPrefix
    ensures Advances(text, size, at, line, pos)
  {
    hide BufferedLine, Lines, FillsExactly, StandsAt, IsPiece;
  }

  lemma WholeLineRead(text: Bytes, size: nat, at: nat, pos: nat)
    requires size >= 2 && pos <= at <= |text|
    requires var all := text[at - pos..];
             var n := FirstLineFeed(all);
             pos <= n < |all| && n - pos < size && FirstLineFeed(text[at..]) == n - pos && pos <= |WithoutReturn(all[..n])|
    ensures var all := text[at - pos..];
            var n := FirstLineFeed(all);
            BufferedLine(text, size, at) == (Chunk(WithoutReturn(all[..n])[pos..], false), at + (n - pos) + 1)
  {
    hide *;
    var all := text[at - pos..];
    var n := FirstLineFeed(all);
    EndOfLine(all, pos);
    assert text[at..] == all[pos..];
    LineFeedRead(text, size, at);
  }

  lemma LineFeedRead(text: Bytes, size: nat, at: nat)
    requires size >= 2 && at <= |text| && FirstLineFeed(text[at..]) < |text| - at && FirstLineFeed(text[at..]) < size
    ensures var n := FirstLineFeed(text[at..]);
            BufferedLine(text, size, at) == (Chunk(WithoutReturn(text[at..][..n]), false), at + n + 1)
  {
    hide FirstLineFeed, WithoutReturn;
  }

  /** The reader at the start of a line. */
  lemma LineStarts(text: Bytes, size: nat, at: nat, line: nat)
    requires size >= 2 && at <= |text| && line <= |Lines(text)| && Lines(text)[line..] == Lines(text[at..])
    requires FillsExactly(text[at..], size) <==> FillsExactly(text, size)
    ensures StandsAt(text, size, at, line, 0)
  {
    if FirstLineFeed(text[at..]) == |text[at..]| { assert LastLine(text[at..]) == text[at..]; }
  }

  lemma NothingFollows(rest: Bytes, size: nat)
    requires size >= 2 && Lines(rest) == []
    ensures rest == [] && !FillsExactly(rest, size)
  {
  }

  lemma ToTheEnd(text: Bytes, size: nat, at: nat, line: nat, pos: nat)
    requires size >= 2 && pos <= at <= |text| && StandsAt(text, size, at, line, pos) && 0 < |text| - at < size
    requires FirstLineFeed(text[at - pos..]) == |text[at - pos..]|
    ensures Advances(text, size, at, line, pos)
  {
    hide *;
    Here(text, size, at, line, pos);
    RestRead(text, size, at);
    NothingAfter(text, size);
    LineStarts(text, size, |text|, line + 1);
    LastPiece(Lines(text), line, pos);
    Advanced(text, size, at, line, pos, Chunk(text[at..], false), |text|);
  }

  lemma RestRead(text: Bytes, size: nat, at: nat)
    requires size >= 2 && 0 < |text| - at < size && FirstLineFeed(text[at..]) == |text| - at
    ensures BufferedLine(text, size, at) == (Chunk(text[at..], false), |text|) && !Drained(text[at..], size)
  {
    hide FirstLineFeed;
  }

  lemma NothingAfter(text: Bytes, size: nat)
    requires size >= 2
    ensures Lines(text[|text|..]) == [] && !FillsExactly(text[|text|..], size)
  {
  }

  lemma Filled(text: Bytes, size: nat, at: nat, line: nat, pos: nat)
    requires size >= 2 && pos <= at <= |text| && StandsAt(text, size, at, line, pos) && |text| - at >= size
    requires FirstLineFeed(text[at - pos..]) - pos >= size
    ensures Advances(text, size, at, line, pos)
  {
    hide *;
    var all := text[at - pos..];
    Here(text, size, at, line, pos);
    FullBuffer(all, pos, size);
    var k := ChunkLength(text[at..], size);
    assert text[at..][k..] == text[at + k..];
    FullBufferRead(text, size, at);
    assert Lines(text)[line] == Lines(all)[0] by { FirstLine(all); }
    DrainedOn(text[at..], size);
    StandsFurther(text, size, at, line, pos, k);
    PieceOfLine(Lines(text), line, pos, k, text[at..][..k]);
    Advanced(text, size, at, line, pos, Chunk(text[at..][..k], true), at + k);
  }

  lemma PieceOfLine(lines: seq<Bytes>, line: nat, pos: nat, k: nat, piece: Bytes)
    requires line < |lines| && pos + k <= |lines[line]| && k > 0 && piece == lines[line][pos..pos + k]
    ensures IsPiece(lines, line, pos, Chunk(piece, true))
  {
  }

  lemma StandsFurther(text: Bytes, size: nat, at: nat, line: nat, pos: nat, k: nat)
    requires size >= 2 && StandsAt(text, size, at, line, pos) && at + k <= |text| && pos + k <= FirstLineFeed(text[at - pos..])
    requires line < |Lines(text)| && pos + k <= |Lines(text)[line]|
    requires Drained(text[at..], size) <==> Drained(text[at + k..], size)
    ensures StandsAt(text, size, at + k, line, pos + k)
  {
    hide FirstLineFeed, Lines, FillsExactly, Drained;
    assert (at + k) - (pos + k) == at - pos;
  }

  lemma FullBufferRead(text: Bytes, size: nat, at: nat)
    requires size >= 2 && at + size <= |text| && FirstLineFeed(text[at..]) >= size
    ensures var k := ChunkLength(text[at..], size); BufferedLine(text, size, at) == (Chunk(text[at..][..k], true), at + k)
  {
  }

  lemma DrainedOn(rest: Bytes, size: nat)
    requires 2 <= size <= |rest|
    ensures Drained(rest, size) <==> Drained(rest[ChunkLength(rest, size)..], size)
  {
  }

  // ---------------------------------------------------------------- the reader

  /** A bufio.Reader with a buffer of `size` bytes over a file that reports its end on its own. Any read may fail.
      `lines`, `line` and `pos` say where the reader stands in the text's lines, and `cut` whether the end of the
      last line will be missed. */
  class LineReader {
    const text: Bytes
    const size: nat
    var at: nat
    ghost const lines: seq<Bytes>
    ghost const cut: bool
    ghost var line: nat
    ghost var pos: nat

    ghost predicate Valid()
      reads this
    {
      && size >= 2 && lines == Lines(text) && cut == FillsExactly(text, size)
      && at <= |text| && StandsAt(text, size, at, line, pos)
    }

    /** What is left to read. */
    ghost function Left(): (n: nat)
      requires Valid()
      reads this
    {
      |text| - at
    }

    constructor (text: Bytes, size: nat)
      requires size >= 2
      ensures this.text == text && this.size == size && Valid() && at == 0 && line == 0 && pos == 0
    {
      this.text, this.size, at := text, size, 0;
      lines, cut, line, pos := Lines(text), FillsExactly(text, size), 0, 0;
      new;
      assert text[0..] == text;
      LineStarts(text, size, 0, 0);
    }

    method ReadLine() returns (r: Read)
      requires Valid()
      modifies this
      ensures Valid()
      ensures r.Broken? || (r, at) == BufferedLine(text, size, old(at))
      ensures !r.Chunk? ==> line == old(line) && pos == old(pos)
      ensures r.Eof? ==> AtEnd(lines, cut, line, pos)
      ensures r.Chunk? ==> old(line) < |lines| && Left() < old(Left()) && IsPiece(lines, old(line), old(pos), r)
      ensures r.Chunk? ==> line == After(old(line), r) && pos == PosAfter(old(pos), r)
      ensures r.Chunk? && cut && old(line) == |lines| - 1 ==> r.isPrefix
    {
      var up: bool := *;
      if !up { return Broken; }
      ReadsOn(text, size, at, line, pos);
      hide StandsAt, IsPiece, BufferedLine, FillsExactly, Lines;
      var (read, next) := BufferedLine(text, size, at);
      at := next;
      if read.Chunk? { line, pos := After(line, read), PosAfter(pos, read); }
      return read;
    }
  }
}
