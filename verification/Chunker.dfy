/** The chunking engine: tables are packed under a repeated header within a word
    bound, paragraphs are cut into pieces. A text is its whitespace-separated words. */
module Chunker {
  import opened Prelude

  type Words = seq<string>

  /** The words of `" | ".join(cells)`. */
  function Joined(cells: seq<Words>): Words {
    if cells == [] then []
    else if |cells| == 1 then cells[0]
    else Joined(cells[..|cells| - 1]) + ["|"] + cells[|cells| - 1]
  }

  function RowText(row: seq<Words>): Words { ["row:"] + Joined(row) }

  /** The header line, shortened when it alone would fill a chunk. */
  function HeaderLine(headers: seq<Words>, maxTokens: int): Words {
    var line := ["headers:"] + Joined(headers);
    if |line| >= maxTokens then ["headers:"] + line[..Min(Max(maxTokens - 4, 1), |line|)] + ["..."] else line
  }

  /** A line of a chunk; a continued piece of a long row carries a marker. */
  datatype Line = Line(continued: bool, words: Words) {
    function Text(): Words { if continued then ["row_cont:"] + words else words }
  }

  datatype Chunk = Chunk(part: nat, header: Words, lines: seq<Line>) {
    function Content(): Words { header + TextOf(lines) }
  }

  function TextOf(lines: seq<Line>): Words {
    if lines == [] then [] else TextOf(lines[..|lines| - 1]) + lines[|lines| - 1].Text()
  }

  /** The words of the lines without the markers. */
  function WordsOf(lines: seq<Line>): Words {
    if lines == [] then [] else WordsOf(lines[..|lines| - 1]) + lines[|lines| - 1].words
  }

  function LinesOf(chunks: seq<Chunk>): seq<Line> {
    if chunks == [] then [] else LinesOf(chunks[..|chunks| - 1]) + chunks[|chunks| - 1].lines
  }

  function RowWords(rows: seq<seq<Words>>): Words {
    if rows == [] then [] else RowWords(rows[..|rows| - 1]) + RowText(rows[|rows| - 1])
  }

  lemma {:induction false} WordsOfConcat(a: seq<Line>, b: seq<Line>)
    ensures WordsOf(a + b) == WordsOf(a) + WordsOf(b)
  {
    if b == [] {
      assert a + b == a;
    } else {
      assert (a + b)[..|a + b| - 1] == a + b[..|b| - 1];
      WordsOfConcat(a, b[..|b| - 1]);
    }
  }

  /* ---------- where the cells are in a text ---------- */

  /** How many words stand before cell `c`: those of the cells before it, with one
      separator after each. */
  function Offset(cells: seq<Words>, c: nat): nat
    requires c <= |cells|
  {
    if c == 0 then 0 else Offset(cells, c - 1) + |cells[c - 1]| + 1
  }

  /** How many words the cells take with a separator between neighbours. */
  function Span(cells: seq<Words>): nat {
    if cells == [] then 0 else Offset(cells, |cells| - 1) + |cells[|cells| - 1]|
  }

  predicate CellAt(words: Words, at: nat, cell: Words) {
    at + |cell| <= |words| && words[at..at + |cell|] == cell
  }

  lemma {:induction false} OffsetBelow(cells: seq<Words>, n: nat, c: nat)
    requires c <= n <= |cells|
    ensures Offset(cells[..n], c) == Offset(cells, c)
  {
    if c > 0 { OffsetBelow(cells, n, c - 1); }
  }

  lemma CellStays(words: Words, after: Words, at: nat, cell: Words)
    requires CellAt(words, at, cell)
    ensures CellAt(words + after, at, cell)
  {
    assert (words + after)[at..at + |cell|] == words[at..at + |cell|];
  }

  lemma CellMoves(before: Words, words: Words, at: nat, cell: Words)
    requires CellAt(words, at, cell)
    ensures CellAt(before + words, |before| + at, cell)
  {
    assert (before + words)[|before| + at..|before| + at + |cell|] == words[at..at + |cell|];
  }

  /** Cell `c` stands at its offset in the text from `start` on, after a separator. */
  predicate HoldsCell(words: Words, start: nat, cells: seq<Words>, c: nat)
    requires c < |cells|
  {
    && CellAt(words, start + Offset(cells, c), cells[c])
    && (c > 0 ==> CellAt(words, start + Offset(cells, c) - 1, ["|"]))
  }

  lemma {:induction false} JoinedSize(cells: seq<Words>)
    ensures |Joined(cells)| == Span(cells)
  {
    var n := |cells| - 1;
    if n > 0 {
      JoinedSize(cells[..n]);
      OffsetBelow(cells, n, n - 1);
    }
  }

  /** `" | ".join` holds every cell in its place and, by its length, nothing else. */
  lemma {:induction false} JoinedHolds(cells: seq<Words>, c: nat)
    requires c < |cells|
    ensures |Joined(cells)| == Span(cells) && HoldsCell(Joined(cells), 0, cells, c)
  {
    var n := |cells| - 1;
    JoinedSize(cells);
    if n == 0 {
      assert CellAt(cells[0], 0, cells[0]);
    } else if c == n {
      LastCellHolds(cells);
    } else {
      JoinedHolds(cells[..n], c);
      HeldCellBelow(Joined(cells[..n]), cells, n, c);
      HeldCellStays(Joined(cells[..n]), ["|"], 0, cells, c);
      HeldCellStays(Joined(cells[..n]) + ["|"], cells[n], 0, cells, c);
    }
  }

  lemma LastCellHolds(cells: seq<Words>)
    requires |cells| > 1
    ensures HoldsCell(Joined(cells), 0, cells, |cells| - 1)
  {
    LastOffset(cells);
    CellAfter(Joined(cells[..|cells| - 1]), cells, |cells| - 1);
  }

  lemma LastOffset(cells: seq<Words>)
    requires |cells| > 1
    ensures Offset(cells, |cells| - 1) == |Joined(cells[..|cells| - 1])| + 1
  {
    var n := |cells| - 1;
    JoinedSize(cells[..n]);
    OffsetBelow(cells, n, n - 1);
  }

  lemma CellAfter(before: Words, cells: seq<Words>, c: nat)
    requires 0 < c < |cells| && Offset(cells, c) == |before| + 1
    ensures HoldsCell(before + ["|"] + cells[c], 0, cells, c)
  {
    JoinedMore(before, cells[c]);
  }

  lemma HeldCellBelow(words: Words, cells: seq<Words>, n: nat, c: nat)
    requires c < n <= |cells| && HoldsCell(words, 0, cells[..n], c)
    ensures HoldsCell(words, 0, cells, c)
  {
    OffsetBelow(cells, n, c);
  }

  lemma JoinedMore(before: Words, cell: Words)
    ensures var text := before + ["|"] + cell;
            CellAt(text, |before|, ["|"]) && CellAt(text, |before| + 1, cell)
  {
    assert CellAt(["|"], 0, ["|"]) && CellAt(cell, 0, cell);
    CellMoves(before, ["|"], 0, ["|"]);
    CellStays(before + ["|"], cell, |before|, ["|"]);
    CellMoves(before + ["|"], cell, 0, cell);
  }

  /** Where row `r` starts when every row takes its tag and its cells. */
  function RowStart(rows: seq<seq<Words>>, r: nat): nat
    requires r <= |rows|
  {
    if r == 0 then 0 else RowStart(rows, r - 1) + 1 + Span(rows[r - 1])
  }

  lemma {:induction false} RowStartBelow(rows: seq<seq<Words>>, n: nat, r: nat)
    requires r <= n <= |rows|
    ensures RowStart(rows[..n], r) == RowStart(rows, r)
  {
    if r > 0 { RowStartBelow(rows, n, r - 1); }
  }

  predicate HoldsTag(words: Words, rows: seq<seq<Words>>, r: nat)
    requires r < |rows|
  {
    CellAt(words, RowStart(rows, r), ["row:"])
  }

  predicate HoldsCellOf(words: Words, rows: seq<seq<Words>>, r: nat, c: nat)
    requires r < |rows| && c < |rows[r]|
  {
    HoldsCell(words, RowStart(rows, r) + 1, rows[r], c)
  }

  /** The text is the rows in order, each its tag and then its cells with one separator
      between neighbours, and nothing else. */
  predicate HoldsRows(words: Words, rows: seq<seq<Words>>) {
    && |words| == RowStart(rows, |rows|)
    && (forall r: nat | r < |rows| :: HoldsTag(words, rows, r))
    && (forall r: nat, c: nat | r < |rows| && c < |rows[r]| :: HoldsCellOf(words, rows, r, c))
  }

  lemma RowTextSize(row: seq<Words>)
    ensures |RowText(row)| == 1 + Span(row)
  {
    JoinedSize(row);
  }

  lemma {:induction false} RowWordsSize(rows: seq<seq<Words>>)
    ensures |RowWords(rows)| == RowStart(rows, |rows|)
  {
    if rows != [] {
      var n := |rows| - 1;
      RowWordsSize(rows[..n]);
      RowStartBelow(rows, n, n);
      RowTextSize(rows[n]);
    }
  }

  lemma {:induction false} RowWordsHoldTag(rows: seq<seq<Words>>, r: nat)
    requires r < |rows|
    ensures HoldsTag(RowWords(rows), rows, r)
  {
    var n := |rows| - 1;
    var before, text := RowWords(rows[..n]), RowText(rows[n]);
    RowStartBelow(rows, n, r);
    if r < n {
      RowWordsHoldTag(rows[..n], r);
      CellStays(before, text, RowStart(rows, r), ["row:"]);
    } else {
      RowWordsSize(rows[..n]);
      assert CellAt(["row:"], 0, ["row:"]);
      CellStays(["row:"], Joined(rows[n]), 0, ["row:"]);
      CellMoves(before, text, 0, ["row:"]);
    }
  }

  lemma {:induction false} RowWordsHoldCell(rows: seq<seq<Words>>, r: nat, c: nat)
    requires r < |rows| && c < |rows[r]|
    ensures HoldsCellOf(RowWords(rows), rows, r, c)
  {
    var n := |rows| - 1;
    if r < n {
      RowStartBelow(rows, n, r);
      RowWordsHoldCell(rows[..n], r, c);
      HeldCellStays(RowWords(rows[..n]), RowText(rows[n]), RowStart(rows, r) + 1, rows[r], c);
    } else {
      LastRowHoldsCell(rows, c);
    }
  }

  lemma LastRowHoldsCell(rows: seq<seq<Words>>, c: nat)
    requires rows != [] && c < |rows[|rows| - 1]|
    ensures HoldsCellOf(RowWords(rows), rows, |rows| - 1, c)
  {
    var n := |rows| - 1;
    RowTextHoldsCell(rows[n], c);
    HeldCellMoves(RowWords(rows[..n]), RowText(rows[n]), 1, rows[n], c);
    LastRowStart(rows);
  }

  lemma LastRowStart(rows: seq<seq<Words>>)
    requires rows != []
    ensures RowStart(rows, |rows| - 1) == |RowWords(rows[..|rows| - 1])|
  {
    RowStartBelow(rows, |rows| - 1, |rows| - 1);
    RowWordsSize(rows[..|rows| - 1]);
  }

  lemma RowTextHoldsCell(row: seq<Words>, c: nat)
    requires c < |row|
    ensures HoldsCell(RowText(row), 1, row, c)
  {
    JoinedHolds(row, c);
    HeldCellMoves(["row:"], Joined(row), 0, row, c);
  }

  lemma HeldCellStays(words: Words, after: Words, start: nat, cells: seq<Words>, c: nat)
    requires c < |cells| && HoldsCell(words, start, cells, c)
    ensures HoldsCell(words + after, start, cells, c)
  {
    CellStays(words, after, start + Offset(cells, c), cells[c]);
    if c > 0 { CellStays(words, after, start + Offset(cells, c) - 1, ["|"]); }
  }

  lemma HeldCellMoves(before: Words, words: Words, start: nat, cells: seq<Words>, c: nat)
    requires c < |cells| && HoldsCell(words, start, cells, c)
    ensures HoldsCell(before + words, |before| + start, cells, c)
  {
    CellMoves(before, words, start + Offset(cells, c), cells[c]);
    if c > 0 { CellMoves(before, words, start + Offset(cells, c) - 1, ["|"]); }
  }

  lemma RowWordsHold(rows: seq<seq<Words>>)
    ensures HoldsRows(RowWords(rows), rows)
  {
    RowWordsSize(rows);
    forall r: nat | r < |rows| ensures HoldsTag(RowWords(rows), rows, r) { RowWordsHoldTag(rows, r); }
    forall r: nat, c: nat | r < |rows| && c < |rows[r]| ensures HoldsCellOf(RowWords(rows), rows, r, c) {
      RowWordsHoldCell(rows, r, c);
    }
  }

  /** The header is a text that holds the cells of the headers behind its tag; without room
      for it, the first words of that text between their marks. */
  lemma HeaderHolds(headers: seq<Words>, maxTokens: int, c: nat) returns (full: Words)
    requires c < |headers|
    ensures |full| == 1 + Span(headers) && full[0] == "headers:" && HoldsCell(full, 1, headers, c)
    ensures HeaderLine(headers, maxTokens) ==
            if |full| < maxTokens then full
            else ["headers:"] + full[..Min(Max(maxTokens - 4, 1), |full|)] + ["..."]
  {
    full := ["headers:"] + Joined(headers);
    JoinedSize(headers);
    HeaderHoldsCell(headers, c);
  }

  lemma HeaderHoldsCell(headers: seq<Words>, c: nat)
    requires c < |headers|
    ensures HoldsCell(["headers:"] + Joined(headers), 1, headers, c)
  {
    JoinedHolds(headers, c);
    HeldCellMoves(["headers:"], Joined(headers), 0, headers, c);
  }

  /* ---------- rows into lines ---------- */

  function Allowed(headerTokens: nat, maxTokens: int): nat { Max(maxTokens - headerTokens - 2, 1) }

  /** The pieces of a long row from word `start` on. */
  function PiecesFrom(words: Words, size: nat, start: nat): seq<Line>
    requires size > 0
    decreases |words| - start
  {
    if start >= |words| then []
    else [Line(start > 0, words[start..Min(start + size, |words|)])] + PiecesFrom(words, size, start + size)
  }

  function LinesFor(row: seq<Words>, headerTokens: nat, maxTokens: int): seq<Line> {
    var text := RowText(row);
    if |text| + headerTokens <= maxTokens then [Line(false, text)]
    else PiecesFrom(text, Allowed(headerTokens, maxTokens), 0)
  }

  function AllLines(rows: seq<seq<Words>>, headerTokens: nat, maxTokens: int): seq<Line> {
    if rows == [] then []
    else AllLines(rows[..|rows| - 1], headerTokens, maxTokens) + LinesFor(rows[|rows| - 1], headerTokens, maxTokens)
  }

  function RowLines(rows: seq<seq<Words>>, headerTokens: nat, maxTokens: int): seq<Line> {
    if rows == [] then [Line(false, ["row:"])] else AllLines(rows, headerTokens, maxTokens)
  }

  lemma WordsOfFirst(line: Line, rest: seq<Line>)
    ensures WordsOf([line] + rest) == line.words + WordsOf(rest)
  {
    WordsOfConcat([line], rest);
    assert [line][..0] == [];
    assert WordsOf([line]) == line.words;
  }

  lemma {:induction false} PiecesKeepWords(words: Words, size: nat, start: nat)
    requires size > 0 && start <= |words|
    ensures WordsOf(PiecesFrom(words, size, start)) == words[start..]
    decreases |words| - start
  {
    if start < |words| {
      var next := Min(start + size, |words|);
      WordsOfFirst(Line(start > 0, words[start..next]), PiecesFrom(words, size, start + size));
      if start + size <= |words| { PiecesKeepWords(words, size, start + size); }
      assert words[start..] == words[start..next] + words[next..];
    }
  }

  lemma {:induction false} AllLinesKeepWords(rows: seq<seq<Words>>, headerTokens: nat, maxTokens: int)
    ensures WordsOf(AllLines(rows, headerTokens, maxTokens)) == RowWords(rows)
  {
    if rows != [] {
      var before, row := rows[..|rows| - 1], rows[|rows| - 1];
      AllLinesKeepWords(before, headerTokens, maxTokens);
      LinesForKeepWords(row, headerTokens, maxTokens);
      WordsOfConcat(AllLines(before, headerTokens, maxTokens), LinesFor(row, headerTokens, maxTokens));
    }
  }

  lemma LinesForKeepWords(row: seq<Words>, headerTokens: nat, maxTokens: int)
    ensures WordsOf(LinesFor(row, headerTokens, maxTokens)) == RowText(row)
  {
    var text := RowText(row);
    if |text| + headerTokens <= maxTokens {
      assert [Line(false, text)][..0] == [];
    } else {
      PiecesKeepWords(text, Allowed(headerTokens, maxTokens), 0);
    }
  }

  /** The lines of a row: its first is not marked, every later piece is, and a row is cut
      only if it does not fit, into pieces that are full except the last. */
  lemma LinesOfARow(row: seq<Words>, headerTokens: nat, maxTokens: int, i: nat)
    requires i < |LinesFor(row, headerTokens, maxTokens)|
    ensures var lines := LinesFor(row, headerTokens, maxTokens);
            && (lines[i].continued <==> i > 0)
            && lines[i].Text() == (if i > 0 then ["row_cont:"] else []) + lines[i].words
            && (|RowText(row)| + headerTokens <= maxTokens ==> |lines| == 1)
            && (|RowText(row)| + headerTokens > maxTokens && i < |lines| - 1 ==>
                  |lines[i].words| == if headerTokens + 3 <= maxTokens then maxTokens - headerTokens - 2 else 1)
  {
    if |RowText(row)| + headerTokens > maxTokens {
      PieceAt(RowText(row), Allowed(headerTokens, maxTokens), 0, i);
    }
  }

  lemma {:induction false} PieceAt(words: Words, size: nat, start: nat, i: nat)
    requires size > 0 && i < |PiecesFrom(words, size, start)|
    ensures var pieces := PiecesFrom(words, size, start);
            && (pieces[i].continued <==> start > 0 || i > 0)
            && (i < |pieces| - 1 ==> |pieces[i].words| == size)
    decreases i
  {
    if i > 0 { PieceAt(words, size, start + size, i - 1); }
  }

  /* ---------- lines into chunks ---------- */

  datatype Packing = Packing(closed: seq<Chunk>, current: Chunk) {
    function Chunks(): seq<Chunk> { closed + [current] }
  }

  /** The packing loop after the given lines. */
  function Packed(header: Words, lines: seq<Line>, maxTokens: int): Packing {
    if lines == [] then Packing([], Chunk(1, header, []))
    else PackOne(Packed(header, lines[..|lines| - 1], maxTokens), header, lines[|lines| - 1], maxTokens)
  }

  function PackOne(p: Packing, header: Words, line: Line, maxTokens: int): Packing {
    if |p.current.Content()| + |line.Text()| > maxTokens && p.current.lines != []
    then Packing(p.closed + [p.current], Chunk(p.current.part + 1, header, [line]))
    else p.(current := p.current.(lines := p.current.lines + [line]))
  }

  function TableChunks(headers: seq<Words>, rows: seq<seq<Words>>, maxTokens: int): seq<Chunk> {
    var header := HeaderLine(headers, maxTokens);
    Packed(header, RowLines(rows, |header|, maxTokens), maxTokens).Chunks()
  }

  /* ---------- the header ---------- */

  lemma {:induction false} TextOfMore(lines: seq<Line>, line: Line)
    ensures TextOf(lines + [line]) == TextOf(lines) + line.Text()
    ensures WordsOf(lines + [line]) == WordsOf(lines) + line.words
  {
    assert (lines + [line])[..|lines|] == lines;
  }

  lemma LinesOfMore(chunks: seq<Chunk>, c: Chunk)
    ensures LinesOf(chunks + [c]) == LinesOf(chunks) + c.lines
  {
    assert (chunks + [c])[..|chunks|] == chunks;
  }

  /** The final header's length, from the bound and the length the headers ask for. */
  lemma HeaderLength(headers: seq<Words>, maxTokens: int)
    ensures var asked, h := |Joined(headers)| + 1, |HeaderLine(headers, maxTokens)|;
            h == if asked < maxTokens then asked else if maxTokens >= 5 then maxTokens - 2 else 3
    ensures HeaderLine(headers, maxTokens)[0] == "headers:"
  {
  }

  /* ---------- what packing keeps ---------- */

  /** Packing loses no line and keeps their order; every chunk starts with the
      header and chunks are numbered from one. */
  predicate WellPacked(p: Packing, header: Words, lines: seq<Line>) {
    && LinesOf(p.closed) + p.current.lines == lines
    && p.current.header == header && p.current.part == |p.closed| + 1
    && (lines != [] ==> p.current.lines != [])
    && forall i | 0 <= i < |p.closed| ::
         p.closed[i].header == header && p.closed[i].part == i + 1 && p.closed[i].lines != []
  }

  lemma PackOneKeepsLines(p: Packing, header: Words, before: seq<Line>, line: Line, maxTokens: int)
    requires WellPacked(p, header, before)
    ensures WellPacked(PackOne(p, header, line, maxTokens), header, before + [line])
  {
    if |PackOne(p, header, line, maxTokens).closed| > |p.closed| {
      LinesOfMore(p.closed, p.current);
    } else {
      assert LinesOf(p.closed) + (p.current.lines + [line]) == before + [line];
    }
  }

  lemma {:induction false} PackingKeepsLines(header: Words, lines: seq<Line>, maxTokens: int)
    ensures WellPacked(Packed(header, lines, maxTokens), header, lines)
  {
    if lines != [] {
      var before, line := lines[..|lines| - 1], lines[|lines| - 1];
      PackingKeepsLines(header, before, maxTokens);
      PackOneKeepsLines(Packed(header, before, maxTokens), header, before, line, maxTokens);
      assert lines == before + [line];
    }
  }

  /** A chunk was closed only because the next line did not fit. */
  predicate Greedy(chunks: seq<Chunk>, maxTokens: int) {
    forall i | 0 < i < |chunks| :: DidNotFit(chunks[i - 1], chunks[i], maxTokens)
  }

  predicate DidNotFit(c: Chunk, next: Chunk, maxTokens: int) {
    next.lines != [] && |c.Content()| + |next.lines[0].Text()| > maxTokens
  }

  lemma {:induction false} PackingIsGreedy(header: Words, lines: seq<Line>, maxTokens: int)
    ensures Greedy(Packed(header, lines, maxTokens).Chunks(), maxTokens)
  {
    if lines != [] {
      var before, line := lines[..|lines| - 1], lines[|lines| - 1];
      PackingIsGreedy(header, before, maxTokens);
      PackOneIsGreedy(Packed(header, before, maxTokens), header, line, maxTokens);
    }
  }

  lemma PackOneIsGreedy(p: Packing, header: Words, line: Line, maxTokens: int)
    requires Greedy(p.Chunks(), maxTokens)
    ensures Greedy(PackOne(p, header, line, maxTokens).Chunks(), maxTokens)
  {
    var q := PackOne(p, header, line, maxTokens);
    var n := |p.closed|;
    assert p.Chunks()[n] == p.current;
    forall i | 0 < i < |q.Chunks()| ensures DidNotFit(q.Chunks()[i - 1], q.Chunks()[i], maxTokens) {
      if i <= n { assert DidNotFit(p.Chunks()[i - 1], p.Chunks()[i], maxTokens); }
    }
  }

  /* ---------- the bound ---------- */

  predicate AllWithin(chunks: seq<Chunk>, bound: int) {
    forall i | 0 <= i < |chunks| :: |chunks[i].Content()| <= bound
  }

  predicate LinesWithin(lines: seq<Line>, headerTokens: nat, bound: int) {
    forall i | 0 <= i < |lines| :: headerTokens + |lines[i].Text()| <= bound
  }

  predicate PackingWithin(p: Packing, bound: int) {
    AllWithin(p.closed, bound) && (p.current.lines != [] ==> |p.current.Content()| <= bound)
  }

  lemma PackOneBound(p: Packing, header: Words, line: Line, maxTokens: int, bound: int)
    requires bound >= maxTokens && p.current.header == header
    ensures PackingWithin(PackOne(p, header, line, maxTokens), bound) <==>
            PackingWithin(p, bound) && |header| + |line.Text()| <= bound
  {
    SizesAfter(p, header, line, maxTokens);
    AllWithinMore(p.closed, p.current, bound);
  }

  lemma PackedHeader(header: Words, lines: seq<Line>, maxTokens: int)
    ensures Packed(header, lines, maxTokens).current.header == header
  {
  }

  /** A chunk is too long exactly when it holds a single line too long for any chunk. */
  lemma {:induction false} PackingBound(header: Words, lines: seq<Line>, maxTokens: int, bound: int)
    requires bound >= maxTokens
    ensures PackingWithin(Packed(header, lines, maxTokens), bound) <==> LinesWithin(lines, |header|, bound)
  {
    if lines != [] {
      var before, line := lines[..|lines| - 1], lines[|lines| - 1];
      PackingBound(header, before, maxTokens, bound);
      PackedHeader(header, before, maxTokens);
      PackOneBound(Packed(header, before, maxTokens), header, line, maxTokens, bound);
      assert lines == before + [line];
      LinesWithinMore(before, line, |header|, bound);
    }
  }

  lemma LinesWithinMore(lines: seq<Line>, line: Line, headerTokens: nat, bound: int)
    ensures LinesWithin(lines + [line], headerTokens, bound) <==>
            LinesWithin(lines, headerTokens, bound) && headerTokens + |line.Text()| <= bound
  {
    if LinesWithin(lines + [line], headerTokens, bound) {
      assert (lines + [line])[|lines|] == line;
      forall i | 0 <= i < |lines| ensures headerTokens + |lines[i].Text()| <= bound {
        assert (lines + [line])[i] == lines[i];
      }
    }
  }

  lemma AllWithinMore(chunks: seq<Chunk>, c: Chunk, bound: int)
    ensures AllWithin(chunks + [c], bound) <==> AllWithin(chunks, bound) && |c.Content()| <= bound
  {
    if AllWithin(chunks + [c], bound) {
      assert (chunks + [c])[|chunks|] == c;
      forall i | 0 <= i < |chunks| ensures |chunks[i].Content()| <= bound {
        assert (chunks + [c])[i] == chunks[i];
      }
    }
  }

  lemma SizesAfter(p: Packing, header: Words, line: Line, maxTokens: int)
    requires p.current.header == header
    ensures var q := PackOne(p, header, line, maxTokens);
            |q.current.Content()| == |line.Text()| +
              if q.closed == p.closed then |p.current.Content()| else |header|
    ensures p.current.lines == [] ==> |p.current.Content()| == |header|
    ensures |p.current.Content()| >= |header|
  {
    TextOfMore(p.current.lines, line);
    TextOfMore([], line);
    assert [] + [line] == [line];
  }

  /** Whether the bound can be kept for this row under a header of this length. */
  predicate RowFits(row: seq<Words>, headerTokens: nat, maxTokens: int) {
    headerTokens + 1 <= maxTokens && (headerTokens + 2 <= maxTokens || Joined(row) == [])
  }

  lemma {:induction false} PiecesWithin(words: Words, size: nat, start: nat, headerTokens: nat, bound: int)
    requires size > 0 && headerTokens + size + 1 <= bound
    ensures LinesWithin(PiecesFrom(words, size, start), headerTokens, bound)
    decreases |words| - start
  {
    if start < |words| { PiecesWithin(words, size, start + size, headerTokens, bound); }
  }

  /** Cutting a long row works exactly when the header leaves two words of room. */
  lemma LongRowFits(words: Words, headerTokens: nat, maxTokens: int)
    requires words != [] && |words| + headerTokens > maxTokens
    ensures LinesWithin(PiecesFrom(words, Allowed(headerTokens, maxTokens), 0), headerTokens, maxTokens)
            <==> headerTokens + 2 <= maxTokens
  {
    var size := Allowed(headerTokens, maxTokens);
    var pieces := PiecesFrom(words, size, 0);
    if headerTokens + 2 <= maxTokens {
      PiecesWithin(words, size, 0, headerTokens, maxTokens);
    } else {
      assert pieces[0] == Line(false, words[0..1]);
      if headerTokens + 1 == maxTokens {
        var rest := PiecesFrom(words, 1, 1);
        assert rest[0] == Line(true, words[1..2]);
        assert pieces[1] == rest[0];
      }
    }
  }

  lemma RowBound(row: seq<Words>, headerTokens: nat, maxTokens: int)
    ensures LinesWithin(LinesFor(row, headerTokens, maxTokens), headerTokens, maxTokens)
            <==> RowFits(row, headerTokens, maxTokens)
    ensures headerTokens + 1 <= maxTokens ==>
              LinesWithin(LinesFor(row, headerTokens, maxTokens), headerTokens, maxTokens + 1)
  {
    var text := RowText(row);
    if |text| + headerTokens > maxTokens {
      LongRowFits(text, headerTokens, maxTokens);
      if headerTokens + 1 <= maxTokens {
        PiecesWithin(text, Allowed(headerTokens, maxTokens), 0, headerTokens, maxTokens + 1);
      }
    }
  }

  lemma LinesWithinConcat(a: seq<Line>, b: seq<Line>, headerTokens: nat, bound: int)
    ensures LinesWithin(a + b, headerTokens, bound) <==>
            LinesWithin(a, headerTokens, bound) && LinesWithin(b, headerTokens, bound)
  {
    if LinesWithin(a + b, headerTokens, bound) {
      assert forall i | 0 <= i < |a| :: (a + b)[i] == a[i];
      assert forall i | 0 <= i < |b| :: (a + b)[|a| + i] == b[i];
    }
  }

  predicate AllRowsFit(rows: seq<seq<Words>>, headerTokens: nat, maxTokens: int) {
    forall i | 0 <= i < |rows| :: RowFits(rows[i], headerTokens, maxTokens)
  }

  lemma {:induction false} AllLinesBound(rows: seq<seq<Words>>, headerTokens: nat, maxTokens: int)
    ensures LinesWithin(AllLines(rows, headerTokens, maxTokens), headerTokens, maxTokens)
            <==> AllRowsFit(rows, headerTokens, maxTokens)
    ensures headerTokens + 1 <= maxTokens ==>
              LinesWithin(AllLines(rows, headerTokens, maxTokens), headerTokens, maxTokens + 1)
  {
    if rows != [] {
      var before, row := rows[..|rows| - 1], rows[|rows| - 1];
      AllLinesBound(before, headerTokens, maxTokens);
      RowBound(row, headerTokens, maxTokens);
      var lines, more := AllLines(before, headerTokens, maxTokens), LinesFor(row, headerTokens, maxTokens);
      LinesWithinConcat(lines, more, headerTokens, maxTokens);
      LinesWithinConcat(lines, more, headerTokens, maxTokens + 1);
    }
  }

  /* ---------- the results about tables ---------- */

  /** Every chunk starts with the header and is numbered; the chunks' lines, apart from the
      markers of continued pieces, are the cells of the rows in order, each row behind its
      tag and one separator between neighbouring cells; and a chunk ends only where the
      next line no longer fits. */
  lemma TablesAreConserved(headers: seq<Words>, rows: seq<seq<Words>>, maxTokens: int)
    ensures var chunks, header := TableChunks(headers, rows, maxTokens), HeaderLine(headers, maxTokens);
            && (forall i | 0 <= i < |chunks| ::
                  chunks[i].header == header && chunks[i].part == i + 1 && chunks[i].lines != [])
            && (if rows == [] then WordsOf(LinesOf(chunks)) == ["row:"] else HoldsRows(WordsOf(LinesOf(chunks)), rows))
            && Greedy(chunks, maxTokens)
  {
    RowWordsHold(rows);
    var header := HeaderLine(headers, maxTokens);
    var lines := RowLines(rows, |header|, maxTokens);
    RowLinesKeepWords(rows, |header|, maxTokens);
    PackingKeepsLines(header, lines, maxTokens);
    PackingIsGreedy(header, lines, maxTokens);
    var p := Packed(header, lines, maxTokens);
    LinesOfMore(p.closed, p.current);
  }

  lemma RowLinesKeepWords(rows: seq<seq<Words>>, headerTokens: nat, maxTokens: int)
    ensures RowLines(rows, headerTokens, maxTokens) != []
    ensures WordsOf(RowLines(rows, headerTokens, maxTokens)) == if rows == [] then ["row:"] else RowWords(rows)
  {
    if rows == [] {
      TextOfMore([], Line(false, ["row:"]));
      assert [] + [Line(false, ["row:"])] == [Line(false, ["row:"])];
    } else {
      AllLinesKeepWords(rows, headerTokens, maxTokens);
      assert RowText(rows[|rows| - 1]) != [];
    }
  }

  /** The word bound holds exactly when the header leaves a word of room, and a
      second one unless no row has more than its tag; it never fails by more than
      one word while the header leaves room at all. */
  lemma TableBound(headers: seq<Words>, rows: seq<seq<Words>>, maxTokens: int)
    ensures var chunks, h := TableChunks(headers, rows, maxTokens), |HeaderLine(headers, maxTokens)|;
            && (AllWithin(chunks, maxTokens) <==> h + 1 <= maxTokens && AllRowsFit(rows, h, maxTokens))
            && (h + 1 <= maxTokens ==> AllWithin(chunks, maxTokens + 1))
  {
    var header := HeaderLine(headers, maxTokens);
    var lines := RowLines(rows, |header|, maxTokens);
    var p := Packed(header, lines, maxTokens);
    AllLinesBound(rows, |header|, maxTokens);
    RowLinesKeepWords(rows, |header|, maxTokens);
    PackingKeepsLines(header, lines, maxTokens);
    PackingBound(header, lines, maxTokens, maxTokens);
    PackingBound(header, lines, maxTokens, maxTokens + 1);
    AllWithinMore(p.closed, p.current, maxTokens);
    AllWithinMore(p.closed, p.current, maxTokens + 1);
  }

  predicate OnlyTags(rows: seq<seq<Words>>) {
    forall i | 0 <= i < |rows| :: Joined(rows[i]) == []
  }

  /** For every usual bound the headers' own length decides: only headers of exactly
      one word less than the bound break it, by one word, and only with a row that
      says something. */
  lemma UsualTableBound(headers: seq<Words>, rows: seq<seq<Words>>, maxTokens: int)
    requires maxTokens >= 5
    ensures var chunks, asked := TableChunks(headers, rows, maxTokens), |Joined(headers)| + 1;
            && (AllWithin(chunks, maxTokens) <==> asked != maxTokens - 1 || OnlyTags(rows))
            && AllWithin(chunks, maxTokens + 1)
  {
    TableBound(headers, rows, maxTokens);
    HeaderLength(headers, maxTokens);
    var h := |HeaderLine(headers, maxTokens)|;
    if h + 2 > maxTokens && AllRowsFit(rows, h, maxTokens) {
      forall i | 0 <= i < |rows| ensures Joined(rows[i]) == [] { assert RowFits(rows[i], h, maxTokens); }
    }
  }

  /* ---------- the engine ---------- */

  datatype Kind = Table | List | Paragraph | Figure

  datatype Ldu = Ldu(kind: Kind, content: Words)

  function Lowered(c: char): char { if 'A' <= c <= 'Z' then c + 32 as char else c }

  /** Whether the lower-cased text contains `headers:`. */
  predicate MentionsHeaders(content: Words) {
    exists i, j | 0 <= i < |content| && 0 <= j <= |content[i]| - 8 :: MarkAt(content[i], j)
  }

  predicate MarkAt(word: string, j: nat)
    requires j + 8 <= |word|
  {
    forall k | 0 <= k < 8 :: Lowered(word[j + k]) == "headers:"[k]
  }

  predicate Acceptable(chunk: Ldu, maxTokens: int) {
    && (chunk.kind.Table? || chunk.kind.List? ==> |chunk.content| <= maxTokens)
    && (chunk.kind.Table? ==> MentionsHeaders(chunk.content))
  }

  lemma HeaderIsMentioned(content: Words)
    requires content != [] && content[0] == "headers:"
    ensures MentionsHeaders(content)
  {
    assert MarkAt(content[0], 0);
  }

  predicate AllAcceptable(chunks: seq<Chunk>, maxTokens: int) {
    forall i | 0 <= i < |chunks| :: Acceptable(Ldu(Table, chunks[i].Content()), maxTokens)
  }

  /** The validator accepts the chunks of a table exactly when they keep the bound. */
  lemma ValidatorAcceptsIffWithin(headers: seq<Words>, rows: seq<seq<Words>>, maxTokens: int)
    ensures var chunks := TableChunks(headers, rows, maxTokens);
            AllAcceptable(chunks, maxTokens) <==> AllWithin(chunks, maxTokens)
  {
    var chunks := TableChunks(headers, rows, maxTokens);
    TablesAreConserved(headers, rows, maxTokens);
    HeaderLength(headers, maxTokens);
    forall i | 0 <= i < |chunks| { HeaderIsMentioned(chunks[i].Content()); }
  }

  function Flat(pieces: seq<Words>): Words {
    if pieces == [] then [] else Flat(pieces[..|pieces| - 1]) + pieces[|pieces| - 1]
  }

  lemma FlatMore(pieces: seq<Words>, words: Words, i: nat, next: nat)
    requires i <= next <= |words| && Flat(pieces) == words[..i]
    ensures Flat(pieces + [words[i..next]]) == words[..next]
  {
    assert (pieces + [words[i..next]])[..|pieces|] == pieces;
  }

  lemma PackedMore(header: Words, lines: seq<Line>, i: nat, maxTokens: int)
    requires i < |lines|
    ensures Packed(header, lines[..i + 1], maxTokens) ==
            PackOne(Packed(header, lines[..i], maxTokens), header, lines[i], maxTokens)
  {
    assert lines[..i + 1][..i] == lines[..i];
  }

  /** The paragraph pieces cut so far: full ones, except that the last may be short. */
  predicate Cut(pieces: seq<Words>, size: int, lastIsFull: bool) {
    forall k | 0 <= k < |pieces| ::
      |pieces[k]| <= size && (k < |pieces| - 1 || lastIsFull ==> |pieces[k]| == size)
  }

  class ChunkingEngine {
    const maxTokens: int

    constructor (maxTokens: int)
      ensures this.maxTokens == maxTokens
    {
      this.maxTokens := maxTokens;
    }

    /** `_chunk_table`. */
    method ChunkTable(headers: seq<Words>, rows: seq<seq<Words>>) returns (chunks: seq<Chunk>)
      ensures chunks == TableChunks(headers, rows, maxTokens)
    {
      var headerLine := ["headers:"] + Joined(headers);
      if |headerLine| >= maxTokens {
        headerLine := ["headers:"] + headerLine[..Min(Max(maxTokens - 4, 1), |headerLine|)] + ["..."];
      }
      var rowLines := CollectRowLines(rows, |headerLine|);
      if rowLines == [] { rowLines := [Line(false, ["row:"])]; }
      chunks := PackLines(headerLine, rowLines);
    }

    /** Its first loop: rows that fit stay whole, the others are cut. */
    method CollectRowLines(rows: seq<seq<Words>>, headerTokens: nat) returns (rowLines: seq<Line>)
      ensures rowLines == AllLines(rows, headerTokens, maxTokens)
      ensures rowLines == [] <==> rows == []
    {
      rowLines := [];
      for i := 0 to |rows|
        invariant rowLines == AllLines(rows[..i], headerTokens, maxTokens)
        invariant rowLines == [] <==> i == 0
      {
        assert rows[..i + 1][..i] == rows[..i];
        var text := RowText(rows[i]);
        if |text| + headerTokens <= maxTokens {
          rowLines := rowLines + [Line(false, text)];
        } else {
          var pieces := CutRow(text, Max(maxTokens - headerTokens - 2, 1));
          rowLines := rowLines + pieces;
        }
      }
      assert rows[..|rows|] == rows;
    }

    static method CutRow(words: Words, allowed: nat) returns (pieces: seq<Line>)
      requires allowed > 0 && words != []
      ensures pieces == PiecesFrom(words, allowed, 0) && pieces != []
    {
      pieces := [];
      var idx := 0;
      while idx < |words|
        invariant pieces + PiecesFrom(words, allowed, idx) == PiecesFrom(words, allowed, 0)
        invariant pieces == [] ==> idx == 0
      {
        var piece := Line(idx > 0, words[idx..Min(idx + allowed, |words|)]);
        assert pieces + ([piece] + PiecesFrom(words, allowed, idx + allowed)) ==
               (pieces + [piece]) + PiecesFrom(words, allowed, idx + allowed);
        pieces := pieces + [piece];
        idx := idx + allowed;
      }
      assert pieces + [] == pieces;
    }

    /** Its second loop: the lines are packed under the header. */
    method PackLines(headerLine: Words, rowLines: seq<Line>) returns (chunks: seq<Chunk>)
      ensures chunks == Packed(headerLine, rowLines, maxTokens).Chunks()
    {
      chunks := [];
      var lines: seq<Line>, part: nat, tokens := [], 1, |headerLine|;
      for i := 0 to |rowLines|
        invariant Packed(headerLine, rowLines[..i], maxTokens) == Packing(chunks, Chunk(part, headerLine, lines))
        invariant tokens == |headerLine| + |TextOf(lines)|
      {
        PackedMore(headerLine, rowLines, i, maxTokens);
        var line := rowLines[i];
        if tokens + |line.Text()| > maxTokens && lines != [] {
          chunks := chunks + [Chunk(part, headerLine, lines)];
          part, lines, tokens := part + 1, [], |headerLine|;
        }
        TextOfMore(lines, line);
        assert lines == [] ==> lines + [line] == [line];
        lines := lines + [line];
        tokens := tokens + |line.Text()|;
      }
      assert rowLines[..|rowLines|] == rowLines;
      chunks := chunks + [Chunk(part, headerLine, lines)];
    }

    /** `_split_into_paragraph_chunks`: a bound of zero makes the range raise, a
        negative one makes it empty. */
    method SplitIntoParagraphChunks(words: Words) returns (result: Result<seq<Words>, Error>)
      ensures result.Ok? && Flat(result.value) == words <==> maxTokens > 0 || words == []
      ensures maxTokens > 0 ==> Cut(result.value, maxTokens, false)
      ensures |words| <= maxTokens ==> result == Ok([words])
      ensures result.Err? <==> maxTokens == 0 && words != []
    {
      if |words| <= maxTokens {
        assert [words][..0] == [];
        return Ok([words]);
      }
      if maxTokens == 0 { return Err(DomainError); }
      var pieces: seq<Words>, i := [], 0;
      while maxTokens > 0 && i < |words|
        invariant 0 <= i && Flat(pieces) == words[..Min(i, |words|)]
        invariant maxTokens < 0 ==> i == 0
        invariant Cut(pieces, maxTokens, i <= |words|)
        decreases |words| - i
      {
        var next := Min(i + maxTokens, |words|);
        FlatMore(pieces, words, i, next);
        pieces := pieces + [words[i..next]];
        i := i + maxTokens;
      }
      result := Ok(pieces);
    }

    /** `ChunkValidator.validate`. */
    method Validate(chunks: seq<Ldu>) returns (result: Result<(), Error>)
      ensures result.Ok? <==> forall i | 0 <= i < |chunks| ::
                && ((chunks[i].kind.Table? || chunks[i].kind.List?) ==> |chunks[i].content| <= maxTokens)
                && (chunks[i].kind.Table? ==> MentionsHeaders(chunks[i].content))
    {
      for i := 0 to |chunks|
        invariant forall j | 0 <= j < i :: Acceptable(chunks[j], maxTokens)
      {
        var chunk := chunks[i];
        if |chunk.content| > maxTokens && (chunk.kind.Table? || chunk.kind.List?) { return Err(DomainError); }
        if chunk.kind.Table? && !MentionsHeaders(chunk.content) { return Err(DomainError); }
      }
      result := Ok(());
    }
  }
}
