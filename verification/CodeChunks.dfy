/** Cutting a source file into chunks of lines, and merging line ranges of hits
    (python/attemory/code/project.py, python/attemory/code/cli.py). */
module CodeChunks {
  import opened Basics

  // ----- Text -----

  /** The characters that Python's `str.strip` removes. */
  predicate IsSpace(c: char) {
    || '\t' <= c <= '\r' || c == ' '
    || '\U{1c}' <= c <= '\U{1f}' || c == '\U{85}' || c == '\U{a0}' || c == '\U{1680}'
    || '\U{2000}' <= c <= '\U{200a}' || c == '\U{2028}' || c == '\U{2029}'
    || c == '\U{202f}' || c == '\U{205f}' || c == '\U{3000}'
  }

  predicate IsBlank(text: string) {
    forall c | c in text :: IsSpace(c)
  }

  function WithoutLineEnd(line: string): string {
    if line != [] && (Last(line) == '\n' || Last(line) == '\r') then WithoutLineEnd(Init(line)) else line
  }

  function Joined(lines: seq<string>): string {
    if lines == [] then [] else Joined(Init(lines)) + Last(lines)
  }

  lemma {:induction false} PlainLineIsBlank(line: string)
    ensures IsBlank(WithoutLineEnd(line)) <==> IsBlank(line)
  {
    if line != [] {
      assert line == Init(line) + [Last(line)];
      PlainLineIsBlank(Init(line));
    }
  }

  lemma {:induction false} JoinedOfConcat(a: seq<string>, b: seq<string>)
    ensures Joined(a + b) == Joined(a) + Joined(b)
    decreases |b|
  {
    if b == [] {
      assert a + b == a;
    } else {
      assert Init(a + b) == a + Init(b);
      JoinedOfConcat(a, Init(b));
      TextAssociates(Joined(a), Joined(Init(b)), Last(b));
    }
  }

  lemma TextAssociates(a: string, b: string, c: string)
    ensures (a + b) + c == a + (b + c)
  {
  }

  lemma {:induction false} JoinedIsBlank(lines: seq<string>)
    ensures IsBlank(Joined(lines)) <==> forall k :: 0 <= k < |lines| ==> IsBlank(lines[k])
  {
    if lines != [] {
      JoinedIsBlank(Init(lines));
      var a, b := Joined(Init(lines)), Last(lines);
      assert IsBlank(a + b) <==> IsBlank(a) && IsBlank(b) by {
        assert forall c :: c in a + b <==> c in a || c in b;
      }
      assert lines[|lines| - 1] == b;
      assert forall k :: 0 <= k < |lines| - 1 ==> lines[k] == Init(lines)[k];
    }
  }

  // ----- Chunks -----

  /** Lines are numbered from one; both ends belong to the chunk. */
  datatype Chunk = Chunk(start: int, end: int, text: string)

  /** The file and how it is to be cut. */
  datatype Cutting = Cutting(lines: seq<string>, chunkLines: int, window: int) {

    function Size(): int {
      Max(chunkLines, 1)
    }

    function BlankAt(line: int): bool
      requires 1 <= line <= |lines|
    {
      IsBlank(lines[line - 1])
    }

    /** Where a piece that starts at `start` would end by its size alone. */
    function Nominal(start: int): int {
      Min(|lines|, start + Size() - 1)
    }

    /** How far a piece may be stretched to end at a blank line. */
    function Reach(start: int): int {
      if Nominal(start) < |lines| && window > 0 then Min(|lines|, Nominal(start) + window) else Nominal(start)
    }

    /** A piece ends at the first blank line within reach, and at its nominal end when there is none. */
    predicate EndsRight(start: int, end: int)
      requires 1 <= start <= |lines|
    {
      && Nominal(start) <= end <= Reach(start)
      && (forall line | Nominal(start) <= line < end :: !BlankAt(line))
      && (end != Nominal(start) ==> BlankAt(end))
      && (end == Nominal(start) && !BlankAt(end) && Reach(start) > Nominal(start) ==>
            forall line | Nominal(start) <= line <= Reach(start) :: !BlankAt(line))
    }

    function Piece(start: int, end: int): Chunk
      requires 1 <= start <= end <= |lines|
    {
      Chunk(start, end, Joined(lines[start - 1..end]))
    }

    /** The ends of consecutive pieces up to line `upTo`. */
    ghost predicate Cuts(ends: seq<int>, upTo: int) {
      && (ends == [] ==> upTo == 0) && (ends != [] ==> upTo == Last(ends))
      && upTo <= |lines|
      && forall k :: 0 <= k < |ends| ==> CutRight(ends, k)
    }

    ghost predicate CutRight(ends: seq<int>, k: int)
      requires 0 <= k < |ends|
    {
      1 <= StartOf(ends, k) <= ends[k] <= |lines| && EndsRight(StartOf(ends, k), ends[k])
    }

    ghost function StartOf(ends: seq<int>, k: int): int
      requires 0 <= k < |ends|
    {
      if k == 0 then 1 else ends[k - 1] + 1
    }

    /** The pieces that are not all blank. */
    ghost function Kept(ends: seq<int>): seq<Chunk> {
      if ends == [] then []
      else
        var start, end := StartOf(ends, |ends| - 1), Last(ends);
        if 1 <= start <= end <= |lines| && !IsBlank(Piece(start, end).text)
        then Kept(Init(ends)) + [Piece(start, end)]
        else Kept(Init(ends))
    }
  }

  /** Cuts the file: the chunks are the non-blank ones of consecutive pieces that end where they
      should. Which pieces these are is determined by the file. */
  method SplitCode(lines: seq<string>, chunkLines: int, window: int) returns (chunks: seq<Chunk>)
    ensures exists ends ::
              Cutting(lines, chunkLines, window).Cuts(ends, |lines|) && chunks == Cutting(lines, chunkLines, window).Kept(ends)
  {
    hide IsBlank, Joined, Cutting.EndsRight, Cutting.Cuts, Cutting.StartOf;
    ghost var c := Cutting(lines, chunkLines, window);
    chunks := [];
    ghost var ends: seq<int> := [];
    NoCuts(c);
    var plain := seq(|lines|, i requires 0 <= i < |lines| => WithoutLineEnd(lines[i]));
    var start, total := 1, |lines|;
    while start <= total
      invariant 1 <= start <= total + 1
      invariant c.Cuts(ends, start - 1)
      invariant chunks == c.Kept(ends)
    {
      var end := PieceEnd(lines, chunkLines, window, plain, start);
      OneMoreCut(c, ends, start - 1, end);
      OneMoreKept(c, ends, start - 1, end);
      ends := ends + [end];
      var text := Joined(lines[start - 1..end]);
      if !IsBlank(text) {
        chunks := chunks + [Chunk(start, end, text)];
      }
      start := end + 1;
    }
  }

  lemma {:induction false} NoCuts(c: Cutting)
    ensures c.Cuts([], 0) && c.Kept([]) == []
  {
  }

  lemma {:induction false} OneMoreCut(c: Cutting, ends: seq<int>, upTo: int, end: int)
    requires c.Cuts(ends, upTo) && 0 <= upTo < end <= |c.lines| && c.EndsRight(upTo + 1, end)
    ensures c.Cuts(ends + [end], end)
    ensures c.StartOf(ends + [end], |ends|) == upTo + 1
  {
    hide Cutting.EndsRight;
    var ends' := ends + [end];
    forall k | 0 <= k < |ends'| ensures c.CutRight(ends', k) {
      if k < |ends| {
        assert c.CutRight(ends, k);
        assert c.StartOf(ends', k) == c.StartOf(ends, k);
      }
    }
  }

  lemma {:induction false} OneMoreKept(c: Cutting, ends: seq<int>, upTo: int, end: int)
    requires 0 <= upTo < end <= |c.lines| && c.StartOf(ends + [end], |ends|) == upTo + 1
    ensures c.Kept(ends + [end]) ==
            if IsBlank(c.Piece(upTo + 1, end).text) then c.Kept(ends) else c.Kept(ends) + [c.Piece(upTo + 1, end)]
  {
    hide IsBlank, Joined, Cutting.StartOf;
    assert Init(ends + [end]) == ends && Last(ends + [end]) == end;
  }

  /** The end of the piece that starts at `start`: the search for a blank line to stop at. */
  method PieceEnd(lines: seq<string>, chunkLines: int, window: int, plain: seq<string>, start: int) returns (end: int)
    requires 1 <= start <= |lines| == |plain|
    requires forall i :: 0 <= i < |lines| ==> plain[i] == WithoutLineEnd(lines[i])
    ensures start <= end <= |lines| && Cutting(lines, chunkLines, window).EndsRight(start, end)
  {
    ghost var c := Cutting(lines, chunkLines, window);
    end := Min(|lines|, start + Max(chunkLines, 1) - 1);
    if end < |lines| && window > 0 {
      var searchTo := Min(|lines|, end + window);
      for candidate := end to searchTo + 1
        invariant end == c.Nominal(start)
        invariant forall line | end <= line < candidate :: !c.BlankAt(line)
      {
        PlainLineIsBlank(lines[candidate - 1]);
        if IsBlank(plain[candidate - 1]) {
          end := candidate;
          break;
        }
      }
    }
  }

  // ----- What the cutting guarantees -----

  lemma {:induction false} EndsNoLater(c: Cutting, start: int, a: int, b: int)
    requires 1 <= start <= |c.lines| && c.EndsRight(start, a) && c.EndsRight(start, b)
    ensures b <= a
  {
    hide Cutting.Nominal, Cutting.Reach, IsBlank;
  }

  lemma {:induction false} EndIsDetermined(c: Cutting, start: int, a: int, b: int)
    requires 1 <= start <= |c.lines| && c.EndsRight(start, a) && c.EndsRight(start, b)
    ensures a == b
  {
    hide Cutting.EndsRight;
    EndsNoLater(c, start, a, b);
    EndsNoLater(c, start, b, a);
  }

  lemma {:induction false} CutsAgree(c: Cutting, a: seq<int>, b: seq<int>, m: int, n: int, k: nat)
    requires c.Cuts(a, m) && c.Cuts(b, n) && k <= |a| && k <= |b|
    ensures a[..k] == b[..k]
  {
    hide Cutting.EndsRight;
    if k > 0 {
      CutsAgree(c, a, b, m, n, k - 1);
      assert c.CutRight(a, k - 1) && c.CutRight(b, k - 1);
      assert k > 1 ==> a[k - 2] == a[..k - 1][k - 2] == b[..k - 1][k - 2] == b[k - 2];
      EndIsDetermined(c, c.StartOf(a, k - 1), a[k - 1], b[k - 1]);
      assert a[..k] == a[..k - 1] + [a[k - 1]] && b[..k] == b[..k - 1] + [b[k - 1]];
    }
  }

  lemma {:induction false} MoreCutsReachFurther(c: Cutting, ends: seq<int>, n: int, k: nat)
    requires c.Cuts(ends, n) && k < |ends|
    ensures k > 0 ==> ends[k - 1] < |c.lines|
    ensures |c.lines| > 0
  {
    hide Cutting.EndsRight;
    assert c.CutRight(ends, k);
  }

  /** There is only one way to cut a file. */
  lemma {:induction false} CutsAreDetermined(c: Cutting, a: seq<int>, b: seq<int>)
    requires c.Cuts(a, |c.lines|) && c.Cuts(b, |c.lines|)
    ensures a == b
  {
    hide Cutting.CutRight;
    var k := Min(|a|, |b|);
    CutsAgree(c, a, b, |c.lines|, |c.lines|, k);
    if k < |a| {
      MoreCutsReachFurther(c, a, |c.lines|, k);
    }
    if k < |b| {
      MoreCutsReachFurther(c, b, |c.lines|, k);
    }
    assert k > 0 ==> a[k - 1] == a[..k][k - 1] == b[..k][k - 1] == b[k - 1];
    assert a[..|a|] == a && b[..|b|] == b;
  }

  lemma {:induction false} CutsBefore(c: Cutting, ends: seq<int>, upTo: int)
    requires c.Cuts(ends, upTo) && ends != []
    ensures c.Cuts(Init(ends), c.StartOf(ends, |ends| - 1) - 1)
    ensures 1 <= c.StartOf(ends, |ends| - 1) <= upTo <= |c.lines| && upTo == Last(ends)
  {
    var k := |ends| - 1;
    assert c.CutRight(ends, k);
    forall j | 0 <= j < k ensures c.CutRight(Init(ends), j) {
      assert c.CutRight(ends, j);
    }
  }

  /** Chunks stay within the size and the window. */
  lemma {:induction false} PieceSize(c: Cutting, start: int, end: int)
    requires 1 <= start <= |c.lines| && c.EndsRight(start, end)
    ensures end - start + 1 <= Max(c.chunkLines, 1) + Max(c.window, 0)
  {
    hide IsBlank;
  }

  ghost predicate ChunkOk(c: Cutting, chunk: Chunk) {
    && 1 <= chunk.start <= chunk.end <= |c.lines|
    && chunk.text == Joined(c.lines[chunk.start - 1..chunk.end]) && !IsBlank(chunk.text)
    && chunk.end - chunk.start + 1 <= Max(c.chunkLines, 1) + Max(c.window, 0)
  }

  ghost predicate InOrder(chunks: seq<Chunk>) {
    forall j, k :: 0 <= j < k < |chunks| ==> chunks[j].end < chunks[k].start
  }

  ghost predicate Within(chunks: seq<Chunk>, upTo: int) {
    forall k :: 0 <= k < |chunks| ==> chunks[k].end <= upTo
  }

  ghost predicate InSomeChunk(chunks: seq<Chunk>, line: int) {
    exists k :: 0 <= k < |chunks| && chunks[k].start <= line <= chunks[k].end
  }

  /** Whatever the file and the settings: the chunks are ordered, disjoint, not blank, not too
      long, carry exactly their lines, and every line that is not blank is in one of them. */
  lemma {:induction false} ChunksAreComplete(c: Cutting, ends: seq<int>, upTo: int)
    requires c.Cuts(ends, upTo)
    ensures InOrder(c.Kept(ends)) && Within(c.Kept(ends), upTo)
    ensures forall chunk | chunk in c.Kept(ends) :: ChunkOk(c, chunk)
    ensures forall line | 1 <= line <= upTo && !c.BlankAt(line) :: InSomeChunk(c.Kept(ends), line)
  {
    hide Cutting.EndsRight, IsBlank, Joined;
    if ends != [] {
      var start, end := c.StartOf(ends, |ends| - 1), Last(ends);
      CutsBefore(c, ends, upTo);
      ChunksAreComplete(c, Init(ends), start - 1);
      assert c.CutRight(ends, |ends| - 1);
      PieceSize(c, start, end);
      OneMorePiece(c, c.Kept(Init(ends)), c.Kept(ends), start, end);
    }
  }

  lemma {:induction false} OneMorePiece(c: Cutting, before: seq<Chunk>, after: seq<Chunk>, start: int, end: int)
    requires 1 <= start <= end <= |c.lines| && end - start + 1 <= Max(c.chunkLines, 1) + Max(c.window, 0)
    requires after == if IsBlank(c.Piece(start, end).text) then before else before + [c.Piece(start, end)]
    requires InOrder(before) && Within(before, start - 1)
    requires forall chunk | chunk in before :: ChunkOk(c, chunk)
    requires forall line | 1 <= line < start && !c.BlankAt(line) :: InSomeChunk(before, line)
    ensures InOrder(after) && Within(after, end)
    ensures forall chunk | chunk in after :: ChunkOk(c, chunk)
    ensures forall line | 1 <= line <= end && !c.BlankAt(line) :: InSomeChunk(after, line)
  {
    hide IsBlank, Joined;
    JoinedIsBlank(c.lines[start - 1..end]);
    forall line | 1 <= line <= end && !c.BlankAt(line) ensures InSomeChunk(after, line) {
      if line < start {
        var k :| 0 <= k < |before| && before[k].start <= line <= before[k].end;
        assert after[k] == before[k];
      } else {
        assert c.lines[start - 1..end][line - start] == c.lines[line - 1];
        assert after[|before|] == c.Piece(start, end);
      }
    }
  }

  /** The texts of all pieces, kept or dropped. */
  ghost function AllText(c: Cutting, ends: seq<int>): string {
    if ends == [] then []
    else
      var start, end := c.StartOf(ends, |ends| - 1), Last(ends);
      AllText(c, Init(ends)) + if 1 <= start <= end <= |c.lines| then Joined(c.lines[start - 1..end]) else []
  }

  /** The pieces together are the file. */
  lemma {:induction false} PiecesAreTheFile(c: Cutting, ends: seq<int>, upTo: int)
    requires c.Cuts(ends, upTo)
    ensures 0 <= upTo && AllText(c, ends) == Joined(c.lines[..upTo])
  {
    hide Cutting.EndsRight, Cutting.Cuts, Joined;
    if ends == [] {
      NoPieces(c, upTo);
    } else {
      var start, end := c.StartOf(ends, |ends| - 1), Last(ends);
      CutsBefore(c, ends, upTo);
      PiecesAreTheFile(c, Init(ends), start - 1);
      assert start <= end by {
        LastCut(c, ends, upTo);
      }
      JoinedOfConcat(c.lines[..start - 1], c.lines[start - 1..end]);
      assert c.lines[..start - 1] + c.lines[start - 1..end] == c.lines[..end];
    }
  }

  lemma NoPieces(c: Cutting, upTo: int)
    requires c.Cuts([], upTo)
    ensures upTo == 0 && Joined(c.lines[..0]) == []
  {
  }

  lemma LastCut(c: Cutting, ends: seq<int>, upTo: int)
    requires c.Cuts(ends, upTo) && ends != []
    ensures 1 <= c.StartOf(ends, |ends| - 1) <= Last(ends) <= |c.lines|
  {
    hide Cutting.EndsRight;
    assert c.CutRight(ends, |ends| - 1);
  }

  // ----- Merging ranges -----

  datatype LineRange = LineRange(start: int, end: int)

  /** Python compares pairs of integers one component after the other. */
  predicate Before(a: LineRange, b: LineRange) {
    a.start < b.start || (a.start == b.start && a.end <= b.end)
  }

  function InsertRange(sorted: seq<LineRange>, r: LineRange): seq<LineRange> {
    if sorted == [] || Before(Last(sorted), r) then sorted + [r]
    else InsertRange(Init(sorted), r) + [Last(sorted)]
  }

  /** The ranges with two non-zero ends, in order. */
  function Ordered(ranges: seq<LineRange>): seq<LineRange> {
    if ranges == [] then []
    else
      var r := Last(ranges);
      if r.start != 0 && r.end != 0 then InsertRange(Ordered(Init(ranges)), r) else Ordered(Init(ranges))
  }

  predicate Covers(r: LineRange, line: int) {
    r.start <= line <= r.end
  }

  ghost predicate Covered(ranges: seq<LineRange>, line: int) {
    exists k :: 0 <= k < |ranges| && Covers(ranges[k], line)
  }

  ghost predicate SameLines(a: seq<LineRange>, b: seq<LineRange>) {
    forall line :: Covered(a, line) <==> Covered(b, line)
  }

  ghost predicate Sorted(ranges: seq<LineRange>) {
    forall j, k :: 0 <= j < k < |ranges| ==> Before(ranges[j], ranges[k])
  }

  /** There is at least one line between any two ranges. */
  ghost predicate Separate(ranges: seq<LineRange>) {
    forall j, k :: 0 <= j < k < |ranges| ==> ranges[j].end + 1 < ranges[k].start
  }

  ghost predicate NonEmpty(ranges: seq<LineRange>) {
    forall r | r in ranges :: r.start <= r.end
  }

  lemma {:induction false} InsertKeepsAll(sorted: seq<LineRange>, r: LineRange)
    ensures multiset(InsertRange(sorted, r)) == multiset(sorted) + multiset{r}
  {
    hide Before;
    if sorted != [] && !Before(Last(sorted), r) {
      InsertKeepsAll(Init(sorted), r);
      assert sorted == Init(sorted) + [Last(sorted)];
    }
  }

  lemma {:induction false} InsertSorts(sorted: seq<LineRange>, r: LineRange)
    requires Sorted(sorted)
    ensures Sorted(InsertRange(sorted, r))
  {
    if sorted != [] && !Before(Last(sorted), r) {
      var front := Init(sorted);
      InsertSorts(front, r);
      InsertKeepsAll(front, r);
      hide InsertRange;
      var inserted := InsertRange(front, r);
      forall j | 0 <= j < |inserted| ensures Before(inserted[j], Last(sorted)) {
        assert inserted[j] in multiset(inserted);
        assert inserted[j] in front || inserted[j] == r;
      }
    }
  }

  function Proper(ranges: seq<LineRange>): seq<LineRange> {
    if ranges == [] then []
    else Proper(Init(ranges)) + if Last(ranges).start != 0 && Last(ranges).end != 0 then [Last(ranges)] else []
  }

  lemma {:induction false} OrderedSorts(ranges: seq<LineRange>)
    ensures Sorted(Ordered(ranges)) && multiset(Ordered(ranges)) == multiset(Proper(ranges))
  {
    if ranges != [] {
      OrderedSorts(Init(ranges));
      InsertSorts(Ordered(Init(ranges)), Last(ranges));
      InsertKeepsAll(Ordered(Init(ranges)), Last(ranges));
    }
  }

  lemma {:induction false} SameElementsSameLines(a: seq<LineRange>, b: seq<LineRange>)
    requires multiset(a) == multiset(b)
    ensures SameLines(a, b) && (NonEmpty(a) <==> NonEmpty(b))
  {
    assert forall r :: r in a <==> r in multiset(a);
    assert forall r :: r in b <==> r in multiset(b);
    forall line ensures Covered(a, line) <==> Covered(b, line) {
      if k :| 0 <= k < |a| && Covers(a[k], line) {
        assert a[k] in b;
      }
      if k :| 0 <= k < |b| && Covers(b[k], line) {
        assert b[k] in a;
      }
    }
  }

  /** Merges overlapping and touching ranges. Whatever the input, the result covers the lines that
      the ranges with two non-zero ends cover, in increasing order with gaps between. */
  method MergeRanges(ranges: seq<LineRange>) returns (merged: seq<LineRange>)
    ensures SameLines(merged, Proper(ranges))
    ensures Separate(merged)
    ensures NonEmpty(Proper(ranges)) ==> NonEmpty(merged)
  {
    hide SameLines, Ordered, Proper;
    NoRangesNoLines();
    OrderedSorts(ranges);
    SameElementsSameLines(Ordered(ranges), Proper(ranges));
    var ordered := Ordered(ranges);
    merged := [];
    for k := 0 to |ordered|
      invariant SameLines(merged, ordered[..k])
      invariant Separate(merged)
      invariant merged != [] ==> k > 0 && Last(merged).start <= ordered[k - 1].start
      invariant NonEmpty(ordered) ==> NonEmpty(merged)
    {
      ghost var before := merged;
      var r := ordered[k];
      assert k > 0 ==> Before(ordered[k - 1], r);
      assert ordered[..k + 1] == ordered[..k] + [r];
      if merged == [] || r.start > Last(merged).end + 1 {
        merged := merged + [r];
        CoveredAfterAdding(before, ordered[..k], r);
      } else {
        merged := Init(merged) + [LineRange(Last(merged).start, Max(Last(merged).end, r.end))];
        CoveredAfterJoining(before, ordered[..k], r);
      }
    }
    assert ordered[..|ordered|] == ordered;
    SameLinesChain(merged, ordered, Proper(ranges));
  }

  lemma SameLinesChain(a: seq<LineRange>, b: seq<LineRange>, c: seq<LineRange>)
    requires SameLines(a, b) && SameLines(b, c)
    ensures SameLines(a, c)
  {
  }

  lemma NoRangesNoLines()
    ensures SameLines([], [])
  {
  }

  lemma {:induction false} CoveredByParts(front: seq<LineRange>, r: LineRange, line: int)
    ensures Covered(front + [r], line) <==> Covered(front, line) || Covers(r, line)
  {
    if Covered(front, line) {
      var k :| 0 <= k < |front| && Covers(front[k], line);
      assert (front + [r])[k] == front[k];
    }
    assert (front + [r])[|front|] == r;
  }

  lemma {:induction false} CoveredAfterAdding(a: seq<LineRange>, b: seq<LineRange>, r: LineRange)
    requires SameLines(a, b)
    ensures SameLines(a + [r], b + [r])
  {
    hide Covered, Covers;
    forall line ensures Covered(a + [r], line) <==> Covered(b + [r], line) {
      CoveredByParts(a, r, line);
      CoveredByParts(b, r, line);
    }
  }

  lemma {:induction false} CoveredAfterJoining(a: seq<LineRange>, b: seq<LineRange>, r: LineRange)
    requires SameLines(a, b) && a != [] && Last(a).start <= r.start <= Last(a).end + 1
    ensures SameLines(Init(a) + [LineRange(Last(a).start, Max(Last(a).end, r.end))], b + [r])
  {
    hide Covered;
    var joined := LineRange(Last(a).start, Max(Last(a).end, r.end));
    assert a == Init(a) + [Last(a)];
    forall line ensures Covered(Init(a) + [joined], line) <==> Covered(b + [r], line) {
      CoveredByParts(Init(a), joined, line);
      CoveredByParts(Init(a), Last(a), line);
      CoveredByParts(b, r, line);
    }
  }

  // ----- The merged ranges are determined by the lines -----

  lemma {:induction false} FirstStartsAlike(a: seq<LineRange>, b: seq<LineRange>)
    requires Separate(a) && NonEmpty(a) && Separate(b) && NonEmpty(b) && SameLines(a, b) && a != []
    ensures b != [] && b[0].start <= a[0].start
  {
    assert a[0] in a && Covers(a[0], a[0].start);
    assert Covered(a, a[0].start);
    var k :| 0 <= k < |b| && Covers(b[k], a[0].start);
    assert b[0] in b;
    assert k > 0 ==> b[0].end + 1 < b[k].start;
  }

  /** The first range of `a` cannot end after that of `b`: the line after the latter is free. */
  lemma {:induction false} FirstEndsAlike(a: seq<LineRange>, b: seq<LineRange>)
    requires Separate(a) && NonEmpty(a) && Separate(b) && NonEmpty(b) && SameLines(a, b)
    requires a != [] && b != [] && a[0].start == b[0].start
    ensures a[0].end <= b[0].end
  {
    assert b[0] in b;
    NextLineIsFree(b);
    assert b[0].end < a[0].end ==> Covers(a[0], b[0].end + 1);
  }

  lemma {:induction false} NextLineIsFree(ranges: seq<LineRange>)
    requires Separate(ranges) && ranges != []
    ensures !Covered(ranges, ranges[0].end + 1)
  {
  }

  lemma {:induction false} RestHasSameLines(a: seq<LineRange>, b: seq<LineRange>)
    requires Separate(a) && Separate(b) && SameLines(a, b) && a != [] && b != [] && a[0] == b[0]
    ensures SameLines(a[1..], b[1..])
  {
    forall line ensures Covered(a[1..], line) <==> Covered(b[1..], line) {
      CoveredByRest(a, line);
      CoveredByRest(b, line);
      assert Covered(a, line) <==> Covered(b, line);
    }
  }

  lemma {:induction false} CoveredByRest(a: seq<LineRange>, line: int)
    requires Separate(a) && a != []
    ensures Covered(a[1..], line) ==> Covered(a, line) && !Covers(a[0], line)
    ensures Covered(a, line) && !Covers(a[0], line) ==> Covered(a[1..], line)
  {
    if Covered(a[1..], line) {
      var k :| 0 <= k < |a| - 1 && Covers(a[1..][k], line);
      assert Covers(a[k + 1], line) && a[0].end + 1 < a[k + 1].start;
    }
    if Covered(a, line) && !Covers(a[0], line) {
      var k :| 0 <= k < |a| && Covers(a[k], line);
      assert a[1..][k - 1] == a[k];
    }
  }

  /** Non-empty separate ranges that cover the same lines are the same ranges: what merging
      returns is the only such list. */
  lemma {:induction false} MergedRangesAreUnique(a: seq<LineRange>, b: seq<LineRange>)
    requires Separate(a) && NonEmpty(a) && Separate(b) && NonEmpty(b) && SameLines(a, b)
    ensures a == b
  {
    hide Covered, Covers;
    if a != [] || b != [] {
      if a != [] {
        FirstStartsAlike(a, b);
      }
      if b != [] {
        FirstStartsAlike(b, a);
      }
      FirstEndsAlike(a, b);
      FirstEndsAlike(b, a);
      RestHasSameLines(a, b);
      MergedRangesAreUnique(a[1..], b[1..]);
      assert a == [a[0]] + a[1..] && b == [b[0]] + b[1..];
    }
  }
}
