/** Cutting a text into chunks of bounded size at the best places. */
module Chunker {
  import opened Options
  import opened Bytes

  predicate IsSpace(c: byte) {
    c == 32 || 9 <= c <= 13
  }

  /** The second, third or fourth byte of a character. */
  predicate IsTail(c: byte) {
    0x80 <= c < 0xC0
  }

  const NEWLINE: byte := 10

  // ---- where to cut ----

  datatype Kind = Paragraph | Line | Sentence | Word

  /** The character before `b`, blanks aside, when `b` ends a line. */
  function LastMark(t: Data, start: nat, j: nat): (k: nat)
    requires start <= j < |t|
    ensures start <= k <= j
    decreases j
  {
    if j > start && (t[j] == 32 || t[j] == 9 || t[j] == 13) then LastMark(t, start, j - 1) else j
  }

  predicate IsBreak(t: Data, start: nat, b: nat, kind: Kind)
    requires start < b < |t|
  {
    match kind
    case Paragraph => t[b - 1] == NEWLINE && b >= start + 2 && t[LastMark(t, start, b - 2)] == NEWLINE
    case Line => t[b - 1] == NEWLINE
    case Sentence => b >= start + 2 && IsSpace(t[b - 1]) && (t[b - 2] == 46 || t[b - 2] == 33 || t[b - 2] == 63)
    case Word => IsSpace(t[b - 1]) || IsSpace(t[b])
  }

  predicate IsBlank(c: byte) {
    c == 32 || c == 9 || c == 13
  }

  /** A paragraph ends at a newline after an empty line: one newline before it, and only blanks between. */
  lemma ParagraphExactly(t: Data, start: nat, b: nat)
    requires start < b < |t|
    ensures IsBreak(t, start, b, Paragraph) <==>
            t[b - 1] == NEWLINE &&
            exists k :: start <= k < b - 1 && t[k] == NEWLINE && forall i :: k < i < b - 1 ==> IsBlank(t[i])
  {
    if b >= start + 2 { LastMarkExactly(t, start, b - 2); }
  }

  /** Blanks are skipped back to the last byte that is none, but not past the start. */
  lemma {:induction false} LastMarkExactly(t: Data, start: nat, j: nat)
    requires start <= j < |t|
    ensures var k := LastMark(t, start, j);
            (forall i :: k < i <= j ==> IsBlank(t[i])) && (k == start || !IsBlank(t[k]))
    decreases j
  {
    if j > start && IsBlank(t[j]) { LastMarkExactly(t, start, j - 1); }
  }

  predicate NoBreak(t: Data, start: nat, low: nat, high: nat, kind: Kind)
    requires start <= low && high < |t|
  {
    forall b :: low < b <= high ==> !IsBreak(t, start, b, kind)
  }

  /** The last place of this kind in the back half of the window, if there is one. */
  method LastBreak(t: Data, start: nat, low: nat, high: nat, kind: Kind) returns (b: Option<nat>)
    requires start <= low <= high < |t|
    ensures b.None? ==> NoBreak(t, start, low, high, kind)
    ensures b.Some? ==>
      && low < b.value <= high && IsBreak(t, start, b.value, kind)
      && NoBreak(t, start, b.value, high, kind)
  {
    var k := high;
    while k > low
      invariant low <= k <= high && NoBreak(t, start, k, high, kind)
    {
      if IsBreak(t, start, k, kind) { return Some(k); }
      k := k - 1;
    }
    b := None;
  }

  /** The end of the chunk that starts at `start`. */
  ghost predicate BestCut(t: Data, start: nat, high: nat, b: nat)
    requires start < high < |t|
  {
    var low := start + (high - start) / 2;
    || (low < b <= high && IsBreak(t, start, b, Paragraph) && NoBreak(t, start, b, high, Paragraph))
    || (low < b <= high && NoBreak(t, start, low, high, Paragraph) && IsBreak(t, start, b, Line) &&
        NoBreak(t, start, b, high, Line))
    || (low < b <= high && NoBreak(t, start, low, high, Line) && IsBreak(t, start, b, Sentence) &&
        NoBreak(t, start, b, high, Sentence))
    || (low < b <= high && NoBreak(t, start, low, high, Line) && NoBreak(t, start, low, high, Sentence)
        && IsBreak(t, start, b, Word) && NoBreak(t, start, b, high, Word))
    || (start < b <= high && NoBreak(t, start, low, high, Word) && (forall k :: b < k <= high ==> IsTail(t[k]))
        && (b > start + 1 ==> !IsTail(t[b])))
  }

  method FindBreak(t: Data, start: nat, high: nat) returns (b: nat)
    requires start < high < |t|
    ensures start < b <= high && BestCut(t, start, high, b)
  {
    var low := start + (high - start) / 2;
    var paragraph := LastBreak(t, start, low, high, Paragraph);
    if paragraph.Some? { return paragraph.value; }
    var line := LastBreak(t, start, low, high, Line);
    if line.Some? { return line.value; }
    var sentence := LastBreak(t, start, low, high, Sentence);
    if sentence.Some? { return sentence.value; }
    var word := LastBreak(t, start, low, high, Word);
    if word.Some? { return word.value; }
    b := high;
    while b > start + 1 && IsTail(t[b])
      invariant start < b <= high && forall k :: b < k <= high ==> IsTail(t[k])
    {
      b := b - 1;
    }
  }

  // ---- characters ----

  /** The length of the well-formed UTF-8 character at the front (section 3 of RFC 3629), or 0. */
  function CharLength(t: Data): (n: nat)
    ensures n <= 4 && n <= |t|
    ensures n > 0 ==> !IsTail(t[0]) && forall i :: 0 < i < n ==> IsTail(t[i])
  {
    if |t| >= 1 && t[0] < 0x80 then 1
    else if |t| >= 2 && 0xC2 <= t[0] <= 0xDF && IsTail(t[1]) then 2
    else if |t| >= 3 && 0xE0 <= t[0] <= 0xEF && IsTail(t[1]) && IsTail(t[2])
      && (t[0] == 0xE0 ==> t[1] >= 0xA0) && (t[0] == 0xED ==> t[1] < 0xA0) then 3
    else if |t| >= 4 && 0xF0 <= t[0] <= 0xF4 && IsTail(t[1]) && IsTail(t[2]) && IsTail(t[3])
      && (t[0] == 0xF0 ==> t[1] >= 0x90) && (t[0] == 0xF4 ==> t[1] < 0x90) then 4
    else 0
  }

  predicate ValidUtf8(t: Data) {
    t == [] || (CharLength(t) > 0 && ValidUtf8(t[CharLength(t)..]))
  }

  /** `i` is the end of whole characters. */
  predicate Whole(t: Data, i: nat)
    decreases |t|
  {
    i == 0 || (CharLength(t) > 0 && i >= CharLength(t) && Whole(t[CharLength(t)..], i - CharLength(t)))
  }

  /** In a valid text characters begin exactly at the bytes that are no tails. */
  lemma {:induction false} WholeIsNoTail(t: Data, i: nat)
    requires ValidUtf8(t) && i <= |t|
    ensures Whole(t, i) <==> i == |t| || !IsTail(t[i])
    decreases |t|
  {
    if t != [] && i > 0 {
      var n := CharLength(t);
      if i >= n { WholeIsNoTail(t[n..], i - n); }
    }
  }

  predicate CharAt(t: Data, k: nat) {
    k == |t| || (k < |t| && !IsTail(t[k]))
  }

  /** Among four bytes in a row a character begins, or the text ends. */
  lemma {:induction false} CharSoon(t: Data, i: nat)
    requires ValidUtf8(t) && i + 4 <= |t|
    ensures exists k :: i < k <= i + 4 && CharAt(t, k)
    decreases |t|
  {
    var n := CharLength(t);
    if i < n {
      assert n == |t| || CharLength(t[n..]) > 0;
      assert i < n <= i + 4 && CharAt(t, n);
    } else {
      CharSoon(t[n..], i - n);
      var k :| i - n < k <= i - n + 4 && CharAt(t[n..], k);
      assert i < k + n <= i + 4 && CharAt(t, k + n);
    }
  }

  /** Next to a space a character begins. */
  lemma AfterSpace(t: Data, b: nat)
    requires ValidUtf8(t) && 0 < b <= |t| && IsSpace(t[b - 1])
    ensures Whole(t, b)
  {
    WholeIsNoTail(t, b - 1);
    SpaceIsWhole(t, b - 1);
  }

  lemma {:induction false} SpaceIsWhole(t: Data, i: nat)
    requires ValidUtf8(t) && i < |t| && t[i] < 0x80
    ensures Whole(t, i + 1)
    decreases |t|
  {
    var n := CharLength(t);
    if i >= n { SpaceIsWhole(t[n..], i - n); }
  }

  lemma CutIsWhole(t: Data, start: nat, high: nat, b: nat)
    requires ValidUtf8(t) && start + 4 <= high < |t| && Whole(t, start) && BestCut(t, start, high, b)
    ensures Whole(t, b)
  {
    var low := start + (high - start) / 2;
    if low < b <= high && (IsSpace(t[b - 1]) || IsSpace(t[b])) {
      if IsSpace(t[b - 1]) { AfterSpace(t, b); } else { WholeIsNoTail(t, b); }
    } else {
      CharSoon(t, high - 4);
      var k :| high - 4 < k <= high && CharAt(t, k);
      assert k <= b;
      WholeIsNoTail(t, b);
    }
  }

  // ---- chunks ----

  datatype Chunk = Chunk(begin: nat, end: nat)

  predicate SpacesIn(t: Data, low: nat, high: nat)
    requires high <= |t|
  {
    forall i :: low <= i < high ==> IsSpace(t[i])
  }

  method SkipSpace(t: Data, from: nat) returns (i: nat)
    requires from <= |t|
    ensures from <= i <= |t| && SpacesIn(t, from, i) && (i < |t| ==> !IsSpace(t[i]))
  {
    i := from;
    while i < |t| && IsSpace(t[i])
      invariant from <= i <= |t| && SpacesIn(t, from, i)
    {
      i := i + 1;
    }
  }

  /** The window without the spaces at its ends. */
  method Trimmed(t: Data, begin: nat, end: nat) returns (c: Chunk)
    requires begin <= end <= |t|
    ensures begin <= c.begin <= c.end <= end && SpacesIn(t, begin, c.begin) && SpacesIn(t, c.end, end)
    ensures c.begin < c.end ==> !IsSpace(t[c.begin]) && !IsSpace(t[c.end - 1])
  {
    var b, e := begin, end;
    while b < e && IsSpace(t[b])
      invariant begin <= b <= e && SpacesIn(t, begin, b)
    {
      b := b + 1;
    }
    while e > b && IsSpace(t[e - 1])
      invariant b <= e <= end && SpacesIn(t, e, end)
    {
      e := e - 1;
    }
    c := Chunk(b, e);
  }

  /** `next` is the first place up to `overlap` bytes before the end, but after `pos`, where a word starts, or
      the end. */
  ghost predicate SteppedBack(t: Data, pos: nat, end: nat, overlap: nat, next: nat) {
    && pos < next <= end <= |t| && end - next <= overlap && (next == end || IsSpace(t[next - 1]))
    && forall i :: pos <= i < next - 1 && end - 1 - i <= overlap ==> !IsSpace(t[i])
  }

  /** Up to `overlap` bytes back from the end, then on to the start of a word. */
  method StepBack(t: Data, pos: nat, end: nat, overlap: nat) returns (next: nat)
    requires pos < end <= |t|
    ensures SteppedBack(t, pos, end, overlap, next)
  {
    next := end;
    if overlap > 0 {
      var back := if end > overlap then end - overlap else 0;
      if back <= pos { back := pos + 1; }
      while back < end && !IsSpace(t[back - 1])
        invariant pos < back <= end && end - back <= overlap
        invariant forall i :: pos <= i < back - 1 && end - 1 - i <= overlap ==> !IsSpace(t[i])
      {
        back := back + 1;
      }
      next := back;
    }
  }

  predicate Covered(chunks: seq<Chunk>, i: nat) {
    exists k :: 0 <= k < |chunks| && chunks[k].begin <= i < chunks[k].end
  }

  /** Chunks lie in the text, are no larger than `size`, begin and end with a mark, and come in order, each overlapping
      the one before by at most `overlap`. */
  ghost predicate WellCut(t: Data, size: nat, overlap: nat, chunks: seq<Chunk>) {
    && (forall k :: 0 <= k < |chunks| ==> ChunkOk(t, size, chunks[k]))
    && (forall k :: 0 <= k < |chunks| - 1 ==>
          chunks[k].begin < chunks[k + 1].begin && chunks[k].end - chunks[k + 1].begin <= overlap)
  }

  ghost predicate ChunkOk(t: Data, size: nat, c: Chunk) {
    c.begin < c.end <= |t| && c.end - c.begin <= size && !IsSpace(t[c.begin]) && !IsSpace(t[c.end - 1])
  }

  /** `end` is where the window at `pos` ends: with the text, if that fits, or at the best place to cut. */
  ghost predicate WindowEnd(t: Data, size: nat, pos: nat, end: nat) {
    pos < end <= |t| && if |t| - pos <= size then end == |t| else pos < pos + size && BestCut(t, pos, pos + size, end)
  }

  /** The chunk is its window without spaces at the end, and the next window starts at `to`: where stepping back and
      skipping spaces leads, or nowhere after the last. */
  ghost predicate CutThere(t: Data, size: nat, overlap: nat, c: Chunk, end: nat, to: nat) {
    && WindowEnd(t, size, c.begin, end) && c.end <= end && SpacesIn(t, c.end, end)
    && if |t| - c.begin <= size then to == |t|
       else exists next :: SteppedBack(t, c.begin, end, overlap, next) && SkippedTo(t, next, to)
  }

  ghost predicate SkippedTo(t: Data, from: nat, to: nat) {
    from <= to <= |t| && SpacesIn(t, from, to) && (to < |t| ==> !IsSpace(t[to]))
  }

  ghost predicate Cut(t: Data, size: nat, overlap: nat, c: Chunk, to: nat) {
    exists end :: CutThere(t, size, overlap, c, end, to)
  }

  /** Every chunk is cut where its window ends, and the next one starts where the windows say. */
  ghost predicate CutInTurn(t: Data, size: nat, overlap: nat, chunks: seq<Chunk>, to: nat) {
    forall k :: 0 <= k < |chunks| ==> Cut(t, size, overlap, chunks[k], Following(chunks, k, to))
  }

  /** Where the chunk after chunk `k` starts, or would. */
  function Following(chunks: seq<Chunk>, k: nat, to: nat): nat {
    if k + 1 < |chunks| then chunks[k + 1].begin else to
  }

  lemma CutNext(t: Data, size: nat, overlap: nat, chunks: seq<Chunk>, c: Chunk, to: nat)
    requires CutInTurn(t, size, overlap, chunks, c.begin) && Cut(t, size, overlap, c, to)
    ensures CutInTurn(t, size, overlap, chunks + [c], to)
  {
    hide Cut;
    var more := chunks + [c];
    forall k | 0 <= k < |more| ensures Cut(t, size, overlap, more[k], Following(more, k, to)) {
      if k < |chunks| { assert more[k] == chunks[k] && Following(more, k, to) == Following(chunks, k, c.begin); }
    }
  }

  ghost predicate Edges(t: Data, chunks: seq<Chunk>) {
    forall k :: 0 <= k < |chunks| ==> Whole(t, chunks[k].begin) && Whole(t, chunks[k].end)
  }

  ghost predicate CoveredUpTo(t: Data, chunks: seq<Chunk>, n: nat) {
    forall i :: 0 <= i < n && i < |t| && !IsSpace(t[i]) ==> Covered(chunks, i)
  }

  lemma CoveredMore(t: Data, chunks: seq<Chunk>, c: Chunk, pos: nat, end: nat, next: nat)
    requires end <= |t| && CoveredUpTo(t, chunks, pos) && pos <= c.begin <= c.end <= end
    requires SpacesIn(t, pos, c.begin) && SpacesIn(t, c.end, end)
    requires (next <= end || (next <= |t| && SpacesIn(t, end, next)))
    ensures CoveredUpTo(t, chunks + [c], next)
  {
    forall i | 0 <= i < next && i < |t| && !IsSpace(t[i]) ensures Covered(chunks + [c], i) {
      if i < pos {
        var k :| 0 <= k < |chunks| && chunks[k].begin <= i < chunks[k].end;
        assert (chunks + [c])[k] == chunks[k];
      } else {
        assert (chunks + [c])[|chunks|] == c;
      }
    }
  }

  /** What holds with the next window to start at `pos`. */
  ghost predicate SoFar(t: Data, size: nat, overlap: nat, chunks: seq<Chunk>, pos: nat) {
    && pos <= |t| && (pos < |t| ==> !IsSpace(t[pos])) && WellCut(t, size, overlap, chunks)
    && CoveredUpTo(t, chunks, pos)
    && (chunks != [] ==> chunks[|chunks| - 1].begin < pos && chunks[|chunks| - 1].end - pos <= overlap)
    && (ValidUtf8(t) && size >= 4 ==> Edges(t, chunks) && Whole(t, pos))
  }

  lemma EndIsWhole(t: Data)
    requires ValidUtf8(t)
    ensures Whole(t, |t|)
  {
    WholeIsNoTail(t, |t|);
  }

  /** Trimming and skipping stop next to spaces, or stay. */
  lemma EdgeIsWhole(t: Data, from: nat, to: nat)
    requires ValidUtf8(t) && from <= to <= |t| && SpacesIn(t, from, to)
    ensures Whole(t, from) ==> Whole(t, to)
    ensures Whole(t, to) ==> Whole(t, from)
  {
    if from < to {
      AfterSpace(t, to);
      WholeIsNoTail(t, from);
    }
  }

  /** A window that starts with a mark keeps its start when it is trimmed. */
  lemma KeepsStart(t: Data, pos: nat, end: nat, c: Chunk)
    requires pos < end <= |t| && !IsSpace(t[pos])
    requires pos <= c.begin <= c.end <= end && SpacesIn(t, pos, c.begin) && SpacesIn(t, c.end, end)
    ensures c.begin == pos < c.end
  {
  }

  lemma CutsAdded(t: Data, size: nat, overlap: nat, chunks: seq<Chunk>, c: Chunk)
    requires WellCut(t, size, overlap, chunks) && ChunkOk(t, size, c)
    requires chunks != [] ==> chunks[|chunks| - 1].begin < c.begin && chunks[|chunks| - 1].end - c.begin <= overlap
    ensures WellCut(t, size, overlap, chunks + [c])
  {
    hide ChunkOk;
    var more := chunks + [c];
    forall k | 0 <= k < |more| ensures ChunkOk(t, size, more[k]) {
      if k < |chunks| { assert more[k] == chunks[k]; }
    }
    forall k | 0 <= k < |more| - 1
      ensures more[k].begin < more[k + 1].begin && more[k].end - more[k + 1].begin <= overlap
    {
      if k + 1 < |chunks| { assert more[k] == chunks[k] && more[k + 1] == chunks[k + 1]; }
    }
  }

  lemma ChunkAdded(t: Data, size: nat, overlap: nat, chunks: seq<Chunk>, pos: nat, end: nat, c: Chunk)
    requires SoFar(t, size, overlap, chunks, pos) && pos < end <= |t| && end - pos <= size
    requires pos <= c.begin <= c.end <= end && SpacesIn(t, pos, c.begin) && SpacesIn(t, c.end, end)
    requires c.begin < c.end ==> !IsSpace(t[c.begin]) && !IsSpace(t[c.end - 1])
    ensures c.begin == pos < c.end && WellCut(t, size, overlap, chunks + [c])
    ensures ValidUtf8(t) && size >= 4 && Whole(t, end) ==> Edges(t, chunks + [c])
  {
    hide ValidUtf8, Whole, WellCut, CoveredUpTo, SpacesIn;
    KeepsStart(t, pos, end, c);
    CutsAdded(t, size, overlap, chunks, c);
    if ValidUtf8(t) && size >= 4 && Whole(t, end) {
      EdgeIsWhole(t, c.end, end);
      var more := chunks + [c];
      forall k | 0 <= k < |more| ensures Whole(t, more[k].begin) && Whole(t, more[k].end) {
        if k < |chunks| { assert more[k] == chunks[k]; }
      }
    }
  }

  lemma NextWindow(t: Data, size: nat, overlap: nat, chunks: seq<Chunk>, pos: nat, end: nat, c: Chunk, next: nat,
                   to: nat)
    requires SoFar(t, size, overlap, chunks, pos) && pos < end <= |t| && end - pos <= size
    requires pos <= c.begin <= c.end <= end && SpacesIn(t, pos, c.begin) && SpacesIn(t, c.end, end)
    requires c.begin < c.end ==> !IsSpace(t[c.begin]) && !IsSpace(t[c.end - 1])
    requires SteppedBack(t, pos, end, overlap, next)
    requires next <= to <= |t| && SpacesIn(t, next, to) && (to < |t| ==> !IsSpace(t[to]))
    requires ValidUtf8(t) && size >= 4 ==> Whole(t, end)
    ensures SoFar(t, size, overlap, chunks + [c], to)
  {
    hide ValidUtf8, Whole, WellCut, CoveredUpTo, Edges;
    ChunkAdded(t, size, overlap, chunks, pos, end, c);
    CoveredMore(t, chunks, c, pos, end, to);
    if ValidUtf8(t) && size >= 4 {
      if next < end { AfterSpace(t, next); }
      EdgeIsWhole(t, next, to);
    }
  }

  /** None for sizes that make no sense. Otherwise: chunks of at most `size` bytes in order, overlapping by at most
      `overlap`, that together have every byte that is no space, each cut where its window says; and no chunk of a valid
      UTF-8 text splits a character if four bytes fit. */
  method ChunkText(t: Data, size: nat, overlap: nat) returns (r: Option<seq<Chunk>>)
    ensures r.None? <==> size == 0 || overlap >= size
    ensures r.Some? ==> WellCut(t, size, overlap, r.value) && CoveredUpTo(t, r.value, |t|)
    ensures r.Some? ==> CutInTurn(t, size, overlap, r.value, |t|)
    ensures r.Some? && ValidUtf8(t) && size >= 4 ==> Edges(t, r.value)
  {
    hide ValidUtf8, Whole, WellCut, CoveredUpTo, Edges, BestCut, CutInTurn;
    if size == 0 || overlap >= size { return None; }
    var chunks: seq<Chunk> := [];
    var pos := SkipSpace(t, 0);
    FirstWindow(t, size, overlap, pos);
    NothingCut(t, size, overlap, pos);
    while pos < |t|
      invariant SoFar(t, size, overlap, chunks, pos) && CutInTurn(t, size, overlap, chunks, pos)
      decreases |t| - pos
    {
      if |t| - pos <= size {
        var c := Trimmed(t, pos, |t|);
        ChunkAdded(t, size, overlap, chunks, pos, |t|, c);
        CoveredMore(t, chunks, c, pos, |t|, |t|);
        if ValidUtf8(t) { EndIsWhole(t); }
        assert CutThere(t, size, overlap, c, |t|, |t|);
        CutNext(t, size, overlap, chunks, c, |t|);
        if c.begin < c.end { chunks := chunks + [c]; }
        return Some(chunks);
      }
      var end := FindBreak(t, pos, pos + size);
      if ValidUtf8(t) && size >= 4 { CutIsWhole(t, pos, pos + size, end); }
      var c := Trimmed(t, pos, end);
      var next := StepBack(t, pos, end, overlap);
      var to := SkipSpace(t, next);
      NextWindow(t, size, overlap, chunks, pos, end, c, next, to);
      KeepsStart(t, pos, end, c);
      assert SkippedTo(t, next, to) && CutThere(t, size, overlap, c, end, to);
      CutNext(t, size, overlap, chunks, c, to);
      if c.begin < c.end { chunks := chunks + [c]; }
      pos := to;
    }
    r := Some(chunks);
  }

  lemma NothingCut(t: Data, size: nat, overlap: nat, pos: nat)
    ensures CutInTurn(t, size, overlap, [], pos)
  {
  }

  lemma FirstWindow(t: Data, size: nat, overlap: nat, pos: nat)
    requires pos <= |t| && SpacesIn(t, 0, pos) && (pos < |t| ==> !IsSpace(t[pos]))
    ensures SoFar(t, size, overlap, [], pos)
  {
    if ValidUtf8(t) { EdgeIsWhole(t, 0, pos); }
  }
}
