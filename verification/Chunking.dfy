// Cutting a document into overlapping windows that prefer to end at a sentence or a
// paragraph. Which characters count as white space is given from outside.
module Chunking {
  datatype Chunk = Chunk(seqNo: nat, text: string)
  datatype Window = Window(start: nat, end: nat)

  // ---- where a window is cut ----

  predicate Occurs(s: string, sub: string, i: int) {
    0 <= i && i + |sub| <= |s| && s[i..i + |sub|] == sub
  }

  // str.rfind
  function RFind(s: string, sub: string): (i: int)
    ensures i == -1 || Occurs(s, sub, i)
    ensures forall j :: Occurs(s, sub, j) ==> j <= i
  {
    RFindUpTo(s, sub, |s| - |sub|)
  }

  function RFindUpTo(s: string, sub: string, n: int): (i: int)
    ensures i == -1 || Occurs(s, sub, i)
    ensures forall j :: Occurs(s, sub, j) && j <= n ==> j <= i
    decreases n + 1
  {
    if n < 0 then -1 else if Occurs(s, sub, n) then n else RFindUpTo(s, sub, n - 1)
  }

  function Max(a: int, b: int): int {
    if a >= b then a else b
  }

  const FULL_STOP := '\U{3002}'
  const SEMICOLON := '\U{FF1B}'
  const EXCLAMATION := '\U{FF01}'
  const QUESTION := '\U{FF1F}'

  function Boundary(window: string): int {
    Max(RFind(window, ['\n']),
        Max(RFind(window, [FULL_STOP]),
            Max(RFind(window, [SEMICOLON]),
                Max(RFind(window, [EXCLAMATION]),
                    Max(RFind(window, [QUESTION]), RFind(window, ['.', ' ']))))))
  }

  // A sentence or a paragraph ends at position i of the window.
  predicate BreaksAt(window: string, i: int) {
    && 0 <= i < |window|
    && (|| window[i] == '\n' || window[i] == FULL_STOP || window[i] == SEMICOLON
        || window[i] == EXCLAMATION || window[i] == QUESTION
        || (window[i] == '.' && i + 1 < |window| && window[i + 1] == ' '))
  }

  lemma OccursOne(s: string, c: char, i: int)
    ensures Occurs(s, [c], i) <==> 0 <= i < |s| && s[i] == c
  {
    if 0 <= i < |s| {
      assert s[i..i + 1] == [s[i]];
    }
  }

  lemma OccursTwo(s: string, c: char, d: char, i: int)
    ensures Occurs(s, [c, d], i) <==> 0 <= i < |s| - 1 && s[i] == c && s[i + 1] == d
  {
    if 0 <= i < |s| - 1 {
      assert s[i..i + 2] == [s[i], s[i + 1]];
    }
  }

  lemma BreaksIff(window: string, i: int)
    ensures BreaksAt(window, i) <==>
            || Occurs(window, ['\n'], i) || Occurs(window, [FULL_STOP], i) || Occurs(window, [SEMICOLON], i)
            || Occurs(window, [EXCLAMATION], i) || Occurs(window, [QUESTION], i) || Occurs(window, ['.', ' '], i)
  {
    OccursOne(window, '\n', i);
    OccursOne(window, FULL_STOP, i);
    OccursOne(window, SEMICOLON, i);
    OccursOne(window, EXCLAMATION, i);
    OccursOne(window, QUESTION, i);
    OccursTwo(window, '.', ' ', i);
  }

  // The cut is made after the last break of the window, if it has one.
  lemma BoundaryIsLastBreak(window: string)
    ensures Boundary(window) == -1 || BreaksAt(window, Boundary(window))
    ensures forall i :: BreaksAt(window, i) ==> i <= Boundary(window)
  {
    BreaksIff(window, Boundary(window));
    forall i | BreaksAt(window, i) ensures i <= Boundary(window) {
      BreaksIff(window, i);
    }
  }

  function CutEnd(text: string, chunkSize: nat, start: nat): (end: nat)
    requires start <= |text|
    ensures start <= end <= |text| && end <= start + chunkSize
    ensures chunkSize >= 1 && start < |text| ==> start < end
  {
    var end := if start + chunkSize < |text| then start + chunkSize else |text|;
    if end < |text| then
      var boundary := Boundary(text[start..end]);
      BoundaryIsLastBreak(text[start..end]);
      if boundary > chunkSize / 2 then start + boundary + 1 else end
    else end
  }

  ghost predicate LastBreak(window: string, i: int) {
    BreaksAt(window, i) && forall j :: BreaksAt(window, j) ==> j <= i
  }

  ghost predicate BreaksLate(window: string, chunkSize: nat) {
    exists i :: BreaksAt(window, i) && i > chunkSize / 2
  }

  // Where the window from start has to end: with the text if that is near enough, else right
  // after its last break if one lies beyond the middle, else when it is full.
  ghost predicate EndsAt(text: string, chunkSize: nat, start: nat, end: nat)
    requires start <= |text|
  {
    if start + chunkSize >= |text| then end == |text|
    else
      var window := text[start..start + chunkSize];
      if BreaksLate(window, chunkSize) then end > start && LastBreak(window, end - 1 - start)
      else end == start + chunkSize
  }

  lemma CutEndAnswers(text: string, chunkSize: nat, start: nat)
    requires start <= |text|
    ensures EndsAt(text, chunkSize, start, CutEnd(text, chunkSize, start))
  {
    if start + chunkSize < |text| {
      BoundaryIsLastBreak(text[start..start + chunkSize]);
    }
  }

  function NextStart(start: nat, end: nat, overlap: nat): (next: nat)
    ensures start < next
  {
    Max(end - overlap, start + 1)
  }

  // A rule that says where the window from a given start ends.
  type Cut = nat -> nat

  ghost predicate Proper(cut: Cut, length: nat) {
    forall s: nat :: s < length ==> s <= cut(s) <= length
  }

  // The windows from a given start on.
  ghost function Windows(length: nat, cut: Cut, overlap: nat, start: nat): seq<Window>
    requires start <= length && Proper(cut, length)
    decreases length - start
  {
    if start == length then [] else
      var end := cut(start);
      [Window(start, end)] + if end == length then [] else Windows(length, cut, overlap, NextStart(start, end, overlap))
  }

  ghost predicate IsCut(cut: Cut, text: string, chunkSize: nat) {
    forall s: nat {:trigger CutEnd(text, chunkSize, s)} :: s <= |text| ==> cut(s) == CutEnd(text, chunkSize, s)
  }

  ghost function CutOf(text: string, chunkSize: nat): (cut: Cut)
    ensures IsCut(cut, text, chunkSize) && Proper(cut, |text|)
  {
    (s: nat) => if s <= |text| then CutEnd(text, chunkSize, s) else s
  }

  // ---- str.strip ----

  function TrimLeft(text: string, lo: nat, hi: nat, space: char -> bool): (a: nat)
    requires lo <= hi <= |text|
    ensures lo <= a <= hi && (a < hi ==> !space(text[a])) && forall i :: lo <= i < a ==> space(text[i])
    decreases hi - lo
  {
    if lo < hi && space(text[lo]) then TrimLeft(text, lo + 1, hi, space) else lo
  }

  function TrimRight(text: string, lo: nat, hi: nat, space: char -> bool): (b: nat)
    requires lo <= hi <= |text|
    ensures lo <= b <= hi && (lo < b ==> !space(text[b - 1])) && forall i :: b <= i < hi ==> space(text[i])
    decreases hi - lo
  {
    if lo < hi && space(text[hi - 1]) then TrimRight(text, lo, hi - 1, space) else hi
  }

  function Strip(text: string, space: char -> bool): string {
    var a := TrimLeft(text, 0, |text|, space);
    text[a..TrimRight(text, a, |text|, space)]
  }

  // ---- the chunks ----

  ghost predicate InText(text: string, windows: seq<Window>) {
    forall w :: w in windows ==> w.start <= w.end <= |text|
  }

  ghost function Kept(text: string, windows: seq<Window>, space: char -> bool): seq<string>
    requires InText(text, windows)
  {
    if windows == [] then [] else
      var last := windows[|windows| - 1];
      var piece := Strip(text[last.start..last.end], space);
      Kept(text, windows[..|windows| - 1], space) + if piece != "" then [piece] else []
  }

  function Numbered(pieces: seq<string>): (chunks: seq<Chunk>)
    ensures |chunks| == |pieces| && forall i :: 0 <= i < |chunks| ==> chunks[i] == Chunk(i + 1, pieces[i])
  {
    seq(|pieces|, i requires 0 <= i < |pieces| => Chunk(i + 1, pieces[i]))
  }

  lemma {:induction false} WindowsInside(length: nat, cut: Cut, overlap: nat, start: nat)
    requires start <= length && Proper(cut, length)
    ensures forall w :: w in Windows(length, cut, overlap, start) ==> start <= w.start < length && w.end == cut(w.start)
    decreases length - start
  {
    if start < length && cut(start) < length {
      WindowsInside(length, cut, overlap, NextStart(start, cut(start), overlap));
    }
  }

  ghost function ChunksBy(text: string, cut: Cut, overlap: nat, space: char -> bool): seq<Chunk>
    requires Proper(cut, |text|)
  {
    WindowsInside(|text|, cut, overlap, 0);
    Numbered(Kept(text, Windows(|text|, cut, overlap, 0), space))
  }

  ghost function ChunksOf(text: string, chunkSize: nat, overlap: nat, space: char -> bool): seq<Chunk> {
    if Strip(text, space) == "" then []
    else if |text| <= chunkSize then [Chunk(1, text)]
    else ChunksBy(text, CutOf(text, chunkSize), overlap, space)
  }

  method ChunkText(text: string, chunkSize: nat, overlap: nat, space: char -> bool) returns (chunks: seq<Chunk>)
    ensures chunks == ChunksOf(text, chunkSize, overlap, space)
  {
    if Strip(text, space) == "" {
      return [];
    }
    if |text| <= chunkSize {
      return [Chunk(1, text)];
    }
    chunks := ChunkLong(text, chunkSize, overlap, space, CutOf(text, chunkSize));
  }

  method WindowEnd(text: string, chunkSize: nat, start: nat, ghost cut: Cut) returns (end: nat)
    requires start < |text| && IsCut(cut, text, chunkSize)
    ensures end == cut(start)
  {
    end := if start + chunkSize < |text| then start + chunkSize else |text|;
    if end < |text| {
      var window := text[start..end];
      var boundary := Boundary(window);
      if boundary > chunkSize / 2 {
        end := start + boundary + 1;
      }
    }
    assert end == CutEnd(text, chunkSize, start);
  }

  // The loop over the windows of a text that is longer than one chunk.
  method ChunkLong(
    text: string, chunkSize: nat, overlap: nat, space: char -> bool, ghost cut: Cut) returns (chunks: seq<Chunk>)
    requires IsCut(cut, text, chunkSize) && Proper(cut, |text|)
    ensures chunks == ChunksBy(text, cut, overlap, space)
  {
    chunks := [];
    var start, seqNo := 0, 1;
    ghost var done: seq<Window> := [];
    Outset(text, cut, overlap, space);
    while start < |text|
      invariant start <= |text| && seqNo == |chunks| + 1
      invariant Underway(text, cut, overlap, space, done, start, chunks)
      decreases |text| - start
    {
      var end := WindowEnd(text, chunkSize, start, cut);
      OneWindow(text, cut, overlap, space, done, start, chunks);
      var piece := Strip(text[start..end], space);
      if piece != "" {
        chunks := chunks + [Chunk(seqNo, piece)];
        seqNo := seqNo + 1;
      }
      if end >= |text| {
        return;
      }
      done := done + [Window(start, end)];
      start := NextStart(start, end, overlap);
    }
    Through(text, cut, overlap, space, done, chunks);
  }

  lemma Through(text: string, cut: Cut, overlap: nat, space: char -> bool, done: seq<Window>, chunks: seq<Chunk>)
    requires Proper(cut, |text|) && Underway(text, cut, overlap, space, done, |text|, chunks)
    ensures chunks == ChunksBy(text, cut, overlap, space)
  {
    assert done + [] == done;
  }

  // The chunks of the windows done, and the windows still to come.
  ghost predicate Underway(
    text: string, cut: Cut, overlap: nat, space: char -> bool, done: seq<Window>, start: nat, chunks: seq<Chunk>)
    requires Proper(cut, |text|)
  {
    && start <= |text| && InText(text, done)
    && chunks == Numbered(Kept(text, done, space))
    && Windows(|text|, cut, overlap, 0) == done + Windows(|text|, cut, overlap, start)
  }

  lemma Outset(text: string, cut: Cut, overlap: nat, space: char -> bool)
    requires Proper(cut, |text|)
    ensures Underway(text, cut, overlap, space, [], 0, [])
  {}

  ghost function Grown(text: string, w: Window, space: char -> bool, chunks: seq<Chunk>): seq<Chunk>
    requires w.start <= w.end <= |text|
  {
    var piece := Strip(text[w.start..w.end], space);
    if piece != "" then chunks + [Chunk(|chunks| + 1, piece)] else chunks
  }

  lemma KeptOneMore(text: string, done: seq<Window>, w: Window, space: char -> bool)
    requires InText(text, done) && w.start <= w.end <= |text|
    ensures InText(text, done + [w])
    ensures Numbered(Kept(text, done + [w], space)) == Grown(text, w, space, Numbered(Kept(text, done, space)))
  {
    assert (done + [w])[..|done|] == done;
  }

  lemma MoreWindows(length: nat, cut: Cut, overlap: nat, done: seq<Window>, start: nat)
    requires start < length && Proper(cut, length)
    requires Windows(length, cut, overlap, 0) == done + Windows(length, cut, overlap, start)
    ensures var w := Window(start, cut(start));
            Windows(length, cut, overlap, 0) ==
            (done + [w]) +
            if w.end == length then [] else Windows(length, cut, overlap, NextStart(start, w.end, overlap))
  {
    var w := Window(start, cut(start));
    var rest := if w.end == length then [] else Windows(length, cut, overlap, NextStart(start, w.end, overlap));
    assert Windows(length, cut, overlap, start) == [w] + rest;
    assert done + ([w] + rest) == (done + [w]) + rest;
  }

  lemma OneWindow(
    text: string, cut: Cut, overlap: nat, space: char -> bool, done: seq<Window>, start: nat, chunks: seq<Chunk>)
    requires start < |text| && Proper(cut, |text|) && Underway(text, cut, overlap, space, done, start, chunks)
    ensures var w := Window(start, cut(start));
            var grown := Grown(text, w, space, chunks);
            if w.end == |text| then grown == ChunksBy(text, cut, overlap, space)
            else Underway(text, cut, overlap, space, done + [w], NextStart(start, w.end, overlap), grown)
  {
    var w := Window(start, cut(start));
    KeptOneMore(text, done, w, space);
    MoreWindows(|text|, cut, overlap, done, start);
    assert done + [w] + [] == done + [w];
  }

  // ---- the theorems ----

  // From start on: no gap, nothing left over at the end, each window later than the one
  // before it, and none longer than chunkSize.
  ghost predicate Covers(windows: seq<Window>, start: nat, length: nat, chunkSize: nat) {
    && windows != [] && windows[0].start == start && windows[|windows| - 1].end == length
    && (forall k :: 0 <= k < |windows| ==> windows[k].start < windows[k].end <= windows[k].start + chunkSize)
    && (forall k :: 0 <= k < |windows| - 1 ==> windows[k].start < windows[k + 1].start <= windows[k].end < length)
  }

  // A cut that leaves no window empty or longer than chunkSize.
  ghost predicate Tight(cut: Cut, length: nat, chunkSize: nat) {
    forall s: nat :: s < length ==> s < cut(s) <= length && cut(s) <= s + chunkSize
  }

  lemma CutIsTight(text: string, chunkSize: nat)
    requires chunkSize >= 1
    ensures Tight(CutOf(text, chunkSize), |text|, chunkSize)
  {
    var cut := CutOf(text, chunkSize);
    forall s: nat | s < |text| ensures s < cut(s) <= |text| && cut(s) <= s + chunkSize {
      assert cut(s) == CutEnd(text, chunkSize, s);
    }
  }

  lemma {:induction false} WindowsCover(length: nat, cut: Cut, chunkSize: nat, overlap: nat, start: nat)
    requires start < length && Proper(cut, length) && Tight(cut, length, chunkSize)
    ensures Covers(Windows(length, cut, overlap, start), start, length, chunkSize)
    decreases length - start
  {
    var end := cut(start);
    if end < length {
      var next := NextStart(start, end, overlap);
      WindowsCover(length, cut, chunkSize, overlap, next);
      CoversOneMore(Window(start, end), Windows(length, cut, overlap, next), next, length, chunkSize);
    }
  }

  lemma CoversOneMore(first: Window, rest: seq<Window>, next: nat, length: nat, chunkSize: nat)
    requires Covers(rest, next, length, chunkSize)
    requires first.start < next <= first.end < length && first.end <= first.start + chunkSize
    ensures Covers([first] + rest, first.start, length, chunkSize)
  {
    var all := [first] + rest;
    assert all[0] == first && all[|all| - 1] == rest[|rest| - 1];
    forall k | 0 <= k < |all|
      ensures all[k].start < all[k].end <= all[k].start + chunkSize
      ensures k < |all| - 1 ==> all[k].start < all[k + 1].start <= all[k].end < length
    {
      assert all[k] == if k == 0 then first else rest[k - 1];
      assert k < |all| - 1 ==> all[k + 1] == rest[k];
    }
  }

  lemma {:induction false} WindowOf(
    windows: seq<Window>, start: nat, length: nat, chunkSize: nat, i: nat) returns (k: nat)
    requires Covers(windows, start, length, chunkSize) && start <= i < length
    ensures k < |windows| && windows[k].start <= i < windows[k].end
    decreases |windows|
  {
    if i < windows[0].end {
      k := 0;
    } else {
      var rest := windows[1..];
      k := WindowOf(rest, rest[0].start, length, chunkSize, i);
      k := k + 1;
    }
  }

  // Character i of the text is in some chunk.
  ghost predicate InChunk(text: string, chunks: seq<Chunk>, i: nat) {
    exists k, a, b :: InChunkAt(text, chunks, i, k, a, b)
  }

  ghost predicate InChunkAt(text: string, chunks: seq<Chunk>, i: nat, k: nat, a: nat, b: nat) {
    k < |chunks| && a <= i < b <= |text| && chunks[k].text == text[a..b]
  }

  lemma SliceOfSlice(text: string, lo: nat, hi: nat, left: nat, right: nat)
    requires lo <= hi <= |text| && left <= right <= hi - lo
    ensures text[lo..hi][left..right] == text[lo + left..lo + right]
  {
    assert |text[lo..hi][left..right]| == right - left == |text[lo + left..lo + right]|;
    assert forall k :: 0 <= k < right - left ==> text[lo..hi][left..right][k] == text[lo + left..lo + right][k];
  }

  lemma StripKeeps(text: string, lo: nat, hi: nat, space: char -> bool, i: nat) returns (a: nat, b: nat)
    requires lo <= i < hi <= |text| && !space(text[i])
    ensures lo <= a <= i < b <= hi && Strip(text[lo..hi], space) == text[a..b]
  {
    var part := text[lo..hi];
    assert part[i - lo] == text[i];
    var left := TrimLeft(part, 0, |part|, space);
    var right := TrimRight(part, left, |part|, space);
    a, b := lo + left, lo + right;
    SliceOfSlice(text, lo, hi, left, right);
  }

  lemma {:induction false} KeptHas(text: string, windows: seq<Window>, space: char -> bool, k: nat) returns (j: nat)
    requires InText(text, windows)
    requires k < |windows| && Strip(text[windows[k].start..windows[k].end], space) != ""
    ensures j < |Kept(text, windows, space)|
            && Kept(text, windows, space)[j] == Strip(text[windows[k].start..windows[k].end], space)
    decreases |windows|
  {
    var n := |windows| - 1;
    if k < n {
      j := KeptHas(text, windows[..n], space, k);
    } else {
      j := |Kept(text, windows[..n], space)|;
    }
  }

  lemma NothingLost(text: string, chunkSize: nat, overlap: nat, space: char -> bool, i: nat)
    requires chunkSize >= 1 && i < |text| && !space(text[i])
    ensures InChunk(text, ChunksOf(text, chunkSize, overlap, space), i)
  {
    assert text[0..|text|] == text;
    var a, b := StripKeeps(text, 0, |text|, space, i);
    if |text| <= chunkSize {
      assert InChunkAt(text, ChunksOf(text, chunkSize, overlap, space), i, 0, 0, |text|);
    } else {
      CutIsTight(text, chunkSize);
      InSomeWindow(text, CutOf(text, chunkSize), chunkSize, overlap, space, i);
    }
  }

  lemma InSomeWindow(text: string, cut: Cut, chunkSize: nat, overlap: nat, space: char -> bool, i: nat)
    requires i < |text| && !space(text[i]) && Proper(cut, |text|) && Tight(cut, |text|, chunkSize)
    ensures InChunk(text, ChunksBy(text, cut, overlap, space), i)
  {
    var windows := Windows(|text|, cut, overlap, 0);
    WindowsInside(|text|, cut, overlap, 0);
    WindowsCover(|text|, cut, chunkSize, overlap, 0);
    var k := WindowOf(windows, 0, |text|, chunkSize, i);
    var a, b := StripKeeps(text, windows[k].start, windows[k].end, space, i);
    var j := KeptHas(text, windows, space, k);
    assert InChunkAt(text, Numbered(Kept(text, windows, space)), i, j, a, b);
  }

  ghost predicate LosesNothing(chunkSize: nat, overlap: nat, space: char -> bool) {
    forall text: string, i: nat ::
      i < |text| && !space(text[i]) ==> InChunk(text, ChunksOf(text, chunkSize, overlap, space), i)
  }

  lemma ZeroCut(text: string, overlap: nat, space: char -> bool)
    requires |text| == 1
    ensures ChunksBy(text, CutOf(text, 0), overlap, space) == []
  {
    var cut := CutOf(text, 0);
    assert CutEnd(text, 0, 0) == cut(0) == 0;
    assert Windows(1, cut, overlap, 0) == [Window(0, 0)];
    assert text[0..0] == "" && Strip("", space) == "";
    assert [Window(0, 0)][..0] == [];
    assert Kept(text, [Window(0, 0)], space) == [];
  }

  lemma ZeroLoses(overlap: nat, space: char -> bool, c: char)
    requires !space(c)
    ensures !LosesNothing(0, overlap, space)
  {
    var text := [c];
    ZeroCut(text, overlap, space);
    assert text[0] == c && |ChunksOf(text, 0, overlap, space)| == 0;
    assert !InChunk(text, ChunksOf(text, 0, overlap, space), 0);
  }

  // A size of zero makes every window empty; any other loses nothing.
  lemma LosesNothingIff(chunkSize: nat, overlap: nat, space: char -> bool, c: char)
    requires !space(c)
    ensures LosesNothing(chunkSize, overlap, space) <==> chunkSize >= 1
  {
    if chunkSize >= 1 {
      forall text: string, i: nat | i < |text| && !space(text[i])
        ensures InChunk(text, ChunksOf(text, chunkSize, overlap, space), i)
      {
        NothingLost(text, chunkSize, overlap, space, i);
      }
    } else {
      ZeroLoses(overlap, space, c);
    }
  }

  lemma ChunkSizes(text: string, chunkSize: nat, overlap: nat, space: char -> bool, k: nat)
    requires chunkSize >= 1 && k < |ChunksOf(text, chunkSize, overlap, space)|
    ensures ChunksOf(text, chunkSize, overlap, space)[k].seqNo == k + 1
    ensures 1 <= |ChunksOf(text, chunkSize, overlap, space)[k].text| <= chunkSize
  {
    if |text| > chunkSize {
      CutIsTight(text, chunkSize);
      KeptSizes(text, CutOf(text, chunkSize), chunkSize, overlap, space);
    }
  }

  lemma {:induction false} KeptShort(text: string, windows: seq<Window>, chunkSize: nat, space: char -> bool)
    requires InText(text, windows) && forall w :: w in windows ==> w.end <= w.start + chunkSize
    ensures |Kept(text, windows, space)| <= |windows|
    ensures forall p :: p in Kept(text, windows, space) ==> 1 <= |p| <= chunkSize
  {
    if windows != [] {
      KeptShort(text, windows[..|windows| - 1], chunkSize, space);
    }
  }

  lemma KeptSizes(text: string, cut: Cut, chunkSize: nat, overlap: nat, space: char -> bool)
    requires Proper(cut, |text|) && Tight(cut, |text|, chunkSize)
    ensures |ChunksBy(text, cut, overlap, space)| <= |Windows(|text|, cut, overlap, 0)|
    ensures forall c :: c in ChunksBy(text, cut, overlap, space) ==> 1 <= |c.text| <= chunkSize
  {
    WindowsInside(|text|, cut, overlap, 0);
    KeptShort(text, Windows(|text|, cut, overlap, 0), chunkSize, space);
  }

  // ---- progress ----

  predicate Steps(text: string, chunkSize: nat, overlap: nat, start: nat, pace: int)
    requires start < |text|
  {
    var end := CutEnd(text, chunkSize, start);
    end < |text| ==> NextStart(start, end, overlap) >= start + pace
  }

  ghost predicate AlwaysSteps(chunkSize: nat, overlap: nat, pace: int) {
    forall text: string, start: nat :: start < |text| ==> Steps(text, chunkSize, overlap, start, pace)
  }

  lemma CutFar(text: string, chunkSize: nat, start: nat)
    requires chunkSize >= 3 && start < |text| && CutEnd(text, chunkSize, start) < |text|
    ensures CutEnd(text, chunkSize, start) >= start + chunkSize / 2 + 2
  {}

  lemma AlwaysFar(chunkSize: nat, overlap: nat, pace: int)
    requires chunkSize >= 3 && pace == chunkSize / 2 + 2 - overlap
    ensures AlwaysSteps(chunkSize, overlap, pace)
  {
    forall text: string, start: nat | start < |text| ensures Steps(text, chunkSize, overlap, start, pace) {
      if CutEnd(text, chunkSize, start) < |text| {
        CutFar(text, chunkSize, start);
      }
    }
  }

  lemma TooSmall(chunkSize: nat, overlap: nat, pace: int)
    requires chunkSize < 3 && overlap <= chunkSize / 2 && pace == chunkSize / 2 + 2 - overlap
    ensures !AlwaysSteps(chunkSize, overlap, pace)
  {
    var text := "aaaa";
    BoundaryIsLastBreak(text[0..chunkSize]);
    assert !Steps(text, chunkSize, overlap, 0, pace);
  }

  // With an overlap of at most half the size, a window that is not the last advances by
  // chunkSize / 2 + 2 - overlap exactly when the size is at least 3.
  lemma AdvanceIff(chunkSize: nat, overlap: nat, pace: int)
    requires overlap <= chunkSize / 2 && pace == chunkSize / 2 + 2 - overlap
    ensures AlwaysSteps(chunkSize, overlap, pace) <==> chunkSize >= 3
  {
    if chunkSize >= 3 {
      AlwaysFar(chunkSize, overlap, pace);
    } else {
      TooSmall(chunkSize, overlap, pace);
    }
  }

  ghost predicate StepsBy(cut: Cut, length: nat, overlap: nat, pace: nat) {
    forall s: nat :: s < length && cut(s) < length ==> NextStart(s, cut(s), overlap) >= s + pace
  }

  lemma {:induction false} WindowCount(length: nat, cut: Cut, overlap: nat, start: nat, pace: nat)
    requires start < length && Proper(cut, length) && StepsBy(cut, length, overlap, pace)
    ensures (|Windows(length, cut, overlap, start)| - 1) * pace < length - start
    decreases length - start
  {
    var end := cut(start);
    if end < length {
      var next := NextStart(start, end, overlap);
      if next < length {
        WindowCount(length, cut, overlap, next, pace);
        OneMore(|Windows(length, cut, overlap, next)|, pace, length - next, next - start);
      } else {
        assert |Windows(length, cut, overlap, next)| == 0;
      }
    }
  }

  lemma OneMore(count: nat, pace: nat, left: int, step: nat)
    requires (count - 1) * pace < left && pace <= step
    ensures count * pace < left + step
  {
    assert count * pace == (count - 1) * pace + pace;
  }

  lemma Fewer(n: nat, m: nat, pace: nat, length: nat)
    requires n <= m && (m - 1) * pace < length
    ensures (n - 1) * pace < length
  {
    assert (n - 1) * pace <= (m - 1) * pace;
  }

  lemma ChunkCountBy(text: string, cut: Cut, chunkSize: nat, overlap: nat, space: char -> bool, pace: nat)
    requires text != "" && Proper(cut, |text|) && Tight(cut, |text|, chunkSize) && StepsBy(cut, |text|, overlap, pace)
    ensures (|ChunksBy(text, cut, overlap, space)| - 1) * pace < |text|
  {
    var n := |ChunksBy(text, cut, overlap, space)|;
    var m := |Windows(|text|, cut, overlap, 0)|;
    WindowCount(|text|, cut, overlap, 0, pace);
    KeptSizes(text, cut, chunkSize, overlap, space);
    Fewer(n, m, pace, |text|);
  }

  lemma CutSteps(text: string, chunkSize: nat, overlap: nat, pace: nat)
    requires AlwaysSteps(chunkSize, overlap, pace)
    ensures StepsBy(CutOf(text, chunkSize), |text|, overlap, pace)
  {
    var cut := CutOf(text, chunkSize);
    forall s: nat | s < |text| && cut(s) < |text| ensures NextStart(s, cut(s), overlap) >= s + pace {
      assert cut(s) == CutEnd(text, chunkSize, s);
      assert Steps(text, chunkSize, overlap, s, pace);
    }
  }

  lemma OneOrAsMany(n: nat, m: nat, pace: nat, length: nat)
    requires n <= 1 || n == m
    requires (m - 1) * pace < length && length > 0
    ensures (n - 1) * pace < length
  {
    assert n <= 1 ==> (n - 1) * pace <= 0;
  }

  lemma LongAtPace(text: string, chunkSize: nat, overlap: nat, space: char -> bool, pace: nat)
    requires chunkSize >= 1 && text != "" && AlwaysSteps(chunkSize, overlap, pace)
    ensures (|ChunksBy(text, CutOf(text, chunkSize), overlap, space)| - 1) * pace < |text|
  {
    CutSteps(text, chunkSize, overlap, pace);
    CutIsTight(text, chunkSize);
    ChunkCountBy(text, CutOf(text, chunkSize), chunkSize, overlap, space, pace);
  }

  lemma ChunksAre(text: string, chunkSize: nat, overlap: nat, space: char -> bool)
    ensures || |ChunksOf(text, chunkSize, overlap, space)| <= 1
            || |ChunksOf(text, chunkSize, overlap, space)| == |ChunksBy(text, CutOf(text, chunkSize), overlap, space)|
  {}

  // A pace that every window keeps bounds the number of chunks.
  lemma CountAtPace(text: string, chunkSize: nat, overlap: nat, space: char -> bool, pace: nat, n: nat)
    requires chunkSize >= 1 && text != "" && AlwaysSteps(chunkSize, overlap, pace)
    requires n == |ChunksOf(text, chunkSize, overlap, space)|
    ensures (n - 1) * pace < |text|
  {
    ChunksAre(text, chunkSize, overlap, space);
    LongAtPace(text, chunkSize, overlap, space, pace);
    OneOrAsMany(n, |ChunksBy(text, CutOf(text, chunkSize), overlap, space)|, pace, |text|);
  }

  // How many chunks a text can have.
  lemma ChunkCount(text: string, chunkSize: nat, overlap: nat, space: char -> bool, pace: nat, n: nat)
    requires chunkSize >= 3 && text != "" && pace == chunkSize / 2 + 2 - overlap
    requires n == |ChunksOf(text, chunkSize, overlap, space)|
    ensures (n - 1) * pace < |text|
  {
    AlwaysFar(chunkSize, overlap, pace);
    CountAtPace(text, chunkSize, overlap, space, pace, n);
  }

  // ---- what the chunks are ----

  // The windows of a text, one after the other: each starts `overlap` before the end of the one
  // before it, or one character after its start where that is later.
  ghost predicate IsWindowing(text: string, chunkSize: nat, overlap: nat, windows: seq<Window>) {
    && windows != [] && windows[0].start == 0
    && (forall k :: 0 <= k < |windows| ==>
          windows[k].start < |text| && EndsAt(text, chunkSize, windows[k].start, windows[k].end))
    && (forall k :: 0 <= k < |windows| - 1 ==>
          windows[k].end < |text| && Follows(windows[k], windows[k + 1].start, overlap))
    && (var last := windows[|windows| - 1]; last.end == |text| || Follows(last, |text|, overlap))
  }

  predicate Follows(w: Window, next: nat, overlap: nat) {
    if w.end > w.start + overlap then next == w.end - overlap else next == w.start + 1
  }

  // The same, for any rule of cutting.
  ghost predicate Linked(length: nat, cut: Cut, overlap: nat, start: nat, windows: seq<Window>) {
    && windows != [] && windows[0].start == start
    && (forall k :: 0 <= k < |windows| ==> windows[k].start < length && windows[k].end == cut(windows[k].start))
    && (forall k :: 0 <= k < |windows| - 1 ==>
          windows[k].end < length && Follows(windows[k], windows[k + 1].start, overlap))
    && (var last := windows[|windows| - 1]; last.end == length || Follows(last, length, overlap))
  }

  lemma NextFollows(w: Window, overlap: nat)
    ensures Follows(w, NextStart(w.start, w.end, overlap), overlap)
  {}

  lemma LinkedOneMore(length: nat, cut: Cut, overlap: nat, first: Window, next: nat, rest: seq<Window>)
    requires first.start < length && first.end == cut(first.start) < length && Follows(first, next, overlap)
    requires Linked(length, cut, overlap, next, rest)
    ensures Linked(length, cut, overlap, first.start, [first] + rest)
  {
    var all := [first] + rest;
    assert all[|all| - 1] == rest[|rest| - 1];
    forall k | 0 <= k < |all| ensures all[k] == if k == 0 then first else rest[k - 1] {}
  }

  lemma {:induction false} WindowsLinked(length: nat, cut: Cut, overlap: nat, start: nat)
    requires start < length && Proper(cut, length)
    ensures Linked(length, cut, overlap, start, Windows(length, cut, overlap, start))
    decreases length - start
  {
    var w := Window(start, cut(start));
    if w.end < length {
      var next := NextStart(w.start, w.end, overlap);
      NextFollows(w, overlap);
      if next < length {
        WindowsLinked(length, cut, overlap, next);
        LinkedOneMore(length, cut, overlap, w, next, Windows(length, cut, overlap, next));
      } else {
        assert Windows(length, cut, overlap, next) == [];
      }
    }
  }

  lemma LinkedWindowing(text: string, chunkSize: nat, overlap: nat, windows: seq<Window>)
    requires Linked(|text|, CutOf(text, chunkSize), overlap, 0, windows)
    ensures IsWindowing(text, chunkSize, overlap, windows)
  {
    var cut := CutOf(text, chunkSize);
    forall k | 0 <= k < |windows| ensures EndsAt(text, chunkSize, windows[k].start, windows[k].end) {
      assert cut(windows[k].start) == CutEnd(text, chunkSize, windows[k].start);
      CutEndAnswers(text, chunkSize, windows[k].start);
    }
  }

  predicate Blank(text: string, space: char -> bool, lo: nat, hi: nat)
    requires hi <= |text|
  {
    forall i :: lo <= i < hi ==> space(text[i])
  }

  // The piece is the window without the white space at its two ends.
  ghost predicate StrippedTo(text: string, w: Window, space: char -> bool, piece: string, a: nat, b: nat) {
    && w.start <= a <= b <= w.end <= |text| && piece == text[a..b]
    && Blank(text, space, w.start, a) && Blank(text, space, b, w.end)
    && (a < b ==> !space(text[a]) && !space(text[b - 1]))
  }

  lemma StripAnswers(text: string, w: Window, space: char -> bool) returns (a: nat, b: nat)
    requires w.start <= w.end <= |text|
    ensures StrippedTo(text, w, space, Strip(text[w.start..w.end], space), a, b)
  {
    var part := text[w.start..w.end];
    var left := TrimLeft(part, 0, |part|, space);
    var right := TrimRight(part, left, |part|, space);
    a, b := w.start + left, w.start + right;
    SliceOfSlice(text, w.start, w.end, left, right);
    forall i | w.start <= i < a || b <= i < w.end ensures space(text[i]) {
      assert part[i - w.start] == text[i];
    }
  }

  ghost predicate Stripped(text: string, w: Window, space: char -> bool, piece: string) {
    exists a, b :: StrippedTo(text, w, space, piece, a, b)
  }

  // Piece j is window at[j], stripped; the windows left out are blank.
  ghost predicate Collects(text: string, windows: seq<Window>, space: char -> bool, at: seq<nat>, pieces: seq<string>) {
    && |at| == |pieces|
    && (forall j :: 0 <= j < |at| ==>
          at[j] < |windows| && pieces[j] != "" && Stripped(text, windows[at[j]], space, pieces[j]))
    && (forall i, j :: 0 <= i < j < |at| ==> at[i] < at[j])
    && (forall k :: 0 <= k < |windows| && k !in at ==> Stripped(text, windows[k], space, ""))
  }

  lemma {:induction false} KeptCollects(text: string, windows: seq<Window>, space: char -> bool) returns (at: seq<nat>)
    requires InText(text, windows)
    ensures Collects(text, windows, space, at, Kept(text, windows, space))
    decreases |windows|
  {
    if windows == [] {
      at := [];
    } else {
      var n := |windows| - 1;
      at := KeptCollects(text, windows[..n], space);
      CollectsOneMore(text, windows, space, at, Kept(text, windows[..n], space));
      if Strip(text[windows[n].start..windows[n].end], space) != "" {
        at := at + [n];
      }
    }
  }

  lemma CollectsOneMore(text: string, windows: seq<Window>, space: char -> bool, at: seq<nat>, pieces: seq<string>)
    requires windows != [] && InText(text, windows)
    requires Collects(text, windows[..|windows| - 1], space, at, pieces)
    ensures var n := |windows| - 1;
            var piece := Strip(text[windows[n].start..windows[n].end], space);
            if piece == "" then Collects(text, windows, space, at, pieces)
            else Collects(text, windows, space, at + [n], pieces + [piece])
  {
    var n := |windows| - 1;
    var piece := Strip(text[windows[n].start..windows[n].end], space);
    var a, b := StripAnswers(text, windows[n], space);
    assert Stripped(text, windows[n], space, piece);
    assert forall k :: 0 <= k < n ==> windows[..n][k] == windows[k];
    if piece != "" {
      var at', pieces' := at + [n], pieces + [piece];
      forall j | 0 <= j < |at'|
        ensures at'[j] < |windows| && pieces'[j] != "" && Stripped(text, windows[at'[j]], space, pieces'[j])
      {
        if j < |at| {
          assert at'[j] == at[j] && pieces'[j] == pieces[j];
        }
      }
      forall k | 0 <= k < |windows| && k !in at' ensures Stripped(text, windows[k], space, "") {
        assert k != n && k !in at;
      }
    }
  }

  ghost predicate AreChunks(text: string, chunkSize: nat, overlap: nat, space: char -> bool, chunks: seq<Chunk>) {
    exists windows, at, pieces ::
      && IsWindowing(text, chunkSize, overlap, windows) && Collects(text, windows, space, at, pieces)
      && chunks == Numbered(pieces)
  }

  lemma StripEmptyIff(text: string, space: char -> bool)
    ensures Strip(text, space) == "" <==> Blank(text, space, 0, |text|)
  {
    assert text[0..|text|] == text;
    var a, b := StripAnswers(text, Window(0, |text|), space);
  }

  // A blank text has no chunk; one that fits is a chunk as it is; any other is cut into windows,
  // whose pieces without white space at the ends are the chunks, the blank ones left out.
  lemma ChunksAnswer(text: string, chunkSize: nat, overlap: nat, space: char -> bool)
    ensures var chunks := ChunksOf(text, chunkSize, overlap, space);
            if Blank(text, space, 0, |text|) then chunks == []
            else if |text| <= chunkSize then chunks == [Chunk(1, text)]
            else AreChunks(text, chunkSize, overlap, space, chunks)
  {
    StripEmptyIff(text, space);
    if Strip(text, space) != "" && |text| > chunkSize {
      var cut := CutOf(text, chunkSize);
      var windows := Windows(|text|, cut, overlap, 0);
      WindowsInside(|text|, cut, overlap, 0);
      WindowsLinked(|text|, cut, overlap, 0);
      LinkedWindowing(text, chunkSize, overlap, windows);
      var at := KeptCollects(text, windows, space);
    }
  }
}
