/**
 Splitting a document into overlapping chunks. `split_text` walks over the normalized text in windows
 and keeps the stripped text of each. Which characters are white space is a parameter, as in
 `Citations`.
 */
module Chunking {
  import opened Wrappers
  import opened Texts

  // ---------------------------------------------------------------------------
  // Normalization
  // ---------------------------------------------------------------------------

  /** `text.replace("\r\n", "\n").replace("\r", "\n")` */
  function UnifiedNewlines(s: string): string
    decreases |s|
  {
    if s == [] then []
    else if s[0] == '\r' && |s| > 1 && s[1] == '\n' then ['\n'] + UnifiedNewlines(s[2..])
    else if s[0] == '\r' then ['\n'] + UnifiedNewlines(s[1..])
    else [s[0]] + UnifiedNewlines(s[1..])
  }

  predicate IsBlank(c: char) {
    c == ' ' || c == '\t'
  }

  /** `re.sub(r"[ \t]+", " ", s)` */
  function CollapsedBlanks(s: string): string {
    if s == [] then []
    else if !IsBlank(s[0]) then [s[0]] + CollapsedBlanks(s[1..])
    else if |s| > 1 && IsBlank(s[1]) then CollapsedBlanks(s[1..])
    else [' '] + CollapsedBlanks(s[1..])
  }

  /** `re.sub(r"\n{3,}", "\n\n", s)` for a text that continues a run of `run` newlines. */
  function CollapsedNewlines(s: string, run: nat): string {
    if s == [] then []
    else if s[0] != '\n' then [s[0]] + CollapsedNewlines(s[1..], 0)
    else if run < 2 then ['\n'] + CollapsedNewlines(s[1..], run + 1)
    else CollapsedNewlines(s[1..], run)
  }

  /** Where the text without white space at its ends starts, within `s[lo..hi]`. */
  function StripLeft(space: char -> bool, s: string, lo: nat, hi: nat): (r: nat)
    requires lo <= hi <= |s|
    ensures lo <= r <= hi
    ensures forall k :: lo <= k < r ==> space(s[k])
    ensures r < hi ==> !space(s[r])
    decreases hi - lo
  {
    if lo < hi && space(s[lo]) then StripLeft(space, s, lo + 1, hi) else lo
  }

  /** Where it ends. */
  function StripRight(space: char -> bool, s: string, lo: nat, hi: nat): (r: nat)
    requires lo <= hi <= |s|
    ensures lo <= r <= hi
    ensures forall k :: r <= k < hi ==> space(s[k])
    ensures lo < r ==> !space(s[r - 1])
    decreases hi - lo
  {
    if lo < hi && space(s[hi - 1]) then StripRight(space, s, lo, hi - 1) else hi
  }

  /** `s[lo:hi].strip()` */
  function Stripped(space: char -> bool, s: string, lo: nat, hi: nat): string
    requires lo <= hi <= |s|
  {
    var start := StripLeft(space, s, lo, hi);
    s[start..StripRight(space, s, start, hi)]
  }

  function Normalized(space: char -> bool, text: string): string {
    var s := CollapsedNewlines(CollapsedBlanks(UnifiedNewlines(text)), 0);
    Stripped(space, s, 0, |s|)
  }

  // ---------------------------------------------------------------------------
  // Windows
  // ---------------------------------------------------------------------------

  datatype Window = Window(start: nat, end: nat)

  predicate IsSeparator(c: char) {
    c in ['\n', '\U{3002}', '\U{FF01}', '\U{FF1F}', ';', '\U{FF1B}', ' ']
  }

  /** `max(text.rfind(separator, lo, hi) for separator in ...)` */
  function LastSeparator(text: string, lo: nat, hi: nat): (r: int)
    requires lo <= hi <= |text|
    ensures r == -1 || lo <= r < hi
    ensures r >= 0 ==> IsSeparator(text[r])
    ensures forall k :: lo <= k < hi && r < k ==> !IsSeparator(text[k])
    decreases hi - lo
  {
    if lo == hi then -1
    else if IsSeparator(text[hi - 1]) then hi - 1
    else LastSeparator(text, lo, hi - 1)
  }

  /** Where the window that begins at `start` ends: behind the last separator of its second half, if any. */
  function EndOf(text: string, size: nat, start: nat): (end: nat)
    requires start < |text| && 0 < size
    ensures start < end <= |text| && end <= start + size
    ensures end < |text| ==> end - start > size / 2
  {
    if start + size >= |text| then |text|
    else
      var boundary := LastSeparator(text, start + size / 2, start + size);
      if boundary > start then boundary + 1 else start + size
  }

  /** `max(start + 1, end - overlap)` */
  function NextStart(start: nat, end: nat, overlap: nat): nat {
    if end - overlap > start + 1 then end - overlap else start + 1
  }

  /** All windows from `start` on. */
  function Windows(text: string, size: nat, overlap: nat, start: nat): seq<Window>
    requires overlap < size
    decreases |text| - start
  {
    if start >= |text| then []
    else
      var end := EndOf(text, size, start);
      [Window(start, end)]
      + if end >= |text| then [] else Windows(text, size, overlap, NextStart(start, end, overlap))
  }

  ghost predicate Within(text: string, windows: seq<Window>) {
    forall i :: 0 <= i < |windows| ==> windows[i].start < windows[i].end <= |text|
  }

  /** The chunk of a window, unless it is empty or repeats the one before it. */
  function WithChunk(chunks: seq<string>, chunk: string): seq<string> {
    if chunk != [] && (chunks == [] || chunk != chunks[|chunks| - 1]) then chunks + [chunk] else chunks
  }

  /** `chunks`, and behind it the chunks of the windows. */
  function Chunks(space: char -> bool, text: string, windows: seq<Window>, chunks: seq<string>): seq<string>
    requires Within(text, windows)
  {
    if windows == [] then chunks
    else Chunks(space, text, windows[1..], WithChunk(chunks, Stripped(space, text, windows[0].start, windows[0].end)))
  }

  lemma {:induction false} WindowsWithin(text: string, size: nat, overlap: nat, start: nat)
    requires overlap < size
    ensures Within(text, Windows(text, size, overlap, start))
    decreases |text| - start
  {
    if start < |text| {
      var end := EndOf(text, size, start);
      if end < |text| { WindowsWithin(text, size, overlap, NextStart(start, end, overlap)); }
    }
  }

  // ---------------------------------------------------------------------------
  // split_text
  // ---------------------------------------------------------------------------

  datatype Error = ValueError

  /** The loop of `split_text`, over the normalized text. */
  method SplitNormalized(space: char -> bool, text: string, size: nat, overlap: nat) returns (chunks: seq<string>)
    requires overlap < size
    ensures Within(text, Windows(text, size, overlap, 0))
    ensures chunks == Chunks(space, text, Windows(text, size, overlap, 0), [])
  {
    WindowsWithin(text, size, overlap, 0);
    chunks := [];
    var start := 0;
    while start < |text|
      invariant Within(text, Windows(text, size, overlap, start))
      invariant Chunks(space, text, Windows(text, size, overlap, start), chunks)
             == Chunks(space, text, Windows(text, size, overlap, 0), [])
      decreases |text| - start
    {
      WindowsWithin(text, size, overlap, start);
      var end := WindowEnd(text, size, start);
      var chunk := Stripped(space, text, start, end);
      if chunk != [] && (chunks == [] || chunk != chunks[|chunks| - 1]) {
        chunks := chunks + [chunk];
      }
      if end >= |text| {
        return;
      }
      start := NextStart(start, end, overlap);
      WindowsWithin(text, size, overlap, start);
    }
  }

  /** The part of the loop body that moves the end of the window back to a separator. */
  method WindowEnd(text: string, size: nat, start: nat) returns (end: nat)
    requires start < |text| && 0 < size
    ensures end == EndOf(text, size, start)
  {
    end := if start + size < |text| then start + size else |text|;
    if end < |text| {
      var boundary := LastSeparator(text, start + size / 2, end);
      if boundary > start {
        end := boundary + 1;
      }
    }
  }

  method SplitText(space: char -> bool, text: string, size: nat, overlap: nat) returns (r: Result<seq<string>, Error>)
    ensures r.Failure? <==> overlap >= size
    ensures r.Success? ==>
              var normalized := Normalized(space, text);
              && Within(normalized, Windows(normalized, size, overlap, 0))
              && r.value == Chunks(space, normalized, Windows(normalized, size, overlap, 0), [])
  {
    if overlap >= size {
      return Failure(ValueError);
    }
    var chunks := SplitNormalized(space, Normalized(space, text), size, overlap);
    return Success(chunks);
  }

  // ---------------------------------------------------------------------------
  // Coverage
  // ---------------------------------------------------------------------------

  /** The window lies in a text of that length and is not longer than `size`. */
  predicate IsWindow(size: nat, length: nat, w: Window) {
    w.start < w.end <= length && w.end - w.start <= size
  }

  /** The next window starts further on but not at a distance, they overlap by at most `overlap`, and this is long. */
  predicate IsFollowed(size: nat, overlap: nat, w: Window, next: Window) {
    w.start < next.start <= w.end && w.end - next.start <= overlap && w.end - w.start > size / 2
  }

  ghost predicate Chained(size: nat, overlap: nat, length: nat, w: seq<Window>) {
    && (forall i :: 0 <= i < |w| ==> IsWindow(size, length, w[i]))
    && (forall i :: 0 <= i < |w| - 1 ==> IsFollowed(size, overlap, w[i], w[i + 1]))
  }

  lemma ChainedOn(size: nat, overlap: nat, length: nat, first: Window, rest: seq<Window>)
    requires Chained(size, overlap, length, rest) && rest != []
    requires IsWindow(size, length, first) && IsFollowed(size, overlap, first, rest[0])
    ensures Chained(size, overlap, length, [first] + rest)
  {
    var w := [first] + rest;
    forall i | 0 <= i < |w| - 1 ensures IsFollowed(size, overlap, w[i], w[i + 1]) {
      if i > 0 { assert IsFollowed(size, overlap, rest[i - 1], rest[i - 1 + 1]); }
    }
  }

  /** From `start` on, the windows leave no gap, overlap by at most `overlap`, and reach the end of the text. */
  lemma {:induction false} WindowsCover(text: string, size: nat, overlap: nat, start: nat)
    requires overlap < size && start < |text|
    ensures var w := Windows(text, size, overlap, start);
            |w| > 0 && w[0].start == start && w[|w| - 1].end == |text| && Chained(size, overlap, |text|, w)
    decreases |text| - start
  {
    var end := EndOf(text, size, start);
    if end < |text| {
      var next := NextStart(start, end, overlap);
      WindowsCover(text, size, overlap, next);
      ChainedOn(size, overlap, |text|, Window(start, end), Windows(text, size, overlap, next));
    }
  }

  // ---------------------------------------------------------------------------
  // Where windows end
  // ---------------------------------------------------------------------------

  /** A separator in the second half of the window that has its full length. */
  predicate IsCut(text: string, size: nat, start: nat, k: nat)
    requires k < |text|
  {
    start < k && start + size / 2 <= k < start + size && IsSeparator(text[k])
  }

  /**
   The window ends at the end of the text, if that is in reach; or else behind the last separator of its
   second half, if there is one; or else it has its full length.
   */
  ghost predicate EndsRight(text: string, size: nat, w: Window)
    requires w.start < w.end <= |text|
  {
    if w.start + size >= |text| then w.end == |text|
    else if exists k :: 0 <= k < |text| && IsCut(text, size, w.start, k) then
      IsCut(text, size, w.start, w.end - 1) && forall k :: w.end <= k < |text| ==> !IsCut(text, size, w.start, k)
    else w.end == w.start + size
  }

  lemma EndIsRight(text: string, size: nat, start: nat)
    requires start < |text| && 0 < size
    ensures EndsRight(text, size, Window(start, EndOf(text, size, start)))
  {
    if start + size < |text| {
      var boundary := LastSeparator(text, start + size / 2, start + size);
      assert boundary > start ==> IsCut(text, size, start, boundary);
      assert forall k :: 0 <= k < |text| && IsCut(text, size, start, k) ==> k <= boundary;
    }
  }

  /** All windows end where they should, and each starts `overlap` before the end of the one before, or one further. */
  lemma {:induction false} WindowsEndRight(text: string, size: nat, overlap: nat, start: nat, i: nat)
    requires overlap < size && i < |Windows(text, size, overlap, start)|
    ensures var w := Windows(text, size, overlap, start);
            && w[i].start < w[i].end <= |text| && EndsRight(text, size, w[i])
            && (i + 1 < |w| ==>
                  && w[i].end < |text|
                  && (w[i].end - overlap > w[i].start ==> w[i + 1].start == w[i].end - overlap)
                  && (w[i].end - overlap <= w[i].start ==> w[i + 1].start == w[i].start + 1))
    decreases i
  {
    EndIsRight(text, size, start);
    var end := EndOf(text, size, start);
    if end < |text| {
      var rest := Windows(text, size, overlap, NextStart(start, end, overlap));
      assert Windows(text, size, overlap, start) == [Window(start, end)] + rest;
      if i > 0 { WindowsEndRight(text, size, overlap, NextStart(start, end, overlap), i - 1); }
    }
  }

  lemma {:induction false} WindowOf(text: string, size: nat, overlap: nat, start: nat, p: nat) returns (i: nat)
    requires overlap < size && start <= p < |text|
    ensures var w := Windows(text, size, overlap, start); i < |w| && w[i].start <= p < w[i].end
    decreases |text| - start
  {
    var end := EndOf(text, size, start);
    if p < end {
      i := 0;
    } else {
      i := WindowOf(text, size, overlap, NextStart(start, end, overlap), p);
      i := i + 1;
    }
  }

  lemma {:induction false} ChunksExtend(space: char -> bool, text: string, windows: seq<Window>, chunks: seq<string>)
    requires Within(text, windows)
    ensures chunks <= Chunks(space, text, windows, chunks)
    ensures |Chunks(space, text, windows, chunks)| <= |chunks| + |windows|
  {
    if windows != [] {
      ChunksExtend(space, text, windows[1..],
                   WithChunk(chunks, Stripped(space, text, windows[0].start, windows[0].end)));
    }
  }

  /** The stripped texts of the windows. */
  function TextsOf(space: char -> bool, text: string, windows: seq<Window>): seq<string>
    requires Within(text, windows)
  {
    seq(|windows|, i requires 0 <= i < |windows| => Stripped(space, text, windows[i].start, windows[i].end))
  }

  /** `chunks`, and behind it the texts, but for the empty ones and repetitions. */
  function Kept(chunks: seq<string>, texts: seq<string>): seq<string>
    decreases |texts|
  {
    if texts == [] then chunks else Kept(WithChunk(chunks, texts[0]), texts[1..])
  }

  lemma {:induction false} ChunksAreKept(space: char -> bool, text: string, windows: seq<Window>, chunks: seq<string>)
    requires Within(text, windows)
    ensures Chunks(space, text, windows, chunks) == Kept(chunks, TextsOf(space, text, windows))
    decreases |windows|
  {
    if windows != [] {
      assert TextsOf(space, text, windows)[1..] == TextsOf(space, text, windows[1..]);
      ChunksAreKept(space, text, windows[1..], WithChunk(chunks, TextsOf(space, text, windows)[0]));
    }
  }

  lemma {:induction false} KeptExtend(chunks: seq<string>, texts: seq<string>)
    ensures chunks <= Kept(chunks, texts)
    decreases |texts|
  {
    if texts != [] { KeptExtend(WithChunk(chunks, texts[0]), texts[1..]); }
  }

  lemma {:induction false} TextIsKept(chunks: seq<string>, texts: seq<string>, i: nat)
    requires i < |texts| && texts[i] != []
    ensures texts[i] in Kept(chunks, texts)
    decreases |texts|
  {
    var more := WithChunk(chunks, texts[0]);
    if i == 0 {
      assert more[|more| - 1] == texts[0];
      KeptExtend(more, texts[1..]);
    } else {
      TextIsKept(more, texts[1..], i - 1);
    }
  }

  ghost predicate IsPiece(text: string, size: nat, chunk: string) {
    0 < |chunk| <= size && exists lo: nat, hi: nat :: lo <= hi <= |text| && chunk == text[lo..hi]
  }

  /** Pieces of the text, none of which repeats the one before it. */
  ghost predicate Pieces(text: string, size: nat, chunks: seq<string>) {
    && (forall k :: 0 <= k < |chunks| ==> IsPiece(text, size, chunks[k]))
    && (forall k :: 0 < k < |chunks| ==> chunks[k] != chunks[k - 1])
  }

  lemma {:induction false} ChunksArePieces(space: char -> bool, text: string, size: nat, windows: seq<Window>,
                                           chunks: seq<string>)
    requires Within(text, windows) && Pieces(text, size, chunks)
    requires forall i :: 0 <= i < |windows| ==> windows[i].end - windows[i].start <= size
    ensures Pieces(text, size, Chunks(space, text, windows, chunks))
  {
    if windows != [] {
      var w := windows[0];
      var lo := StripLeft(space, text, w.start, w.end);
      assert Stripped(space, text, w.start, w.end) == text[lo..StripRight(space, text, lo, w.end)];
      ChunksArePieces(space, text, size, windows[1..], WithChunk(chunks, Stripped(space, text, w.start, w.end)));
    }
  }

  /**
   Every character of the normalized text that is not white space is in a window, and inside the part
   of it that is among the chunks, whatever was stripped or dropped as a repetition.
   */
  lemma EveryCharacterIsInAChunk(space: char -> bool, text: string, size: nat, overlap: nat, p: nat)
    requires overlap < size && p < |text| && !space(text[p])
    ensures Within(text, Windows(text, size, overlap, 0))
    ensures exists lo: nat, hi: nat :: lo <= p < hi <= |text|
              && text[lo..hi] in Chunks(space, text, Windows(text, size, overlap, 0), [])
  {
    WindowsWithin(text, size, overlap, 0);
    var w := Windows(text, size, overlap, 0);
    var i := WindowOf(text, size, overlap, 0, p);
    var lo := StripLeft(space, text, w[i].start, w[i].end);
    var hi := StripRight(space, text, lo, w[i].end);
    assert lo <= p < hi;
    ChunksAreKept(space, text, w, []);
    TextIsKept([], TextsOf(space, text, w), i);
    assert text[lo..hi] == TextsOf(space, text, w)[i];
  }

  /**
   Every chunk is a non-empty piece of the normalized text, no longer than `size`, and differs from the one before.
   */
  lemma EveryChunkIsAPiece(space: char -> bool, text: string, size: nat, overlap: nat)
    requires overlap < size
    ensures Within(text, Windows(text, size, overlap, 0))
    ensures Pieces(text, size, Chunks(space, text, Windows(text, size, overlap, 0), []))
  {
    WindowsWithin(text, size, overlap, 0);
    if |text| > 0 { WindowsCover(text, size, overlap, 0); }
    ChunksArePieces(space, text, size, Windows(text, size, overlap, 0), []);
  }

  lemma {:induction false} EmptyTextsAreDropped(texts: seq<string>)
    requires forall i :: 0 <= i < |texts| ==> texts[i] == []
    ensures Kept([], texts) == []
  {
    if texts != [] { EmptyTextsAreDropped(texts[1..]); }
  }

  /** A text of white space only has no chunks. */
  lemma SpaceHasNoChunks(space: char -> bool, text: string, size: nat, overlap: nat)
    requires overlap < size && forall i :: 0 <= i < |text| ==> space(text[i])
    ensures Within(text, Windows(text, size, overlap, 0))
    ensures Chunks(space, text, Windows(text, size, overlap, 0), []) == []
  {
    var windows := Windows(text, size, overlap, 0);
    WindowsWithin(text, size, overlap, 0);
    ChunksAreKept(space, text, windows, []);
    forall i | 0 <= i < |windows| ensures TextsOf(space, text, windows)[i] == [] {
      assert StripLeft(space, text, windows[i].start, windows[i].end) == windows[i].end;
    }
    EmptyTextsAreDropped(TextsOf(space, text, windows));
  }

  // ---------------------------------------------------------------------------
  // The order of the chunks
  // ---------------------------------------------------------------------------

  /** Each chunk is the text at its place, and the places increase. */
  ghost predicate Placed(texts: seq<string>, chunks: seq<string>, place: seq<nat>) {
    && |place| == |chunks|
    && (forall k :: 0 <= k < |place| ==> place[k] < |texts| && chunks[k] == texts[place[k]])
    && (forall k, l :: 0 <= k < l < |place| ==> place[k] < place[l])
  }

  /** Of the places, `k` is the last up to `i`. */
  ghost predicate IsLastPlace(place: seq<nat>, k: nat, i: nat) {
    k < |place| && place[k] <= i && forall l :: k < l < |place| ==> i < place[l]
  }

  /** The text is empty, or that of the last chunk up to it. */
  ghost predicate Shown(t: string, i: nat, chunks: seq<string>, place: seq<nat>)
    requires |place| == |chunks|
  {
    t == [] || exists k :: 0 <= k < |chunks| && IsLastPlace(place, k, i) && chunks[k] == t
  }

  /** The places are right, and every text is shown. */
  ghost predicate InOrder(texts: seq<string>, chunks: seq<string>, place: seq<nat>) {
    Placed(texts, chunks, place) && forall i :: 0 <= i < |texts| ==> Shown(texts[i], i, chunks, place)
  }

  lemma {:induction false} KeptLast(chunks: seq<string>, texts: seq<string>, t: string)
    ensures Kept(chunks, texts + [t]) == WithChunk(Kept(chunks, texts), t)
    decreases |texts|
  {
    if texts == [] {
      assert [] + [t] == [t] && [t][1..] == [];
    } else {
      assert (texts + [t])[1..] == texts[1..] + [t];
      KeptLast(WithChunk(chunks, texts[0]), texts[1..], t);
    }
  }

  lemma StillShown(t: string, i: nat, chunks: seq<string>, place: seq<nat>, chunk: string, n: nat)
    requires |place| == |chunks| && Shown(t, i, chunks, place) && i < n
    ensures Shown(t, i, chunks + [chunk], place + [n])
  {
    if t != [] {
      var k :| 0 <= k < |chunks| && IsLastPlace(place, k, i) && chunks[k] == t;
      assert (chunks + [chunk])[k] == t && IsLastPlace(place + [n], k, i);
    }
  }

  lemma NewIsShown(t: string, i: nat, chunks: seq<string>, place: seq<nat>)
    requires |place| == |chunks| > 0 && chunks[|chunks| - 1] == t && place[|place| - 1] <= i
    ensures Shown(t, i, chunks, place)
  {
    assert IsLastPlace(place, |place| - 1, i);
  }

  lemma OneMoreChunk(texts: seq<string>, t: string, chunks: seq<string>, place: seq<nat>)
    requires InOrder(texts, chunks, place)
    ensures InOrder(texts + [t], chunks + [t], place + [|texts|])
  {
    forall i | 0 <= i <= |texts| ensures Shown((texts + [t])[i], i, chunks + [t], place + [|texts|]) {
      if i < |texts| {
        StillShown(texts[i], i, chunks, place, t, |texts|);
      } else {
        NewIsShown(t, i, chunks + [t], place + [|texts|]);
      }
    }
  }

  lemma NoMoreChunk(texts: seq<string>, t: string, chunks: seq<string>, place: seq<nat>)
    requires InOrder(texts, chunks, place) && (t == [] || (chunks != [] && t == chunks[|chunks| - 1]))
    ensures InOrder(texts + [t], chunks, place)
  {
    if t != [] { NewIsShown(t, |texts|, chunks, place); }
  }

  lemma WithChunkInOrder(texts: seq<string>, t: string, chunks: seq<string>, place: seq<nat>) returns (next: seq<nat>)
    requires InOrder(texts, chunks, place)
    ensures InOrder(texts + [t], WithChunk(chunks, t), next)
  {
    if t == [] || (chunks != [] && t == chunks[|chunks| - 1]) {
      NoMoreChunk(texts, t, chunks, place);
      next := place;
    } else {
      OneMoreChunk(texts, t, chunks, place);
      next := place + [|texts|];
    }
  }

  lemma {:induction false} KeptInOrder(texts: seq<string>) returns (place: seq<nat>)
    ensures InOrder(texts, Kept([], texts), place)
  {
    place := [];
    if texts != [] {
      var front, t := texts[..|texts| - 1], texts[|texts| - 1];
      assert texts == front + [t];
      place := KeptInOrder(front);
      KeptLast([], front, t);
      place := WithChunkInOrder(front, t, Kept([], front), place);
    }
  }

  /**
   The chunks are the texts of the windows in their order; the only ones left out are those without text,
   and those that repeat the chunk before.
   */
  lemma ChunksInOrder(space: char -> bool, text: string, size: nat, overlap: nat) returns (place: seq<nat>)
    requires overlap < size
    ensures var windows := Windows(text, size, overlap, 0);
            && Within(text, windows)
            && InOrder(TextsOf(space, text, windows), Chunks(space, text, windows, []), place)
  {
    var windows := Windows(text, size, overlap, 0);
    WindowsWithin(text, size, overlap, 0);
    ChunksAreKept(space, text, windows, []);
    place := KeptInOrder(TextsOf(space, text, windows));
  }

  // ---------------------------------------------------------------------------
  // The number of chunks
  // ---------------------------------------------------------------------------

  lemma {:induction false} StartsAdvance(w: seq<Window>, stride: nat, i: nat)
    requires i < |w| && forall j :: 0 <= j < |w| - 1 ==> w[j].start + stride <= w[j + 1].start
    ensures i * stride <= w[i].start
  {
    if i > 0 {
      StartsAdvance(w, stride, i - 1);
      assert i * stride == (i - 1) * stride + stride;
    }
  }

  lemma WindowCountIsLinear(text: string, size: nat, overlap: nat, stride: nat, windows: seq<Window>, n: nat)
    requires overlap < size && stride == size / 2 + 1 - overlap && |text| >= 1
    requires windows == Windows(text, size, overlap, 0) && n < |windows|
    ensures n * stride <= |text| - 1
  {
    WindowsCover(text, size, overlap, 0);
    forall j | 0 <= j < |windows| - 1 ensures windows[j].start + stride <= windows[j + 1].start {
      assert IsFollowed(size, overlap, windows[j], windows[j + 1]);
    }
    StartsAdvance(windows, stride, n);
  }

  /** When windows overlap by at most half their size, the number of chunks is linear in the text. */
  lemma ChunkCountIsLinear(space: char -> bool, text: string, size: nat, overlap: nat, stride: nat,
                           windows: seq<Window>)
    requires overlap < size && stride == size / 2 + 1 - overlap && |text| >= 1
    requires windows == Windows(text, size, overlap, 0) && Within(text, windows)
    ensures (|windows| - 1) * stride <= |text| - 1
    ensures |Chunks(space, text, windows, [])| <= |windows|
  {
    WindowsCover(text, size, overlap, 0);
    WindowCountIsLinear(text, size, overlap, stride, windows, |windows| - 1);
    ChunksExtend(space, text, windows, []);
  }

  // ---------------------------------------------------------------------------
  // The normalized text
  // ---------------------------------------------------------------------------

  /** No carriage return, no tab, no two blanks and no three newlines in a row. */
  ghost predicate Clean(s: string) {
    && (forall i :: 0 <= i < |s| ==> s[i] != '\r' && s[i] != '\t')
    && (forall i :: 0 <= i < |s| - 1 ==> s[i] != ' ' || s[i + 1] != ' ')
    && (forall i :: 0 <= i < |s| - 2 ==> s[i] != '\n' || s[i + 1] != '\n' || s[i + 2] != '\n')
  }

  ghost predicate Without(s: string, c: char) {
    forall i :: 0 <= i < |s| ==> s[i] != c
  }

  lemma {:induction false} UnifiedHasNoReturn(s: string)
    ensures Without(UnifiedNewlines(s), '\r')
    decreases |s|
  {
    if s != [] {
      if s[0] == '\r' && |s| > 1 && s[1] == '\n' { UnifiedHasNoReturn(s[2..]); } else { UnifiedHasNoReturn(s[1..]); }
    }
  }

  lemma {:induction false} CollapsedHasNoBlankPairs(s: string)
    requires Without(s, '\r')
    ensures var r := CollapsedBlanks(s);
            && Without(r, '\r') && Without(r, '\t')
            && (forall i :: 0 <= i < |r| - 1 ==> r[i] != ' ' || r[i + 1] != ' ')
            && (s == [] ==> r == []) && (s != [] && !IsBlank(s[0]) ==> r != [] && r[0] == s[0])
  {
    if s != [] { CollapsedHasNoBlankPairs(s[1..]); }
  }

  lemma {:induction false} CappedNewlines(s: string, run: nat)
    requires run <= 2 && Without(s, '\r') && Without(s, '\t')
    requires forall i :: 0 <= i < |s| - 1 ==> s[i] != ' ' || s[i + 1] != ' '
    ensures var r := CollapsedNewlines(s, run);
            && Clean(r)
            && (run == 2 && r != [] ==> r[0] != '\n')
            && (run == 1 && |r| >= 2 ==> r[0] != '\n' || r[1] != '\n')
            && (r != [] && r[0] == ' ' ==> s != [] && (s[0] == ' ' || (s[0] == '\n' && run == 2)))
    decreases |s|
  {
    if s != [] {
      CappedNewlines(s[1..], if s[0] != '\n' then 0 else if run < 2 then run + 1 else run);
    }
  }

  // ---------------------------------------------------------------------------
  // ... has the words of the text
  // ---------------------------------------------------------------------------

  /** The characters that normalization touches are white space. */
  ghost predicate IsUsual(space: char -> bool) {
    space(' ') && space('\t') && space('\n') && space('\r')
  }

  lemma {:induction false} UnifiedHasTheWords(space: char -> bool, s: string, word: string)
    requires IsUsual(space)
    ensures Words(space, UnifiedNewlines(s), word) == Words(space, s, word)
    decreases |s|
  {
    if s != [] {
      var rest := if s[0] == '\r' && |s| > 1 && s[1] == '\n' then s[2..] else s[1..];
      assert UnifiedNewlines(s)[1..] == UnifiedNewlines(rest);
      if space(s[0]) {
        UnifiedHasTheWords(space, rest, "");
        assert |rest| < |s| - 1 ==> s[1..][1..] == rest && Words(space, s[1..], "") == [] + Words(space, rest, "");
      } else {
        UnifiedHasTheWords(space, rest, word + [s[0]]);
      }
    }
  }

  lemma {:induction false} CollapsedHasTheWords(space: char -> bool, s: string, word: string)
    requires IsUsual(space)
    ensures Words(space, CollapsedBlanks(s), word) == Words(space, s, word)
    decreases |s|
  {
    if s != [] && IsBlank(s[0]) && |s| > 1 && IsBlank(s[1]) {
      CollapsedHasTheWords(space, s[1..], word);
      assert Words(space, s[1..], "") == [] + Words(space, s[1..][1..], "");
    } else if s != [] {
      assert CollapsedBlanks(s)[1..] == CollapsedBlanks(s[1..]);
      CollapsedHasTheWords(space, s[1..], if space(s[0]) then "" else word + [s[0]]);
    }
  }

  lemma {:induction false} CappedHasTheWords(space: char -> bool, s: string, run: nat, word: string)
    requires IsUsual(space) && (run > 0 ==> word == "")
    ensures Words(space, CollapsedNewlines(s, run), word) == Words(space, s, word)
    decreases |s|
  {
    if s != [] {
      if s[0] != '\n' {
        assert CollapsedNewlines(s, run)[1..] == CollapsedNewlines(s[1..], 0);
        CappedHasTheWords(space, s[1..], 0, if space(s[0]) then "" else word + [s[0]]);
      } else if run < 2 {
        assert CollapsedNewlines(s, run)[1..] == CollapsedNewlines(s[1..], run + 1);
        CappedHasTheWords(space, s[1..], run + 1, "");
      } else {
        CappedHasTheWords(space, s[1..], run, "");
        assert [] + Words(space, s[1..], "") == Words(space, s[1..], "");
      }
    }
  }

  lemma BetweenHasTheWords(space: char -> bool, s: string, lo: nat, hi: nat)
    requires lo <= hi <= |s| && (forall k :: 0 <= k < lo ==> space(s[k])) && forall k :: hi <= k < |s| ==> space(s[k])
    ensures Words(space, s[lo..hi], "") == Words(space, s, "")
  {
    ThreeParts(s, lo, hi);
    TrimmedHasTheWords(space, s, s[..lo], s[lo..hi], s[hi..]);
  }

  lemma StrippedHasTheWords(space: char -> bool, s: string)
    ensures Words(space, Stripped(space, s, 0, |s|), "") == Words(space, s, "")
  {
    var lo := StripLeft(space, s, 0, |s|);
    var hi := StripRight(space, s, lo, |s|);
    BetweenHasTheWords(space, s, lo, hi);
  }

  /** Normalization takes no word away, joins none and breaks none: the words stay as they are. */
  lemma NormalizedHasTheWords(space: char -> bool, text: string)
    requires IsUsual(space)
    ensures Words(space, Normalized(space, text), "") == Words(space, text, "")
  {
    var unified := UnifiedNewlines(text);
    var collapsed := CollapsedBlanks(unified);
    UnifiedHasTheWords(space, text, "");
    CollapsedHasTheWords(space, unified, "");
    CappedHasTheWords(space, collapsed, 0, "");
    StrippedHasTheWords(space, CollapsedNewlines(collapsed, 0));
  }

  lemma NormalizedIsClean(space: char -> bool, text: string)
    ensures var s := Normalized(space, text);
            Clean(s) && (s != [] ==> !space(s[0]) && !space(s[|s| - 1]))
  {
    UnifiedHasNoReturn(text);
    CollapsedHasNoBlankPairs(UnifiedNewlines(text));
    CappedNewlines(CollapsedBlanks(UnifiedNewlines(text)), 0);
  }
}
