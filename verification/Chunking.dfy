/**
  Splitting a document into overlapping chunks for embedding.
 */
module Chunking {
  import opened Prelude

  // ------------------------------------------------------------ normalizing

  /** How many characters a left strip removes. */
  function LeftTrim(s: string): (n: nat)
    ensures n <= |s| && (forall i :: 0 <= i < n ==> Space(s[i])) && (n < |s| ==> !Space(s[n]))
  {
    if s == "" || !Space(s[0]) then 0 else 1 + LeftTrim(s[1..])
  }

  /** How many characters a right strip leaves. */
  function RightTrimmed(s: string): (n: nat)
    ensures n <= |s| && (forall i :: n <= i < |s| ==> Space(s[i])) && (n > 0 ==> !Space(s[n - 1]))
  {
    if s == "" || !Space(s[|s| - 1]) then |s| else RightTrimmed(s[..|s| - 1])
  }

  function Strip(s: string): string
  {
    if LeftTrim(s) >= RightTrimmed(s) then "" else s[LeftTrim(s)..RightTrimmed(s)]
  }

  /** The document with one kind of newline and no outer white space; None when nothing is left. */
  function Normalize(text: string): Option<string>
  {
    var s := Strip(CrToLf(CrLfToLf(text)));
    if s == "" then None else Some(s)
  }

  predicate Stripped(s: string)
  {
    s != "" && !Space(s[0]) && !Space(s[|s| - 1])
  }

  /**
    A character that is not white space lies between the two trims; so nothing is left exactly when
    all is white space.
   */
  lemma InsideTrims(s: string, i: nat)
    requires i < |s| && !Space(s[i])
    ensures LeftTrim(s) <= i < RightTrimmed(s)
  {
    hide Space;
  }

  lemma StripShape(s: string)
    ensures Strip(s) == "" <==> forall i :: 0 <= i < |s| ==> Space(s[i])
    ensures Strip(s) != "" ==> Stripped(Strip(s)) && LeftTrim(s) < RightTrimmed(s)
  {
    hide Space, LeftTrim, RightTrimmed, Stripped;
    var (a, b) := (LeftTrim(s), RightTrimmed(s));
    forall i | 0 <= i < |s| && !Space(s[i]) ensures a <= i < b
    {
      InsideTrims(s, i);
    }
    if a < b {
      EndsStay(s, a, b);
      assert !Space(s[a]);
    }
  }

  lemma EndsStay(s: string, a: nat, b: nat)
    requires a < b <= |s| && !Space(s[a]) && !Space(s[b - 1])
    ensures Stripped(s[a..b]) && s[a..b] != ""
  {
    hide Space;
    assert s[a..b][0] == s[a] && s[a..b][b - a - 1] == s[b - 1];
  }

  lemma {:induction false} WithoutReturns(s: string)
    requires '\r' !in s
    ensures CrLfToLf(s) == s && CrToLf(s) == s
  {
    if s != "" {
      WithoutReturns(s[1..]);
      assert s == [s[0]] + s[1..];
    }
  }

  lemma StripOfStripped(s: string)
    requires Stripped(s)
    ensures Strip(s) == s
  {
    assert LeftTrim(s) == 0 && RightTrimmed(s) == |s|;
  }

  /**
    A normalized document has no carriage return and no outer white space, and normalizing it again
    changes nothing.
   */
  lemma NormalizeIsIdempotent(text: string)
    requires Normalize(text).Some?
    ensures var doc := Normalize(text).value; '\r' !in doc && Stripped(doc) && Normalize(doc) == Some(doc)
  {
    var lf := CrToLf(CrLfToLf(text));
    var doc := Normalize(text).value;
    StripShape(lf);
    assert forall c :: c in doc ==> c in lf;
    WithoutReturns(doc);
    StripOfStripped(doc);
  }

  // ---------------------------------------------------------------- windows

  /** Last index of `c` in `doc[lo..hi]`, or -1. */
  function RFind(doc: string, c: char, lo: nat, hi: nat): (r: int)
    requires hi <= |doc|
    ensures r == -1 || (lo <= r < hi && doc[r] == c)
    ensures forall i :: lo <= i < hi && doc[i] == c ==> i <= r
    decreases hi
  {
    if hi <= lo then -1 else if doc[hi - 1] == c then hi - 1 else RFind(doc, c, lo, hi - 1)
  }

  predicate SettingsOk(maxChars: int, overlap: int)
  {
    200 <= maxChars <= 4000 && 0 <= overlap < maxChars
  }

  predicate Break(c: char) { c == '\n' || c == ' ' }

  function HardEnd(doc: string, maxChars: nat, start: nat): nat { Min(|doc|, start + maxChars) }

  /** Where a window ends: after `maxChars` characters, or at the last break of its second half. */
  function WindowEnd(doc: string, maxChars: nat, start: nat): (end: nat)
    requires start < |doc| && 200 <= maxChars
    ensures start < end <= HardEnd(doc, maxChars, start)
    ensures end < |doc| ==> start + maxChars / 2 <= end
    ensures end < HardEnd(doc, maxChars, start) ==> Break(doc[end])
    ensures end < |doc| ==>
      forall i :: start + maxChars / 2 <= i < HardEnd(doc, maxChars, start) && Break(doc[i]) ==>
        end < HardEnd(doc, maxChars, start) && i <= end
  {
    var hard := HardEnd(doc, maxChars, start);
    if hard < |doc| then
      var floor := start + maxChars / 2;
      var gap := Max(RFind(doc, '\n', floor, hard), RFind(doc, ' ', floor, hard));
      if gap > start then gap else hard
    else hard
  }

  /** Where the next window starts: `overlap` characters back, unless that is no progress. */
  function NextStart(start: nat, end: nat, overlap: nat): (next: nat)
    requires start < end
    ensures start < next <= end
  {
    if end - overlap <= start then end else end - overlap
  }

  datatype Window = Window(start: nat, end: nat)

  /** The windows from `start` on. */
  function Windows(doc: string, maxChars: nat, overlap: nat, start: nat): (ws: seq<Window>)
    requires 200 <= maxChars
    decreases |doc| - start
  {
    if start >= |doc| then []
    else
      var end := WindowEnd(doc, maxChars, start);
      [Window(start, end)]
      + if end >= |doc| then [] else Windows(doc, maxChars, overlap, NextStart(start, end, overlap))
  }

  // ----------------------------------------------------------------- chunks

  datatype Chunk = Chunk(index: nat, startOffset: nat, endOffset: nat, content: string)

  predicate InDocument(doc: string, ws: seq<Window>)
  {
    forall i :: 0 <= i < |ws| ==> ws[i].start < ws[i].end <= |doc|
  }

  /** The chunks with that of one window more, unless it is blank. */
  function WithChunk(doc: string, before: seq<Chunk>, w: Window): seq<Chunk>
    requires w.start < w.end <= |doc|
  {
    var text := doc[w.start..w.end];
    if Strip(text) == "" then before
    else before + [Chunk(|before|, w.start + LeftTrim(text), w.start + RightTrimmed(text), Strip(text))]
  }

  /** The chunks of some windows: the stripped content of each, skipping empty ones. */
  function ChunksOf(doc: string, ws: seq<Window>): seq<Chunk>
    requires InDocument(doc, ws)
  {
    if ws == [] then [] else WithChunk(doc, ChunksOf(doc, ws[..|ws| - 1]), ws[|ws| - 1])
  }

  datatype Chunked = Chunks(chunks: seq<Chunk>) | BadSettings | EmptyDocument | NoChunks

  /** Consecutive windows meet or overlap, start later and never end earlier. */
  ghost predicate Advances(a: Window, b: Window)
  {
    a.start < b.start <= a.end <= b.end
  }

  lemma WindowAdvances(doc: string, maxChars: nat, overlap: nat, start: nat)
    requires start < |doc| && SettingsOk(maxChars, overlap)
    requires WindowEnd(doc, maxChars, start) < |doc|
    ensures var end := WindowEnd(doc, maxChars, start);
            var next := NextStart(start, end, overlap);
      && start < next <= end <= WindowEnd(doc, maxChars, next)
      && (overlap < maxChars / 2 ==> end < WindowEnd(doc, maxChars, next) && next >= start + maxChars / 2 - overlap)
      && (end == WindowEnd(doc, maxChars, next) ==> NextStart(next, end, overlap) == end)
  {
    var end := WindowEnd(doc, maxChars, start);
    var next := NextStart(start, end, overlap);
    var hard := HardEnd(doc, maxChars, next);
    var second := WindowEnd(doc, maxChars, next);
    assert hard > end;
    assert second < hard ==> Break(doc[second]);
    assert forall i :: start + maxChars / 2 <= i < end && Break(doc[i]) ==> Break(doc[end]) && end < HardEnd(doc, maxChars, start);
  }

  /**
    For every legal setting, window starts strictly increase, ends never decrease, and no position is
    left between two windows.
   */
  lemma {:induction false} WindowsAdvance(doc: string, maxChars: nat, overlap: nat, start: nat, i: nat)
    requires start < |doc| && SettingsOk(maxChars, overlap)
    requires i + 1 < |Windows(doc, maxChars, overlap, start)|
    ensures var ws := Windows(doc, maxChars, overlap, start);
      && Advances(ws[i], ws[i + 1])
      && (overlap < maxChars / 2 ==> ws[i].end < ws[i + 1].end && ws[i + 1].start >= ws[i].start + maxChars / 2 - overlap)
    decreases i
  {
    WindowAdvances(doc, maxChars, overlap, start);
    if i > 0 {
      WindowsAdvance(doc, maxChars, overlap, NextStart(start, WindowEnd(doc, maxChars, start), overlap), i - 1);
    }
  }

  /** An end repeats at most once: two windows after any other, the end has moved. */
  lemma {:induction false} EndsMoveOn(doc: string, maxChars: nat, overlap: nat, start: nat, i: nat)
    requires start < |doc| && SettingsOk(maxChars, overlap)
    requires i + 2 < |Windows(doc, maxChars, overlap, start)|
    ensures var ws := Windows(doc, maxChars, overlap, start); ws[i].end < ws[i + 2].end
    decreases i
  {
    var ws := Windows(doc, maxChars, overlap, start);
    WindowAdvances(doc, maxChars, overlap, start);
    var next := NextStart(start, WindowEnd(doc, maxChars, start), overlap);
    if i > 0 {
      EndsMoveOn(doc, maxChars, overlap, next, i - 1);
    } else {
      WindowAdvances(doc, maxChars, overlap, next);
      WindowsAdvance(doc, maxChars, overlap, start, 1);
    }
  }

  /**
    The windows from a start: at least one, the first starting there, the last ending the document,
    each within the size limit.
   */
  lemma {:induction false} WindowsShape(doc: string, maxChars: nat, overlap: nat, start: nat)
    requires start < |doc| && SettingsOk(maxChars, overlap)
    ensures var ws := Windows(doc, maxChars, overlap, start);
      && ws != [] && ws[0].start == start && ws[|ws| - 1].end == |doc|
      && InDocument(doc, ws)
      && (forall i :: 0 <= i < |ws| ==> ws[i].end - ws[i].start <= maxChars)
    decreases |doc| - start
  {
    hide WindowEnd, NextStart, Break, Windows;
    var end := WindowEnd(doc, maxChars, start);
    WindowsUnfold(doc, maxChars, overlap, start);
    if end < |doc| {
      WindowsShape(doc, maxChars, overlap, NextStart(start, end, overlap));
    }
  }

  /**
    With less than half a window of overlap, each window moves on by at least the difference, which
    bounds their number.
   */
  lemma {:induction false} FewWindows(doc: string, maxChars: nat, overlap: nat, i: nat)
    requires doc != "" && SettingsOk(maxChars, overlap) && overlap < maxChars / 2
    requires i < |Windows(doc, maxChars, overlap, 0)|
    ensures (maxChars / 2 - overlap) * i <= Windows(doc, maxChars, overlap, 0)[i].start < |doc|
  {
    hide Windows, WindowEnd;
    WindowsShape(doc, maxChars, overlap, 0);
    if i > 0 {
      FewWindows(doc, maxChars, overlap, i - 1);
      WindowsAdvance(doc, maxChars, overlap, 0, i - 1);
      assert (maxChars / 2 - overlap) * i == (maxChars / 2 - overlap) * (i - 1) + (maxChars / 2 - overlap);
    }
  }

  /** Every position lies in a window. */
  lemma {:induction false} WindowsCover(doc: string, maxChars: nat, overlap: nat, start: nat, p: nat) returns (i: nat)
    requires start <= p < |doc| && SettingsOk(maxChars, overlap)
    ensures var ws := Windows(doc, maxChars, overlap, start); i < |ws| && ws[i].start <= p < ws[i].end
    decreases |doc| - start
  {
    var end := WindowEnd(doc, maxChars, start);
    if p < end {
      i := 0;
    } else {
      var next := NextStart(start, end, overlap);
      var k := WindowsCover(doc, maxChars, overlap, next, p);
      i := k + 1;
    }
  }

  /** What a chunk promises about the document it came from. */
  ghost predicate ChunkOk(doc: string, maxChars: nat, c: Chunk)
  {
    && c.startOffset < c.endOffset <= |doc|
    && c.content == doc[c.startOffset..c.endOffset]
    && |c.content| <= maxChars
    && Stripped(c.content)
  }

  lemma {:induction false} ChunksAreFaithful(doc: string, maxChars: nat, ws: seq<Window>, k: nat)
    requires InDocument(doc, ws)
    requires forall i :: 0 <= i < |ws| ==> ws[i].end - ws[i].start <= maxChars
    requires k < |ChunksOf(doc, ws)|
    ensures ChunksOf(doc, ws)[k].index == k && ChunkOk(doc, maxChars, ChunksOf(doc, ws)[k])
  {
    hide ChunkOk, Strip, LeftTrim, RightTrimmed;
    assert InDocument(doc, ws[..|ws| - 1]);
    var before := ChunksOf(doc, ws[..|ws| - 1]);
    if k < |before| {
      ChunksAreFaithful(doc, maxChars, ws[..|ws| - 1], k);
    } else {
      var w := ws[|ws| - 1];
      StrippedWindow(doc, maxChars, w, k);
    }
  }

  lemma StrippedWindow(doc: string, maxChars: nat, w: Window, k: nat)
    requires w.start < w.end <= |doc| && w.end - w.start <= maxChars
    requires Strip(doc[w.start..w.end]) != ""
    ensures var text := doc[w.start..w.end];
      ChunkOk(doc, maxChars, Chunk(k, w.start + LeftTrim(text), w.start + RightTrimmed(text), Strip(text)))
  {
    hide Space, LeftTrim, RightTrimmed, Stripped, Strip;
    var text := doc[w.start..w.end];
    StripShape(text);
    StripIsSlice(text);
    var (a, b) := (LeftTrim(text), RightTrimmed(text));
    SliceOfSlice(doc, w.start, w.end, a, b);
  }

  lemma StripIsSlice(s: string)
    requires Strip(s) != ""
    ensures LeftTrim(s) < RightTrimmed(s) && Strip(s) == s[LeftTrim(s)..RightTrimmed(s)]
  {
    hide LeftTrim, RightTrimmed;
  }

  lemma SliceOfSlice(s: string, lo: nat, hi: nat, a: nat, b: nat)
    requires lo <= hi <= |s| && a <= b <= hi - lo
    ensures s[lo..hi][a..b] == s[lo + a..lo + b]
  {
    forall i | 0 <= i < b - a ensures s[lo..hi][a..b][i] == s[lo + a..lo + b][i] {}
  }

  lemma {:induction false} ChunksCover(doc: string, ws: seq<Window>, i: nat, p: nat) returns (k: nat)
    requires InDocument(doc, ws)
    requires i < |ws| && ws[i].start <= p < ws[i].end && !Space(doc[p])
    ensures k < |ChunksOf(doc, ws)| && ChunksOf(doc, ws)[k].startOffset <= p < ChunksOf(doc, ws)[k].endOffset
  {
    if i < |ws| - 1 {
      k := ChunksCover(doc, ws[..|ws| - 1], i, p);
    } else {
      var text := doc[ws[i].start..ws[i].end];
      assert text[p - ws[i].start] == doc[p];
      InsideTrims(text, p - ws[i].start);
      k := |ChunksOf(doc, ws[..|ws| - 1])|;
    }
  }

  lemma {:induction false} NoMoreChunksThanWindows(doc: string, ws: seq<Window>)
    requires InDocument(doc, ws)
    ensures |ChunksOf(doc, ws)| <= |ws|
  {
    if ws != [] {
      NoMoreChunksThanWindows(doc, ws[..|ws| - 1]);
    }
  }

  /**
    The chunks of a document: faithful, small enough, stripped, numbered from zero, and together
    holding every character that is not white space.
   */
  ghost predicate GoodChunks(doc: string, maxChars: nat, overlap: nat, chunks: seq<Chunk>)
  {
    && chunks != []
    && (forall k :: 0 <= k < |chunks| ==> chunks[k].index == k && ChunkOk(doc, maxChars, chunks[k]))
    && (forall p :: 0 <= p < |doc| && !Space(doc[p]) ==> Covered(chunks, p))
    && (overlap < maxChars / 2 ==> (maxChars / 2 - overlap) * (|chunks| - 1) < |doc|)
  }

  ghost predicate Covered(chunks: seq<Chunk>, p: nat)
  {
    exists k :: 0 <= k < |chunks| && chunks[k].startOffset <= p < chunks[k].endOffset
  }

  lemma CoveredBy(chunks: seq<Chunk>, k: nat, p: nat)
    requires k < |chunks| && chunks[k].startOffset <= p < chunks[k].endOffset
    ensures Covered(chunks, p)
  {
  }

  lemma NotEmpty(chunks: seq<Chunk>, p: nat)
    requires Covered(chunks, p)
    ensures chunks != []
  {
  }

  lemma ChunksAreGood(doc: string, maxChars: nat, overlap: nat)
    requires Stripped(doc) && SettingsOk(maxChars, overlap)
    ensures var ws := Windows(doc, maxChars, overlap, 0);
      InDocument(doc, ws) && GoodChunks(doc, maxChars, overlap, ChunksOf(doc, ws))
  {
    hide Space, ChunkOk, Covered, ChunksOf, Windows, Strip;
    var ws := Windows(doc, maxChars, overlap, 0);
    WindowsShape(doc, maxChars, overlap, 0);
    var chunks := ChunksOf(doc, ws);
    forall p | 0 <= p < |doc| && !Space(doc[p]) ensures Covered(chunks, p)
    {
      var i := WindowsCover(doc, maxChars, overlap, 0, p);
      var k := ChunksCover(doc, ws, i, p);
      CoveredBy(chunks, k, p);
    }
    NotEmpty(chunks, 0);
    forall k | 0 <= k < |chunks| ensures chunks[k].index == k && ChunkOk(doc, maxChars, chunks[k])
    {
      ChunksAreFaithful(doc, maxChars, ws, k);
    }
    if overlap < maxChars / 2 {
      NoMoreChunksThanWindows(doc, ws);
      FewWindows(doc, maxChars, overlap, |ws| - 1);
      var d := maxChars / 2 - overlap;
      assert d * (|chunks| - 1) <= d * (|ws| - 1);
    }
  }

  ghost predicate IsChunking(doc: string, maxChars: nat, overlap: nat, chunks: seq<Chunk>)
    requires 200 <= maxChars
  {
    var ws := Windows(doc, maxChars, overlap, 0);
    InDocument(doc, ws) && chunks == ChunksOf(doc, ws)
  }

  /** One window more: the step the loop takes. */
  lemma AddWindow(doc: string, done: seq<Window>, w: Window)
    requires InDocument(doc, done) && w.start < w.end <= |doc|
    ensures InDocument(doc, done + [w])
    ensures ChunksOf(doc, done + [w]) == WithChunk(doc, ChunksOf(doc, done), w)
  {
    InDocumentToo(doc, done, w);
    hide InDocument, WithChunk;
    var all := done + [w];
    assert all[..|all| - 1] == done && all[|all| - 1] == w;
  }

  lemma InDocumentToo(doc: string, done: seq<Window>, w: Window)
    requires InDocument(doc, done) && w.start < w.end <= |doc|
    ensures InDocument(doc, done + [w])
  {
  }

  lemma NoWindows(doc: string)
    ensures InDocument(doc, []) && ChunksOf(doc, []) == []
  {
  }

  lemma WindowsUnfold(doc: string, maxChars: nat, overlap: nat, start: nat)
    requires start < |doc| && SettingsOk(maxChars, overlap)
    ensures var end := WindowEnd(doc, maxChars, start);
      Windows(doc, maxChars, overlap, start)
        == [Window(start, end)] + (if end >= |doc| then [] else Windows(doc, maxChars, overlap, NextStart(start, end, overlap)))
  {
  }

  method FindEnd(doc: string, maxChars: nat, start: nat) returns (end: nat)
    requires start < |doc| && 200 <= maxChars
    ensures end == WindowEnd(doc, maxChars, start)
  {
    var hardEnd := Min(|doc|, start + maxChars);
    end := hardEnd;
    if hardEnd < |doc| {
      var splitFloor := start + maxChars / 2;
      var whitespace := Max(RFind(doc, '\n', splitFloor, hardEnd), RFind(doc, ' ', splitFloor, hardEnd));
      if whitespace > start { end := whitespace; }
    }
  }

  /** The splitter's loop. */
  method Cut(doc: string, maxChars: nat, overlap: nat) returns (chunks: seq<Chunk>)
    requires doc != "" && SettingsOk(maxChars, overlap)
    ensures IsChunking(doc, maxChars, overlap, chunks)
  {
    hide Space, Strip, LeftTrim, RightTrimmed, Windows, ChunksOf, InDocument, WindowEnd;
    ghost var all := Windows(doc, maxChars, overlap, 0);
    ghost var done: seq<Window> := [];
    chunks := [];
    NoWindows(doc);
    var start := 0;
    while start < |doc|
      invariant 0 <= start < |doc|
      invariant all == done + Windows(doc, maxChars, overlap, start)
      invariant InDocument(doc, done) && chunks == ChunksOf(doc, done)
      decreases |doc| - start
    {
      var end := FindEnd(doc, maxChars, start);
      WindowsUnfold(doc, maxChars, overlap, start);
      AddWindow(doc, done, Window(start, end));
      var content := Strip(doc[start..end]);
      if content != "" {
        var window := doc[start..end];
        chunks := chunks + [Chunk(|chunks|, start + LeftTrim(window), start + RightTrimmed(window), content)];
      }
      ghost var rest := if end >= |doc| then [] else Windows(doc, maxChars, overlap, NextStart(start, end, overlap));
      assert all == (done + [Window(start, end)]) + rest;
      done := done + [Window(start, end)];
      if end >= |doc| {
        assert all == done;
        break;
      }
      var nextStart := end - overlap;
      if nextStart <= start { nextStart := end; }
      start := nextStart;
    }
  }

  /** The whole function. Its last error cannot happen. */
  method ChunkText(text: string, maxChars: int, overlap: int) returns (r: Chunked)
    ensures if !SettingsOk(maxChars, overlap) then r == BadSettings
            else if Normalize(text).None? then r == EmptyDocument
            else r.Chunks? && IsChunking(Normalize(text).value, maxChars, overlap, r.chunks)
    ensures r.Chunks? ==> Normalize(text).Some? && GoodChunks(Normalize(text).value, maxChars, overlap, r.chunks)
  {
    hide Normalize, Space, ChunkOk, ChunksOf, Windows;
    if !(200 <= maxChars <= 4000) { return BadSettings; }
    if !(0 <= overlap < maxChars) { return BadSettings; }
    var normalized := Normalize(text);
    if normalized.None? { return EmptyDocument; }
    NormalizeIsIdempotent(text);
    ChunksAreGood(normalized.value, maxChars, overlap);
    var chunks := Cut(normalized.value, maxChars, overlap);
    if chunks == [] { return NoChunks; }
    r := Chunks(chunks);
  }

  /**
    The pipeline embeds the chunks of the raw text and the repository stores those of the normalized
    one; they are the same chunks.
   */
  lemma EmbeddedChunksAreStoredChunks(text: string, maxChars: nat, overlap: nat, embedded: seq<Chunk>, stored: seq<Chunk>)
    requires SettingsOk(maxChars, overlap) && Normalize(text).Some?
    requires IsChunking(Normalize(text).value, maxChars, overlap, embedded)
    requires Normalize(Normalize(text).value).Some? ==>
               IsChunking(Normalize(Normalize(text).value).value, maxChars, overlap, stored)
    ensures stored == embedded
  {
    hide IsChunking, Normalize;
    NormalizeIsIdempotent(text);
    OneChunking(Normalize(text).value, maxChars, overlap, embedded, stored);
  }

  lemma OneChunking(doc: string, maxChars: nat, overlap: nat, a: seq<Chunk>, b: seq<Chunk>)
    requires 200 <= maxChars && IsChunking(doc, maxChars, overlap, a) && IsChunking(doc, maxChars, overlap, b)
    ensures a == b
  {
  }
}
