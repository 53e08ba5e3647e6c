/** The chunked pass of `AudioProcessor.enhance_audio` (backend/utils/audio_processor.py):
    which windows of the signal are enhanced one at a time, and how the enhanced pieces are
    stitched back together by `_merge_chunks`. Samples are reals; float32 rounding is not
    modelled. */
module Chunking {

  /** The half-open sample range `audio[start:end]` of one chunk. */
  datatype Window = Window(start: nat, end: nat)

  function Min(a: int, b: int): int { if a <= b then a else b }

  /** `min(self.chunk_overlap_samples, self.max_chunk_samples // 4)`. */
  function ChunkOverlap(overlapSamples: nat, maxChunk: nat): (overlap: nat)
    ensures overlap <= overlapSamples && overlap * 4 <= maxChunk
    ensures maxChunk > 0 ==> overlap < maxChunk
  {
    Min(overlapSamples, maxChunk / 4)
  }

  /** Line 162: chunking is used only when a chunk size is set and the signal is longer. */
  predicate UsesChunks(maxChunk: nat, total: nat) {
    maxChunk != 0 && total > maxChunk
  }

  /** The windows the `while start < total_len` loop visits from `start` on. */
  function WindowsFrom(start: nat, total: nat, maxChunk: nat, overlap: nat): seq<Window>
    requires 0 < maxChunk && overlap < maxChunk
    decreases total - start
  {
    if start >= total then []
    else
      var end := Min(start + maxChunk, total);
      if end >= total then [Window(start, end)]
      else [Window(start, end)] + WindowsFrom(if overlap > 0 then end - overlap else end,
                                              total, maxChunk, overlap)
  }

  function Windows(total: nat, maxChunk: nat, overlap: nat): seq<Window>
    requires 0 < maxChunk && overlap < maxChunk
  {
    WindowsFrom(0, total, maxChunk, overlap)
  }

  /** Every window is a non-empty range of `[lo, total)`, no longer than a chunk. */
  predicate InBounds(ws: seq<Window>, lo: nat, total: nat, maxChunk: nat) {
    forall i :: 0 <= i < |ws| ==>
      lo <= ws[i].start < ws[i].end <= total && ws[i].end - ws[i].start <= maxChunk
  }

  lemma {:induction false} WindowsInBounds(start: nat, total: nat, maxChunk: nat, overlap: nat)
    requires 0 < maxChunk && overlap < maxChunk
    ensures InBounds(WindowsFrom(start, total, maxChunk, overlap), start, total, maxChunk)
    decreases total - start
  {
    if start < total {
      var ws := WindowsFrom(start, total, maxChunk, overlap);
      var end := Min(start + maxChunk, total);
      if end < total {
        var next: nat := if overlap > 0 then end - overlap else end;
        WindowsInBounds(next, total, maxChunk, overlap);
        var rest := WindowsFrom(next, total, maxChunk, overlap);
        assert ws == [Window(start, end)] + rest;
        forall i | 0 < i < |ws|
          ensures start <= ws[i].start < ws[i].end <= total && ws[i].end - ws[i].start <= maxChunk
        {
          assert ws[i] == rest[i - 1];
        }
      }
    }
  }

  /** A non-empty signal gets at least one window; the first starts where the loop starts and
      the last ends exactly at the end of the signal. */
  lemma {:induction false} WindowsEnds(start: nat, total: nat, maxChunk: nat, overlap: nat)
    requires 0 < maxChunk && overlap < maxChunk && start < total
    ensures var ws := WindowsFrom(start, total, maxChunk, overlap);
      |ws| >= 1 && ws[0].start == start && ws[|ws| - 1].end == total
    decreases total - start
  {
    var end := Min(start + maxChunk, total);
    if end < total {
      WindowsEnds(if overlap > 0 then end - overlap else end, total, maxChunk, overlap);
    }
  }

  /** Consecutive windows share exactly `overlap` samples, and every window but the last is a
      full chunk. */
  lemma {:induction false} WindowsChain(start: nat, total: nat, maxChunk: nat, overlap: nat)
    requires 0 < maxChunk && overlap < maxChunk
    ensures var ws := WindowsFrom(start, total, maxChunk, overlap);
      forall i :: 0 <= i < |ws| - 1 ==>
        ws[i + 1].start == ws[i].end - overlap && ws[i].end - ws[i].start == maxChunk
    decreases total - start
  {
    if start < total {
      var end := Min(start + maxChunk, total);
      if end < total {
        var next := if overlap > 0 then end - overlap else end;
        WindowsChain(next, total, maxChunk, overlap);
        WindowsEnds(next, total, maxChunk, overlap);
        var ws, rest := WindowsFrom(start, total, maxChunk, overlap), WindowsFrom(next, total, maxChunk, overlap);
        assert ws == [Window(start, end)] + rest;
        forall i | 0 <= i < |ws| - 1
          ensures ws[i + 1].start == ws[i].end - overlap && ws[i].end - ws[i].start == maxChunk
        {
          assert ws[i + 1] == rest[i];
          if i > 0 {
            assert ws[i] == rest[i - 1];
          }
        }
      }
    }
  }

  predicate Covers(ws: seq<Window>, x: nat) {
    exists i :: 0 <= i < |ws| && ws[i].start <= x < ws[i].end
  }

  /** The windows cover the signal: every sample lies in some window. */
  lemma {:induction false} WindowsCover(start: nat, total: nat, maxChunk: nat, overlap: nat,
                                        x: nat)
    requires 0 < maxChunk && overlap < maxChunk && start <= x < total
    ensures Covers(WindowsFrom(start, total, maxChunk, overlap), x)
    decreases total - start
  {
    var ws := WindowsFrom(start, total, maxChunk, overlap);
    var end := Min(start + maxChunk, total);
    if x < end {
      assert ws[0] == Window(start, end);
      assert ws[0].start <= x < ws[0].end;
    } else {
      var next: nat := if overlap > 0 then end - overlap else end;
      WindowsCover(next, total, maxChunk, overlap, x);
      var rest := WindowsFrom(next, total, maxChunk, overlap);
      var i :| 0 <= i < |rest| && rest[i].start <= x < rest[i].end;
      assert ws[i + 1] == rest[i];
    }
  }

  /** Total number of samples handed to the enhancer. */
  function WindowSamples(ws: seq<Window>): int
    decreases |ws|
  {
    if |ws| == 0 then 0 else WindowSamples(ws[..|ws| - 1]) + (ws[|ws| - 1].end - ws[|ws| - 1].start)
  }

  lemma {:induction false} WindowSamplesCons(w: Window, ws: seq<Window>)
    ensures WindowSamples([w] + ws) == (w.end - w.start) + WindowSamples(ws)
    decreases |ws|
  {
    if |ws| > 0 {
      var all := [w] + ws;
      assert all[..|all| - 1] == [w] + ws[..|ws| - 1];
      WindowSamplesCons(w, ws[..|ws| - 1]);
    } else {
      assert [w] + ws == [w];
      assert [w][..0] == [];
    }
  }

  /** The overlaps are the only samples enhanced twice: the windows hold the signal plus one
      overlap per boundary. */
  lemma {:induction false} WindowSamplesTotal(start: nat, total: nat, maxChunk: nat, overlap: nat)
    requires 0 < maxChunk && overlap < maxChunk && start < total
    ensures var ws := WindowsFrom(start, total, maxChunk, overlap);
      WindowSamples(ws) == (total - start) + overlap * (|ws| - 1)
    decreases total - start
  {
    var end := Min(start + maxChunk, total);
    if end >= total {
      assert WindowsFrom(start, total, maxChunk, overlap) == [Window(start, end)];
      WindowSamplesCons(Window(start, end), []);
    } else {
      var next := if overlap > 0 then end - overlap else end;
      var rest := WindowsFrom(next, total, maxChunk, overlap);
      WindowSamplesTotal(next, total, maxChunk, overlap);
      WindowSamplesCons(Window(start, end), rest);
    }
  }

  /** The enhanced slices, one per window, in order. */
  function EnhancedChunks(audio: seq<real>, maxChunk: nat, overlap: nat,
                          enhance: seq<real> -> seq<real>): (cs: seq<seq<real>>)
    requires 0 < maxChunk && overlap < maxChunk
    ensures |cs| == |Windows(|audio|, maxChunk, overlap)|
  {
    var ws := Windows(|audio|, maxChunk, overlap);
    WindowsInBounds(0, |audio|, maxChunk, overlap);
    seq(|ws|, i requires 0 <= i < |ws| => enhance(audio[ws[i].start..ws[i].end]))
  }

  /** An enhancer that keeps lengths gives chunks as long as their windows. */
  lemma EnhancedChunksMatch(audio: seq<real>, maxChunk: nat, overlap: nat,
                            enhance: seq<real> -> seq<real>)
    requires 0 < maxChunk && overlap < maxChunk
    requires forall x :: |enhance(x)| == |x|
    ensures ChunksMatch(EnhancedChunks(audio, maxChunk, overlap, enhance),
                        Windows(|audio|, maxChunk, overlap))
  {
    var ws := Windows(|audio|, maxChunk, overlap);
    WindowsInBounds(0, |audio|, maxChunk, overlap);
  }

  /** The chunk loop of `enhance_audio`, lines 167-187: each window is enhanced by `enhance`
      (DeepFilterNet on that slice, standing for `_run_enhance`) and the results are collected
      in order. */
  method EnhanceChunks(audio: seq<real>, maxChunk: nat, overlap: nat,
                       enhance: seq<real> -> seq<real>) returns (chunks: seq<seq<real>>)
    requires 0 < maxChunk && overlap < maxChunk
    ensures chunks == EnhancedChunks(audio, maxChunk, overlap, enhance)
  {
    var total := |audio|;
    chunks := [];
    var start := 0;
    ghost var ws := Windows(total, maxChunk, overlap);
    ghost var all := EnhancedChunks(audio, maxChunk, overlap, enhance);
    WindowsInBounds(0, total, maxChunk, overlap);
    while start < total
      invariant start <= total
      invariant |chunks| <= |ws|
      invariant WindowsFrom(start, total, maxChunk, overlap) == ws[|chunks|..]
      invariant chunks == all[..|chunks|]
      decreases total - start
    {
      var end := Min(start + maxChunk, total);
      ghost var k := |chunks|;
      WindowStep(start, total, maxChunk, overlap, ws[k..]);
      assert ws[k] == Window(start, end);
      assert all[..k + 1] == all[..k] + [enhance(audio[start..end])];
      chunks := chunks + [enhance(audio[start..end])];
      if end >= total {
        break;
      }
      start := if overlap > 0 then end - overlap else end;
      assert ws[k + 1..] == ws[k..][1..];
    }
    assert chunks == all;
  }

  /** One turn of the chunk loop: the windows from `start` are the window it cuts there, then
      the windows from where the next one starts. */
  lemma WindowStep(start: nat, total: nat, maxChunk: nat, overlap: nat, rest: seq<Window>)
    requires 0 < maxChunk && overlap < maxChunk && start < total
    requires rest == WindowsFrom(start, total, maxChunk, overlap)
    ensures var end := Min(start + maxChunk, total);
      |rest| >= 1 && rest[0] == Window(start, end)
      && (end < total ==>
            rest[1..] == WindowsFrom(if overlap > 0 then end - overlap else end, total, maxChunk,
                                     overlap))
  {
  }

  /** Every window holds more than `overlap` samples when the signal from `start` on does. */
  predicate Long(ws: seq<Window>, overlap: nat) {
    forall i :: 0 <= i < |ws| ==> ws[i].end - ws[i].start > overlap
  }

  lemma {:induction false} WindowsLong(start: nat, total: nat, maxChunk: nat, overlap: nat)
    requires 0 < maxChunk && overlap < maxChunk && start < total && total - start > overlap
    ensures Long(WindowsFrom(start, total, maxChunk, overlap), overlap)
    decreases total - start
  {
    var ws := WindowsFrom(start, total, maxChunk, overlap);
    var end := Min(start + maxChunk, total);
    if end < total {
      var next: nat := if overlap > 0 then end - overlap else end;
      WindowsLong(next, total, maxChunk, overlap);
      var rest := WindowsFrom(next, total, maxChunk, overlap);
      assert ws == [Window(start, end)] + rest;
      forall i | 0 < i < |ws| ensures ws[i].end - ws[i].start > overlap {
        assert ws[i] == rest[i - 1];
      }
    }
  }

  // ---- `_merge_chunks` ----

  /** `np.concatenate(chunks)`. */
  function Concat(cs: seq<seq<real>>): (out: seq<real>)
    decreases |cs|
  {
    if |cs| == 0 then [] else Concat(cs[..|cs| - 1]) + cs[|cs| - 1]
  }

  /** `sum(len(c) for c in chunks)`. */
  function TotalLength(cs: seq<seq<real>>): int
    decreases |cs|
  {
    if |cs| == 0 then 0 else TotalLength(cs[..|cs| - 1]) + |cs[|cs| - 1]|
  }

  lemma {:induction false} ConcatLength(cs: seq<seq<real>>)
    ensures |Concat(cs)| == TotalLength(cs)
    decreases |cs|
  {
    if |cs| > 0 {
      ConcatLength(cs[..|cs| - 1]);
    }
  }

  /** `min(len(c) for c in chunks)`. */
  function MinLength(cs: seq<seq<real>>): (m: nat)
    requires |cs| >= 1
    ensures forall i :: 0 <= i < |cs| ==> m <= |cs[i]|
    ensures exists i :: 0 <= i < |cs| && m == |cs[i]|
    decreases |cs|
  {
    if |cs| == 1 then |cs[0]|
    else
      var m := MinLength(cs[..|cs| - 1]);
      var j :| 0 <= j < |cs| - 1 && m == |cs[..|cs| - 1][j]|;
      assert cs[..|cs| - 1][j] == cs[j];
      assert forall i :: 0 <= i < |cs| - 1 ==> cs[..|cs| - 1][i] == cs[i];
      Min(m, |cs[|cs| - 1]|)
  }

  /** `np.linspace(0, 1, n)[k]`: evenly spaced from 0 to 1; a single point is 0. */
  function Fade(n: nat, k: nat): real
    requires k < n
  {
    if n == 1 then 0.0 else k as real / (n - 1) as real
  }

  /** One crossfaded sample: `a * (1 - f) + b * f`. */
  function Mix(a: real, b: real, f: real): real {
    a * (1.0 - f) + b * f
  }

  /** `prev * (1 - fade_in) + next * fade_in`, sample by sample. */
  function Blend(prev: seq<real>, next: seq<real>): (out: seq<real>)
    requires |prev| == |next|
    ensures |out| == |prev|
  {
    seq(|prev|, k requires 0 <= k < |prev| => Mix(prev[k], next[k], Fade(|prev|, k)))
  }

  /** What one more chunk does to the merged samples `written`: its first `so` samples are
      blended into the last `so` written ones, and the rest of it is appended. */
  function Extend(written: seq<real>, chunk: seq<real>, so: nat): (out: seq<real>)
    requires so <= |written| && so <= |chunk|
    ensures |out| == |written| + |chunk| - so
  {
    written[..|written| - so] + Blend(written[|written| - so..], chunk[..so]) + chunk[so..]
  }

  /** Every chunk is at least `so` samples long. */
  predicate Fits(cs: seq<seq<real>>, so: nat) {
    forall i :: 0 <= i < |cs| ==> so <= |cs[i]|
  }

  /** The crossfade merge with overlap `so`: each chunk after the first overwrites the last `so`
      samples written so far with a blend of both, then appends the rest of itself. */
  function MergeSpec(cs: seq<seq<real>>, so: nat): (out: seq<real>)
    requires |cs| >= 1 && Fits(cs, so)
    ensures |out| >= |cs[0]|
    decreases |cs|
  {
    if |cs| == 1 then
      assert cs[..0] == [];
      cs[0]
    else
      var init := cs[..|cs| - 1];
      assert init[0] == cs[0];
      Extend(MergeSpec(init, so), cs[|cs| - 1], so)
  }

  /** The merge is `so` samples shorter than the chunks together, once per boundary. */
  lemma {:induction false} MergeLength(cs: seq<seq<real>>, so: nat)
    requires |cs| >= 1 && Fits(cs, so)
    ensures |MergeSpec(cs, so)| == TotalLength(cs) - so * (|cs| - 1)
    decreases |cs|
  {
    if |cs| == 1 {
      assert cs[..0] == [];
    } else {
      var init := cs[..|cs| - 1];
      assert Fits(init, so) by {
        forall i | 0 <= i < |init| ensures so <= |init[i]| {
          assert init[i] == cs[i];
        }
      }
      MergeLength(init, so);
      MulSucc(so, |init| - 1);
      var last := cs[|cs| - 1];
      assert MergeSpec(cs, so) == Extend(MergeSpec(init, so), last, so);
      assert |MergeSpec(cs, so)| == |MergeSpec(init, so)| + |last| - so;
      assert TotalLength(cs) == TotalLength(init) + |last|;
    }
  }

  lemma MulSucc(a: nat, n: nat)
    ensures a * (n + 1) == a * n + a
  {
  }

  /** Without overlap the merge is plain concatenation. */
  lemma {:induction false} MergeWithoutOverlap(cs: seq<seq<real>>)
    requires |cs| >= 1
    ensures MergeSpec(cs, 0) == Concat(cs)
    decreases |cs|
  {
    if |cs| == 1 {
      assert cs[..0] == [];
      assert Concat(cs) == Concat([]) + cs[0];
    } else {
      var init := cs[..|cs| - 1];
      MergeWithoutOverlap(init);
      var m := MergeSpec(init, 0);
      var c := cs[|cs| - 1];
      assert Blend(m[|m|..], c[..0]) == [];
      assert m[..|m|] == m && c[0..] == c;
    }
  }

  /** `safe_overlap` as written: at most half the shortest chunk. */
  function SafeOverlapAsWritten(cs: seq<seq<real>>, overlap: nat): (so: nat)
    requires |cs| >= 1
    ensures Fits(cs, so)
  {
    Min(overlap, MinLength(cs) / 2)
  }

  /** The overlap the chunk windows actually share, capped only by the shortest chunk. */
  function SafeOverlapAligned(cs: seq<seq<real>>, overlap: nat): (so: nat)
    requires |cs| >= 1
    ensures Fits(cs, so)
  {
    Min(overlap, MinLength(cs))
  }

  /** `_merge_chunks(chunks, overlap)` as written. */
  function MergeChunksAsWritten(cs: seq<seq<real>>, overlap: nat): (out: seq<real>)
    ensures |cs| == 0 ==> out == []
    ensures |cs| >= 1 ==>
      |out| == TotalLength(cs) - (if |cs| == 1 || overlap == 0 then 0
                                  else SafeOverlapAsWritten(cs, overlap)) * (|cs| - 1)
  {
    if |cs| == 0 then []
    else if |cs| == 1 || overlap <= 0 then (ConcatLength(cs); Concat(cs))
    else (MergeLength(cs, SafeOverlapAsWritten(cs, overlap));
          MergeSpec(cs, SafeOverlapAsWritten(cs, overlap)))
  }

  /** `_merge_chunks` with the overlap the windows were cut with (capped by the shortest
      chunk instead of half of it). */
  function MergeChunksAligned(cs: seq<seq<real>>, overlap: nat): (out: seq<real>)
    ensures |cs| == 0 ==> out == []
    ensures |cs| >= 1 ==>
      |out| == TotalLength(cs) - (if |cs| == 1 || overlap == 0 then 0
                                  else SafeOverlapAligned(cs, overlap)) * (|cs| - 1)
  {
    if |cs| == 0 then []
    else if |cs| == 1 || overlap <= 0 then (ConcatLength(cs); Concat(cs))
    else (MergeLength(cs, SafeOverlapAligned(cs, overlap));
          MergeSpec(cs, SafeOverlapAligned(cs, overlap)))
  }

  /** The two merges agree whenever every chunk is at least twice the overlap long. */
  lemma AsWrittenAgreesOnLongChunks(cs: seq<seq<real>>, overlap: nat)
    requires |cs| >= 1 && MinLength(cs) >= 2 * overlap
    ensures MergeChunksAsWritten(cs, overlap) == MergeChunksAligned(cs, overlap)
  {
    var m := MinLength(cs);
    assert m / 2 >= overlap;
    assert SafeOverlapAsWritten(cs, overlap) == overlap == SafeOverlapAligned(cs, overlap);
  }

  /** Writes `src` into `output` from position `at` on, as `output[at:at+len(src)] = src`. */
  method CopyInto(output: array<real>, at: nat, src: seq<real>)
    requires at + |src| <= output.Length
    modifies output
    ensures forall j :: 0 <= j < output.Length ==>
      output[j] == if at <= j < at + |src| then src[j - at] else old(output[j])
  {
    for k := 0 to |src|
      invariant forall j :: 0 <= j < output.Length ==>
        output[j] == if at <= j < at + k then src[j - at] else old(output[j])
    {
      output[at + k] := src[k];
    }
  }

  /** The crossfade of line 256 over `output[start:start+len(src)]`. */
  method BlendInto(output: array<real>, start: nat, src: seq<real>)
    requires start + |src| <= output.Length
    modifies output
    ensures forall j :: 0 <= j < output.Length ==>
      output[j] == if start <= j < start + |src|
                   then Mix(old(output[j]), src[j - start], Fade(|src|, j - start))
                   else old(output[j])
  {
    for k := 0 to |src|
      invariant forall j :: 0 <= j < output.Length ==>
        output[j] == if start <= j < start + k
                     then Mix(old(output[j]), src[j - start], Fade(|src|, j - start))
                     else old(output[j])
    {
      output[start + k] := Mix(output[start + k], src[k], Fade(|src|, k));
    }
  }

  /** One iteration of the merge loop, lines 250-261: blend the first `so` samples of `chunk`
      into the tail of what was written, then write the rest of `chunk` after it. */
  method AppendChunk(output: array<real>, ghost written: seq<real>, chunk: seq<real>, so: nat,
                     writePos: nat) returns (end: nat)
    requires writePos == |written| && so <= |written| && so <= |chunk|
    requires writePos - so + |chunk| <= output.Length
    requires output[..writePos] == written
    modifies output
    ensures end == writePos - so + |chunk|
    ensures output[..end] == Extend(written, chunk, so)
  {
    var start := writePos - so;
    ghost var before := output[..];
    if so > 0 {
      BlendInto(output, start, chunk[..so]);
    }
    ghost var blended := output[..];
    CopyInto(output, start + so, chunk[so..]);
    end := start + |chunk|;
    var expected := Extend(written, chunk, so);
    forall j | 0 <= j < end ensures output[j] == expected[j] {
      ExtendAt(written, chunk, so, j);
      assert output[j] == if j < start + so then blended[j] else chunk[so..][j - start - so];
      if j < start + so {
        assert before[j] == written[j];
      }
    }
    assert output[..end] == expected;
  }

  /** The samples of `Extend`: the untouched prefix, the blended overlap, the appended rest. */
  lemma ExtendAt(written: seq<real>, chunk: seq<real>, so: nat, j: nat)
    requires so <= |written| && so <= |chunk| && j < |written| + |chunk| - so
    ensures var start := |written| - so;
      Extend(written, chunk, so)[j]
      == if j < start then written[j]
         else if j < |written| then Mix(written[j], chunk[j - start], Fade(so, j - start))
         else chunk[j - start]
  {
    var start := |written| - so;
    var tail := Blend(written[start..], chunk[..so]);
    assert Extend(written, chunk, so) == written[..start] + tail + chunk[so..];
    if start <= j < |written| {
      assert tail[j - start] == Mix(written[start..][j - start], chunk[..so][j - start], Fade(so, j - start));
    }
  }

  /** Merging a prefix never gives more samples than merging all the chunks. */
  lemma {:induction false} MergePrefixShorter(cs: seq<seq<real>>, so: nat, k: nat)
    requires 1 <= k <= |cs| && Fits(cs, so)
    ensures Fits(cs[..k], so)
    ensures |MergeSpec(cs[..k], so)| <= |MergeSpec(cs, so)|
    decreases |cs| - k
  {
    if k < |cs| {
      MergePrefixShorter(cs, so, k + 1);
      var longer := cs[..k + 1];
      assert longer[..k] == cs[..k] && longer[k] == cs[k];
    } else {
      assert cs[..k] == cs;
    }
  }

  /** The merge of the first `k` chunks. */
  function MergedPrefix(cs: seq<seq<real>>, so: nat, k: nat): (out: seq<real>)
    requires 1 <= k <= |cs| && Fits(cs, so)
    ensures |out| <= |MergeSpec(cs, so)|
  {
    MergePrefixShorter(cs, so, k);
    MergeSpec(cs[..k], so)
  }

  /** Merging one more chunk is one blend-and-append on the merge of the chunks before it. */
  lemma MergeStep(cs: seq<seq<real>>, so: nat, idx: nat)
    requires 1 <= idx < |cs| && Fits(cs, so)
    ensures so <= |MergedPrefix(cs, so, idx)| && so <= |cs[idx]|
    ensures MergedPrefix(cs, so, idx + 1) == Extend(MergedPrefix(cs, so, idx), cs[idx], so)
  {
    MergePrefixShorter(cs, so, idx);
    MergePrefixShorter(cs, so, idx + 1);
    var next := cs[..idx + 1];
    assert next[..idx] == cs[..idx] && next[idx] == cs[idx];
    assert cs[..idx][0] == cs[0];
  }

  /** The ends of the merge loop: one chunk is itself, all of them are the whole merge. */
  lemma MergeEnds(cs: seq<seq<real>>, so: nat)
    requires |cs| >= 1 && Fits(cs, so)
    ensures MergedPrefix(cs, so, 1) == cs[0]
    ensures MergedPrefix(cs, so, |cs|) == MergeSpec(cs, so)
  {
    MergePrefixShorter(cs, so, 1);
    assert cs[..1] == [cs[0]];
    assert cs[..|cs|] == cs;
  }

  /** The merge loop of `_merge_chunks` for a given `safe_overlap`: a zeroed buffer of the final
      length, the first chunk written at 0, then one blend-and-append per further chunk. */
  method MergeInto(cs: seq<seq<real>>, so: nat) returns (output: array<real>)
    requires |cs| >= 1 && Fits(cs, so)
    ensures output[..] == MergeSpec(cs, so)
  {
    var totalLen := TotalLength(cs) - so * (|cs| - 1);
    MergeLength(cs, so);
    output := new real[totalLen](_ => 0.0);
    MergeEnds(cs, so);
    CopyInto(output, 0, cs[0]);
    var writePos := |cs[0]|;
    assert output[..writePos] == cs[0];
    var idx := 1;
    while idx < |cs|
      invariant 1 <= idx <= |cs|
      invariant writePos == |MergedPrefix(cs, so, idx)|
      invariant output[..writePos] == MergedPrefix(cs, so, idx)
    {
      MergeStep(cs, so, idx);
      writePos := AppendChunk(output, MergedPrefix(cs, so, idx), cs[idx], so, writePos);
      idx := idx + 1;
    }
    assert output[..] == output[..writePos];
  }

  /** Copies a value into a fresh array, as `np.concatenate` and `np.array([])` build theirs. */
  method ToArray(s: seq<real>) returns (output: array<real>)
    ensures output[..] == s
  {
    output := new real[|s|](i requires 0 <= i < |s| => s[i]);
  }

  /** `_merge_chunks`, lines 232-263, as written. */
  method MergeChunks(cs: seq<seq<real>>, overlapSamples: nat) returns (output: array<real>)
    ensures output[..] == MergeChunksAsWritten(cs, overlapSamples)
  {
    if |cs| == 0 {
      output := ToArray([]);
    } else if |cs| == 1 || overlapSamples <= 0 {
      output := ToArray(Concat(cs));
    } else {
      var safeOverlap := Min(overlapSamples, MinLength(cs) / 2);
      output := MergeInto(cs, safeOverlap);
    }
  }

  /** `_merge_chunks` with the overlap the chunks were cut with. */
  method MergeChunksFixed(cs: seq<seq<real>>, overlapSamples: nat) returns (output: array<real>)
    ensures output[..] == MergeChunksAligned(cs, overlapSamples)
  {
    if |cs| == 0 {
      output := ToArray([]);
    } else if |cs| == 1 || overlapSamples <= 0 {
      output := ToArray(Concat(cs));
    } else {
      var safeOverlap := Min(overlapSamples, MinLength(cs));
      output := MergeInto(cs, safeOverlap);
    }
  }

  // ---- what the merge gives back for the chunks of one signal ----

  /** The enhanced chunks have the lengths of their windows (DeepFilterNet keeps the length
      of what it is given). */
  predicate ChunksMatch(cs: seq<seq<real>>, ws: seq<Window>) {
    |cs| == |ws| && forall i :: 0 <= i < |ws| ==> |cs[i]| == ws[i].end - ws[i].start
  }

  lemma {:induction false} ChunkSamples(cs: seq<seq<real>>, ws: seq<Window>)
    requires ChunksMatch(cs, ws)
    ensures TotalLength(cs) == WindowSamples(ws)
    decreases |cs|
  {
    if |cs| > 0 {
      var n := |cs| - 1;
      assert ChunksMatch(cs[..n], ws[..n]) by {
        forall i | 0 <= i < n ensures |cs[..n][i]| == ws[..n][i].end - ws[..n][i].start {
          assert cs[..n][i] == cs[i] && ws[..n][i] == ws[i];
        }
      }
      ChunkSamples(cs[..n], ws[..n]);
    }
  }

  /** With chunking in use, every chunk is longer than the overlap, and the chunks together
      hold the signal plus one overlap per boundary. */
  lemma ChunkFacts(total: nat, maxChunk: nat, overlap: nat, cs: seq<seq<real>>)
    requires overlap < maxChunk && UsesChunks(maxChunk, total)
    requires ChunksMatch(cs, Windows(total, maxChunk, overlap))
    ensures |cs| >= 1 && MinLength(cs) > overlap
    ensures TotalLength(cs) == total + overlap * (|cs| - 1)
  {
    var ws := Windows(total, maxChunk, overlap);
    WindowsEnds(0, total, maxChunk, overlap);
    WindowsLong(0, total, maxChunk, overlap);
    WindowSamplesTotal(0, total, maxChunk, overlap);
    ChunkSamples(cs, ws);
    var j :| 0 <= j < |cs| && MinLength(cs) == |cs[j]|;
    assert ws[j].end - ws[j].start > overlap;
  }

  /** The corrected merge gives back exactly as many samples as the signal had. */
  lemma AlignedMergeKeepsLength(total: nat, maxChunk: nat, overlap: nat, cs: seq<seq<real>>)
    requires overlap < maxChunk && UsesChunks(maxChunk, total)
    requires ChunksMatch(cs, Windows(total, maxChunk, overlap))
    ensures |MergeChunksAligned(cs, overlap)| == total
  {
    ChunkFacts(total, maxChunk, overlap, cs);
  }

  /** As written, the merge gives back `overlap - safe_overlap` extra samples per boundary, so
      the output is longer than the signal as soon as some chunk is shorter than twice the
      overlap. */
  lemma AsWrittenMergeLength(total: nat, maxChunk: nat, overlap: nat, cs: seq<seq<real>>)
    requires overlap < maxChunk && UsesChunks(maxChunk, total)
    requires ChunksMatch(cs, Windows(total, maxChunk, overlap))
    ensures |cs| >= 2 ==>
      |MergeChunksAsWritten(cs, overlap)|
      == total + (overlap - SafeOverlapAsWritten(cs, overlap)) * (|cs| - 1)
    ensures |cs| >= 2 && MinLength(cs) < 2 * overlap ==> |MergeChunksAsWritten(cs, overlap)| > total
    ensures |cs| >= 2 && |MergeChunksAsWritten(cs, overlap)| >= total
  {
    ChunkFacts(total, maxChunk, overlap, cs);
    FirstWindowFull(total, maxChunk, overlap, cs);
    var so := SafeOverlapAsWritten(cs, overlap);
    var n := |cs| - 1;
    Distribute(overlap, so, n);
    if MinLength(cs) < 2 * overlap {
      assert so < overlap;
      PositiveProduct(overlap - so, n);
    } else {
      assert so == overlap;
    }
  }

  /** A signal longer than one chunk is cut into at least two windows, the first of them a
      full chunk. */
  lemma FirstWindowFull(total: nat, maxChunk: nat, overlap: nat, cs: seq<seq<real>>)
    requires overlap < maxChunk && UsesChunks(maxChunk, total)
    requires ChunksMatch(cs, Windows(total, maxChunk, overlap))
    ensures |cs| >= 2 && |cs[0]| == maxChunk
  {
    ChunkFacts(total, maxChunk, overlap, cs);
    var ws := Windows(total, maxChunk, overlap);
    var next: nat := if overlap > 0 then maxChunk - overlap else maxChunk;
    assert ws == [Window(0, maxChunk)] + WindowsFrom(next, total, maxChunk, overlap);
  }

  /** Every window holds at least `n` samples. */
  predicate WindowsAtLeast(ws: seq<Window>, n: nat) {
    forall i :: 0 <= i < |ws| ==> ws[i].end - ws[i].start >= n
  }

  /** When no window is shorter than twice the overlap, the merge as written gives back exactly
      as many samples as the signal had. */
  lemma LongWindowsKeepLength(total: nat, maxChunk: nat, overlap: nat, cs: seq<seq<real>>)
    requires overlap < maxChunk && UsesChunks(maxChunk, total)
    requires ChunksMatch(cs, Windows(total, maxChunk, overlap))
    requires WindowsAtLeast(Windows(total, maxChunk, overlap), 2 * overlap)
    ensures |MergeChunksAsWritten(cs, overlap)| == total
  {
    ChunkFacts(total, maxChunk, overlap, cs);
    var j :| 0 <= j < |cs| && MinLength(cs) == |cs[j]|;
    AsWrittenAgreesOnLongChunks(cs, overlap);
    AlignedMergeKeepsLength(total, maxChunk, overlap, cs);
  }

  lemma Distribute(a: int, b: int, n: int)
    ensures a * n - b * n == (a - b) * n
  {
  }

  lemma PositiveProduct(a: int, n: int)
    requires a >= 1 && n >= 1
    ensures a * n >= 1
  {
  }

  /** A 101-sample signal cut into chunks of at most 100 samples with 25 samples of overlap:
      the windows are [0,100) and [75,101), and the merge as written returns 113 samples. */
  lemma ShortLastChunkCounterexample(audio: seq<real>)
    requires |audio| == 101
    ensures Windows(101, 100, 25) == [Window(0, 100), Window(75, 101)]
    ensures |MergeChunksAsWritten([audio[0..100], audio[75..101]], 25)| == 113
  {
    assert WindowsFrom(75, 101, 100, 25) == [Window(75, 101)];
    var cs := [audio[0..100], audio[75..101]];
    assert cs[..1] == [cs[0]];
    assert TotalLength(cs) == 126 by {
      assert TotalLength(cs[..1]) == 100 by {
        assert cs[..1][..0] == [];
      }
    }
    assert MinLength(cs) == 26;
  }

  /** The same at the worker's settings (48 kHz, 30 s chunks, 0.05 s overlap): a signal one
      sample longer than a chunk comes back 1200 samples (25 ms) too long. */
  lemma DefaultSettingsCounterexample(audio: seq<real>)
    requires |audio| == 1440001
    ensures ChunkOverlap(2400, 1440000) == 2400
    ensures Windows(1440001, 1440000, 2400) == [Window(0, 1440000), Window(1437600, 1440001)]
    ensures |MergeChunksAsWritten([audio[0..1440000], audio[1437600..1440001]], 2400)| == 1441201
  {
    assert WindowsFrom(1437600, 1440001, 1440000, 2400) == [Window(1437600, 1440001)];
    var cs := [audio[0..1440000], audio[1437600..1440001]];
    assert cs[..1] == [cs[0]];
    assert TotalLength(cs) == 1442401 by {
      assert TotalLength(cs[..1]) == 1440000 by {
        assert cs[..1][..0] == [];
      }
    }
    assert MinLength(cs) == 2401;
  }
}
