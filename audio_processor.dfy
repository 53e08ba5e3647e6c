/** backend/utils/audio_processor.py: the DeepFilterNet wrapper the worker calls. The model,
    librosa, soundfile and pydub are outside the model: what they return or raise is passed in
    (`enhance` for one DeepFilterNet pass, `resample` for librosa's resampler, and the outcome
    values below), and the class keeps its configuration and whether the model is loaded. */
module AudioProcessing {
  import opened Wrappers
  import opened Strings
  import opened Paths
  import opened Chunking

  /** `int(seconds * rate) if seconds and seconds > 0 else None`, with None (and 0, which
      `enhance_audio` treats alike) as 0. */
  function SamplesFor(seconds: real, rate: nat): (n: nat)
    ensures seconds <= 0.0 ==> n == 0
    ensures seconds > 0.0 ==> n as real <= seconds * rate as real < n as real + 1.0
  {
    if seconds > 0.0 then
      assert seconds * rate as real >= 0.0;
      (seconds * rate as real).Floor
    else 0
  }

  /** The worker's processor: 30 s chunks overlapping by 50 ms at 48 kHz. */
  lemma DefaultChunking()
    ensures SamplesFor(30.0, 48000) == 1440000
    ensures SamplesFor(0.05, 48000) == 2400
  {
  }

  /** What one call of `init_df()` does. */
  datatype InitOutcome =
    | Ready                       // the model and its state are returned
    | Exited(code: string)        // it called `sys.exit`; `code` is `str()` of the SystemExit
    | Raised(message: string)     // it raised another exception with this text

  const AbortedPrefix := "DeepFilterNet init aborted (SystemExit): "
  const RetriesExhausted := "Failed to initialize DeepFilterNet after retries: "

  /** `last_err` after a failed attempt. */
  function FailureText(o: InitOutcome): string {
    match o
    case Ready => ""
    case Exited(code) => AbortedPrefix + code
    case Raised(message) => message
  }

  function Pow2(k: nat): nat {
    if k == 0 then 1 else 2 * Pow2(k - 1)
  }

  /** The sleeps after the first `k` failed attempts: `2 ** attempt` seconds each. */
  function Backoff(k: nat): (waits: seq<nat>)
    ensures |waits| == k
  {
    seq(k, i requires 0 <= i < k => Pow2(i))
  }

  /** One more failed attempt adds its sleep at the end. */
  lemma BackoffStep(k: nat)
    ensures Backoff(k + 1) == Backoff(k) + [Pow2(k)]
  {
    assert forall i :: 0 <= i < k ==> Backoff(k + 1)[i] == Backoff(k)[i];
  }

  /** The first attempt at or after `k` that loads the model, or `|attempts|` if none does. */
  function FirstReady(attempts: seq<InitOutcome>, k: nat): (i: nat)
    requires k <= |attempts|
    ensures k <= i <= |attempts|
    ensures forall j :: k <= j < i ==> attempts[j] != Ready
    ensures i < |attempts| ==> attempts[i] == Ready
    decreases |attempts| - k
  {
    if k == |attempts| then k
    else if attempts[k] == Ready then k
    else FirstReady(attempts, k + 1)
  }

  const InitPrefix := "Failed to initialize audio processing model: "

  /** What `initialize` does on a processor whose model is not loaded: the seconds it sleeps
      and, when it raises, the message. */
  datatype InitReport = InitReport(waits: seq<nat>, error: Option<string>)

  /** `initialize` from the unloaded state: `importError` is the text of the exception
      `from df import ...` raised, if any, and `attempts` the outcome of each of the three
      `init_df()` calls the retry loop may make. */
  function InitializeSpec(importError: Option<string>, attempts: seq<InitOutcome>): InitReport
    requires |attempts| == 3
  {
    if importError.Some? then InitReport([], Some(InitPrefix + importError.value))
    else
      var k := FirstReady(attempts, 0);
      if k < 3 then InitReport(Backoff(k), None)
      else InitReport(Backoff(3), Some(InitPrefix + RetriesExhausted
                                       + FailureText(attempts[2])))
  }

  /** Loading succeeds exactly when the import works and one of the three attempts does; the
      sleeps before it are 1, 2 and 4 seconds, in that order, one per failed attempt before the
      first that succeeds; when all three fail, the message reports the last failure. */
  lemma InitializeRetries(importError: Option<string>, attempts: seq<InitOutcome>)
    requires |attempts| == 3
    ensures var r := InitializeSpec(importError, attempts);
      (r.error.None? <==> importError.None? && exists i :: 0 <= i < 3 && attempts[i] == Ready)
      && |r.waits| <= 3 && r.waits == [1, 2, 4][..|r.waits|]
      && (r.error.None? ==> forall i :: 0 <= i < |r.waits| ==> attempts[i] != Ready)
      && (r.error.None? ==> |r.waits| < 3 && attempts[|r.waits|] == Ready)
      && (importError.None? && r.error.Some? ==>
            |r.waits| == 3
            && r.error.value == InitPrefix + RetriesExhausted
                                + FailureText(attempts[2]))
  {
    var r := InitializeSpec(importError, attempts);
    var k := FirstReady(attempts, 0);
    assert Pow2(0) == 1 && Pow2(1) == 2 && Pow2(2) == 4;
    if importError.None? && k == 3 {
      assert forall i :: 0 <= i < 3 ==> attempts[i] != Ready;
    }
  }

  /** The largest magnitude of a sample: `np.abs(audio).max()`. */
  function Peak(s: seq<real>): (p: real)
    requires |s| >= 1
    ensures p >= 0.0
    ensures forall i :: 0 <= i < |s| ==> -p <= s[i] <= p
    ensures exists i :: 0 <= i < |s| && (s[i] == p || s[i] == -p)
    decreases |s|
  {
    var a := if s[0] < 0.0 then -s[0] else s[0];
    if |s| == 1 then a
    else
      var rest := Peak(s[1..]);
      assert forall i :: 1 <= i < |s| ==> s[i] == s[1..][i - 1];
      if a >= rest then a else rest
  }

  /** `audio / np.abs(audio).max()` when that peak exceeds 1, the audio unchanged otherwise. */
  function Normalize(s: seq<real>): (out: seq<real>)
    requires |s| >= 1
    ensures |out| == |s|
  {
    var p := Peak(s);
    if p > 1.0 then seq(|s|, i requires 0 <= i < |s| => s[i] / p) else s
  }

  lemma QuotientInRange(a: real, p: real)
    requires p > 0.0 && -p <= a <= p
    ensures -1.0 <= a / p <= 1.0
  {
    assert (a / p) * p == a;
  }

  /** Normalised audio lies in [-1, 1], and audio already there is left alone. */
  lemma NormalizeBounds(s: seq<real>)
    requires |s| >= 1
    ensures forall i :: 0 <= i < |s| ==> -1.0 <= Normalize(s)[i] <= 1.0
    ensures (forall i :: 0 <= i < |s| ==> -1.0 <= s[i] <= 1.0) ==> Normalize(s) == s
  {
    var p := Peak(s);
    if p > 1.0 {
      forall i | 0 <= i < |s| ensures -1.0 <= Normalize(s)[i] <= 1.0 {
        QuotientInRange(s[i], p);
      }
      var k :| 0 <= k < |s| && (s[k] == p || s[k] == -p);
      assert !(-1.0 <= s[k] <= 1.0);
    }
  }

  /** `np.clip(x, -1.0, 1.0)` on one sample. */
  function Clip(x: real): (y: real)
    ensures -1.0 <= y <= 1.0
    ensures -1.0 <= x <= 1.0 ==> y == x
  {
    if x < -1.0 then -1.0 else if x > 1.0 then 1.0 else x
  }

  function Scale(x: real, factor: real): real {
    x * factor
  }

  /** The gain step: every sample times `factor` (`10 ** (gain_db / 20)`), clipped; samples
      that stay within range are only scaled. */
  function Amplify(s: seq<real>, factor: real): (out: seq<real>)
    ensures |out| == |s|
    ensures forall i :: 0 <= i < |s| ==> -1.0 <= out[i] <= 1.0
    ensures forall i :: 0 <= i < |s| && -1.0 <= Scale(s[i], factor) <= 1.0 ==>
              out[i] == Scale(s[i], factor)
  {
    seq(|s|, i requires 0 <= i < |s| => Clip(Scale(s[i], factor)))
  }

  /** One DeepFilterNet pass as `_run_enhance` makes it: the attenuation limit is handed over
      only when there is one. */
  function Run(enhance: (Option<real>, seq<real>) -> seq<real>, atten: Option<real>)
    : seq<real> -> seq<real>
  {
    x => enhance(atten, x)
  }

  const EnhancePrefix := "Failed to enhance audio: "

  /** numpy's message for `max()` of an empty array. */
  const EmptyMaxMessage := "zero-size array to reduction operation maximum which has no identity"

  const LoadPrefix := "Failed to load audio file: "
  const SavePrefix := "Failed to save audio file: "

  /** What pydub's conversion did: the size of the target file afterwards (0 when it does not
      exist), or the text of the exception it raised. */
  datatype Conversion = Converted(size: nat) | ConversionRaised(message: string)

  /** The WAV file `save_audio` always writes: the target itself when its suffix is ".wav" in
      any case, else the target with its suffix replaced; None is the `ValueError` of
      `with_suffix` on an empty name. */
  function WavPath(target: string): Option<string> {
    if Lower(Suffix(target)) == ".wav" then Some(target) else WithSuffix(target, ".wav")
  }

  /** The WAV path exists exactly for targets with a name; it stays in the target's directory,
      keeps its stem and has a ".wav" suffix (in some case). */
  lemma WavPathShape(target: string)
    ensures WavPath(target).Some? <==> Name(target) != ""
    ensures WavPath(target).Some? ==>
      var w := WavPath(target).value;
      Lower(Suffix(w)) == ".wav" && Stem(w) == Stem(target) && DirPrefix(w) == DirPrefix(target)
  {
    assert Lower(".wav") == ".wav";
    if Lower(Suffix(target)) != ".wav" && Name(target) != "" {
      WavIsExtension();
      WithSuffixShape(target, ".wav");
    }
  }

  /** `save_audio`'s choice of returned path: `mkdirError` and `writeError` are the texts of
      what creating the parent directory and `sf.write` raised, if anything. */
  function SaveAudio(target: string, mkdirError: Option<string>, writeError: Option<string>,
                     conversion: Conversion): Result<string>
  {
    if mkdirError.Some? then Err(SavePrefix + mkdirError.value)
    else
      var ext := Lower(Suffix(target));
      match WavPath(target)
      case None =>
        Err(SavePrefix + "PosixPath('" + (if target == "" then "." else target) + "') has an empty name")
      case Some(wav) =>
        if writeError.Some? then Err(SavePrefix + writeError.value)
        else if ext != "" && ext != ".wav" && conversion.Converted? && conversion.size > 0 then
          Ok(target)
        else Ok(wav)
  }

  /** The saved file is the requested one only after a conversion that left a non-empty file;
      otherwise it is the WAV, which keeps the requested stem and directory. Failures carry
      the save prefix. */
  lemma SaveAudioChoice(target: string, mkdirError: Option<string>, writeError: Option<string>,
                        conversion: Conversion)
    ensures var r := SaveAudio(target, mkdirError, writeError, conversion);
      (r.Ok? <==> mkdirError.None? && writeError.None? && Name(target) != "")
      && (r.Err? ==> |r.error| >= |SavePrefix| && r.error[..|SavePrefix|] == SavePrefix)
      && (r.Ok? && r.value != target ==>
            Lower(Suffix(r.value)) == ".wav" && Stem(r.value) == Stem(target)
            && DirPrefix(r.value) == DirPrefix(target))
      && ((r.Ok? && Lower(Suffix(target)) != ".wav" && Lower(Suffix(target)) != "")
                ==> (r.value == target <==> conversion.Converted? && conversion.size > 0))
  {
    WavPathShape(target);
  }

  /** The result dictionary of `process_file`. */
  datatype ProcessResult =
    | Processed(durationSeconds: real, sampleRate: int, outputSizeBytes: nat,
                outputSizeMb: real, outputPath: string)
    | ProcessFailed(error: string)

  /** The outcome of the external calls one `process_file` run depends on. */
  datatype Environment = Environment(
    loaded: Result<(seq<real>, int)>,   // librosa.load, mixed down to mono, and its rate
    resample: (seq<real>, int, int) -> Result<seq<real>>,
    importError: Option<string>,
    attempts: seq<InitOutcome>,
    enhanceError: Option<string>,       // DeepFilterNet raised inside `enhance_audio`
    enhance: (Option<real>, seq<real>) -> seq<real>,
    decibelFactor: real -> real,        // 10 ** (db / 20)
    mkdirError: Option<string>,
    writeError: Option<string>,
    conversion: Conversion,
    outputSize: nat)                    // the size `stat` reports for the saved file

  class AudioProcessor {
    const targetSampleRate: nat
    /** 0 stands for None: no chunking. */
    const maxChunkSamples: nat
    const chunkOverlapSamples: nat
    const attenuationLimitDb: Option<real>
    const outputGainDb: real
    var initialized: bool

    /** `AudioProcessor.__init__`: the model is not loaded yet. */
    constructor (targetSampleRate: nat, maxChunkDuration: real, chunkOverlap: real,
                 attenuationLimitDb: Option<real>, outputGainDb: real)
      ensures this.targetSampleRate == targetSampleRate
      ensures maxChunkSamples == SamplesFor(maxChunkDuration, targetSampleRate)
      ensures chunkOverlapSamples == SamplesFor(chunkOverlap, targetSampleRate)
      ensures this.attenuationLimitDb == attenuationLimitDb && this.outputGainDb == outputGainDb
      ensures !initialized
    {
      this.targetSampleRate := targetSampleRate;
      maxChunkSamples := SamplesFor(maxChunkDuration, targetSampleRate);
      chunkOverlapSamples := SamplesFor(chunkOverlap, targetSampleRate);
      this.attenuationLimitDb := attenuationLimitDb;
      this.outputGainDb := outputGainDb;
      initialized := false;
    }

    /** `initialize`: nothing to do once the model is loaded; otherwise up to three attempts,
        sleeping `2 ** attempt` seconds after each failure. */
    method Initialize(importError: Option<string>, attempts: seq<InitOutcome>)
      returns (waits: seq<nat>, error: Option<string>)
      requires |attempts| == 3
      modifies this
      ensures old(initialized) ==> initialized && waits == [] && error == None
      ensures !old(initialized) ==>
        InitReport(waits, error) == InitializeSpec(importError, attempts)
        && (initialized <==> error.None?)
    {
      waits := [];
      error := None;
      if initialized {
        return;
      }
      if importError.Some? {
        error := Some(InitPrefix + importError.value);
        return;
      }
      var lastErr := "";
      var attempt := 0;
      while attempt < 3
        invariant 0 <= attempt <= 3 && !initialized
        invariant waits == Backoff(attempt)
        invariant FirstReady(attempts, 0) == FirstReady(attempts, attempt)
        invariant attempt > 0 ==> lastErr == FailureText(attempts[attempt - 1])
        decreases 3 - attempt
      {
        var outcome := attempts[attempt];
        if outcome == Ready {
          initialized := true;
          break;
        } else if outcome.Exited? {
          lastErr := AbortedPrefix + outcome.code;
        } else {
          lastErr := outcome.message;
        }
        BackoffStep(attempt);
        waits := waits + [Pow2(attempt)];
        attempt := attempt + 1;
      }
      if !initialized {
        error := Some(InitPrefix + RetriesExhausted + lastErr);
        assert FirstReady(attempts, 0) == 3;
      } else {
        assert FirstReady(attempts, 0) == attempt;
      }
    }

    /** `enhance_audio` once the model is loaded, with the per-call overrides. */
    function Enhanced(audio: seq<real>, attenOverride: Option<real>, gainOverride: Option<real>,
                      enhanceError: Option<string>, enhance: (Option<real>, seq<real>) -> seq<real>,
                      decibelFactor: real -> real): Result<seq<real>>
    {
      if |audio| == 0 then Err(EnhancePrefix + EmptyMaxMessage)
      else if enhanceError.Some? then Err(EnhancePrefix + enhanceError.value)
      else
        var x := Normalize(audio);
        var gainDb := if gainOverride.Some? then gainOverride.value else outputGainDb;
        var f := Run(enhance, Attenuation(attenOverride));
        var out :=
          if UsesChunks(maxChunkSamples, |x|) then
            var overlap := ChunkOverlap(chunkOverlapSamples, maxChunkSamples);
            MergeChunksAsWritten(EnhancedChunks(x, maxChunkSamples, overlap, f), overlap)
          else f(x);
        Ok(if gainDb != 0.0 then Amplify(out, decibelFactor(gainDb)) else out)
    }

    /** `enhance_audio` from a state where the model may not be loaded: the loading error
        propagates unchanged, outside the enhancement error wrapper. */
    function EnhanceSpec(wasInitialized: bool, audio: seq<real>, attenOverride: Option<real>,
                         gainOverride: Option<real>, e: Environment): Result<seq<real>>
      requires |e.attempts| == 3
    {
      if !wasInitialized && InitializeSpec(e.importError, e.attempts).error.Some? then
        Err(InitializeSpec(e.importError, e.attempts).error.value)
      else Enhanced(audio, attenOverride, gainOverride, e.enhanceError, e.enhance, e.decibelFactor)
    }

    /** The attenuation limit in force: the per-call override, else the processor's own. */
    function Attenuation(attenOverride: Option<real>): Option<real> {
      if attenOverride.Some? then attenOverride else attenuationLimitDb
    }

    /** When DeepFilterNet keeps lengths, enhancement fails exactly on empty audio or a
        DeepFilterNet error, and otherwise returns at least as many samples as it was given:
        exactly as many when the audio is not cut into chunks or when no window is shorter
        than twice the overlap (a short last window makes `_merge_chunks` add samples, see
        `EnhancedChunkedLength`). With a gain, every sample lies in [-1, 1]. */
    lemma EnhancedKeepsLength(audio: seq<real>, attenOverride: Option<real>,
                              gainOverride: Option<real>, enhanceError: Option<string>,
                              enhance: (Option<real>, seq<real>) -> seq<real>,
                              decibelFactor: real -> real)
      requires forall a, x :: |enhance(a, x)| == |x|
      ensures var r := Enhanced(audio, attenOverride, gainOverride, enhanceError, enhance,
                                decibelFactor);
        var overlap := ChunkOverlap(chunkOverlapSamples, maxChunkSamples);
        (r.Ok? <==> |audio| > 0 && enhanceError.None?)
        && (r.Ok? ==> |r.value| >= |audio|)
        && (r.Ok? && (!UsesChunks(maxChunkSamples, |audio|) ||
                      WindowsAtLeast(Windows(|audio|, maxChunkSamples, overlap), 2 * overlap)) ==>
              |r.value| == |audio|)
        && ((r.Ok? && (if gainOverride.Some? then gainOverride.value else outputGainDb) != 0.0)
              ==> forall i :: 0 <= i < |r.value| ==> -1.0 <= r.value[i] <= 1.0)
    {
      if |audio| > 0 && enhanceError.None? {
        var x := Normalize(audio);
        var f := Run(enhance, Attenuation(attenOverride));
        assert forall y :: |f(y)| == |y|;
        if UsesChunks(maxChunkSamples, |x|) {
          var overlap := ChunkOverlap(chunkOverlapSamples, maxChunkSamples);
          var cs := EnhancedChunks(x, maxChunkSamples, overlap, f);
          EnhancedChunksMatch(x, maxChunkSamples, overlap, f);
          AsWrittenMergeLength(|x|, maxChunkSamples, overlap, cs);
          if WindowsAtLeast(Windows(|x|, maxChunkSamples, overlap), 2 * overlap) {
            LongWindowsKeepLength(|x|, maxChunkSamples, overlap, cs);
          }
        }
      }
    }

    /** Audio longer than one chunk comes back longer by `overlap - safe_overlap` samples per
        chunk boundary, where `safe_overlap` is capped at half the shortest enhanced chunk. */
    lemma EnhancedChunkedLength(audio: seq<real>, attenOverride: Option<real>,
                                gainOverride: Option<real>,
                                enhance: (Option<real>, seq<real>) -> seq<real>,
                                decibelFactor: real -> real)
      requires forall a, x :: |enhance(a, x)| == |x|
      requires UsesChunks(maxChunkSamples, |audio|)
      ensures var overlap := ChunkOverlap(chunkOverlapSamples, maxChunkSamples);
        var cs := EnhancedChunks(Normalize(audio), maxChunkSamples, overlap,
                                 Run(enhance, Attenuation(attenOverride)));
        var r := Enhanced(audio, attenOverride, gainOverride, None, enhance, decibelFactor);
        r.Ok? && |cs| >= 2
        && |r.value| == |audio| + (overlap - SafeOverlapAsWritten(cs, overlap)) * (|cs| - 1)
    {
      var x := Normalize(audio);
      var f := Run(enhance, Attenuation(attenOverride));
      assert forall y :: |f(y)| == |y|;
      var overlap := ChunkOverlap(chunkOverlapSamples, maxChunkSamples);
      var cs := EnhancedChunks(x, maxChunkSamples, overlap, f);
      EnhancedChunksMatch(x, maxChunkSamples, overlap, f);
      AsWrittenMergeLength(|x|, maxChunkSamples, overlap, cs);
      ChunkedOutput(audio, attenOverride, gainOverride, enhance, decibelFactor);
      var extra := (overlap - SafeOverlapAsWritten(cs, overlap)) * (|cs| - 1);
      assert |MergeChunksAsWritten(cs, overlap)| == |audio| + extra;
    }

    /** With chunking, the enhanced audio is as long as the merge of the enhanced chunks. */
    lemma ChunkedOutput(audio: seq<real>, attenOverride: Option<real>, gainOverride: Option<real>,
                        enhance: (Option<real>, seq<real>) -> seq<real>,
                        decibelFactor: real -> real)
      requires UsesChunks(maxChunkSamples, |audio|)
      ensures var overlap := ChunkOverlap(chunkOverlapSamples, maxChunkSamples);
        var cs := EnhancedChunks(Normalize(audio), maxChunkSamples, overlap,
                                 Run(enhance, Attenuation(attenOverride)));
        var r := Enhanced(audio, attenOverride, gainOverride, None, enhance, decibelFactor);
        r.Ok? && |r.value| == |MergeChunksAsWritten(cs, overlap)|
    {
    }

    /** The per-call overrides win: a missing override falls back to the processor's own
        setting, and with both overrides given the processor's own settings play no part. */
    lemma EnhancedUsesOverrides(other: AudioProcessor, audio: seq<real>,
                                attenOverride: Option<real>, gainOverride: Option<real>,
                                atten: real, gain: real, enhanceError: Option<string>,
                                enhance: (Option<real>, seq<real>) -> seq<real>,
                                decibelFactor: real -> real)
      requires other.maxChunkSamples == maxChunkSamples
      requires other.chunkOverlapSamples == chunkOverlapSamples
      ensures Enhanced(audio, attenOverride, gainOverride, enhanceError, enhance, decibelFactor)
              == Enhanced(audio, Attenuation(attenOverride),
                          Some(if gainOverride.Some? then gainOverride.value else outputGainDb),
                          enhanceError, enhance, decibelFactor)
      ensures Enhanced(audio, Some(atten), Some(gain), enhanceError, enhance, decibelFactor)
              == other.Enhanced(audio, Some(atten), Some(gain), enhanceError, enhance,
                                decibelFactor)
    {
    }

    /** Audio that fits in one chunk is normalised, enhanced in one pass and amplified;
        empty audio fails with numpy's message for the maximum of an empty array. */
    lemma EnhancedSinglePass(audio: seq<real>, atten: real, gain: real,
                             enhance: (Option<real>, seq<real>) -> seq<real>,
                             decibelFactor: real -> real)
      requires |audio| > 0 && !UsesChunks(maxChunkSamples, |audio|) && gain != 0.0
      ensures Enhanced(audio, Some(atten), Some(gain), None, enhance, decibelFactor)
              == Ok(Amplify(enhance(Some(atten), Normalize(audio)), decibelFactor(gain)))
      ensures Enhanced([], Some(atten), Some(gain), None, enhance, decibelFactor)
              == Err("Failed to enhance audio: " + EmptyMaxMessage)
    {
    }

    /** `enhance_audio`. */
    method EnhanceAudio(audio: seq<real>, attenOverride: Option<real>, gainOverride: Option<real>,
                        e: Environment) returns (r: Result<seq<real>>)
      requires |e.attempts| == 3
      modifies this
      ensures r == EnhanceSpec(old(initialized), audio, attenOverride, gainOverride, e)
      ensures initialized <==> old(initialized) || InitializeSpec(e.importError, e.attempts).error.None?
    {
      if !initialized {
        var waits, error := Initialize(e.importError, e.attempts);
        if error.Some? {
          return Err(error.value);
        }
      }
      if |audio| == 0 {
        return Err(EnhancePrefix + EmptyMaxMessage);
      }
      if e.enhanceError.Some? {
        return Err(EnhancePrefix + e.enhanceError.value);
      }
      var x := Normalize(audio);
      var gainDb := if gainOverride.Some? then gainOverride.value else outputGainDb;
      var f := Run(e.enhance, Attenuation(attenOverride));
      var out: seq<real>;
      if UsesChunks(maxChunkSamples, |x|) {
        var overlap := ChunkOverlap(chunkOverlapSamples, maxChunkSamples);
        var chunks := EnhanceChunks(x, maxChunkSamples, overlap, f);
        var merged := MergeChunks(chunks, overlap);
        out := merged[..];
      } else {
        out := f(x);
      }
      if gainDb != 0.0 {
        out := Amplify(out, e.decibelFactor(gainDb));
      }
      r := Ok(out);
    }

    /** `load_audio`: the audio comes back at the target rate, resampled when the file's own
        rate differs. */
    function LoadAudio(loaded: Result<(seq<real>, int)>,
                       resample: (seq<real>, int, int) -> Result<seq<real>>)
      : (r: Result<(seq<real>, int)>)
      ensures r.Ok? ==> r.value.1 == targetSampleRate
      ensures r.Ok? <==> loaded.Ok? && (loaded.value.1 != targetSampleRate ==>
                           resample(loaded.value.0, loaded.value.1, targetSampleRate).Ok?)
      ensures r.Ok? && loaded.value.1 == targetSampleRate ==> r.value.0 == loaded.value.0
      ensures r.Err? ==> |r.error| >= |LoadPrefix| && r.error[..|LoadPrefix|] == LoadPrefix
    {
      match loaded
      case Err(msg) => Err(LoadPrefix + msg)
      case Ok((audio, sr)) =>
        if sr != targetSampleRate then
          match resample(audio, sr, targetSampleRate)
          case Err(msg) => Err(LoadPrefix + msg)
          case Ok(resampled) => Ok((resampled, targetSampleRate))
        else Ok((audio, sr))
    }

    /** `process_file` from a state where the model may not be loaded yet. */
    function ProcessSpec(wasInitialized: bool, outputPath: string, attenOverride: Option<real>,
                         gainOverride: Option<real>, e: Environment): ProcessResult
      requires |e.attempts| == 3
    {
      match LoadAudio(e.loaded, e.resample)
      case Err(msg) => ProcessFailed(msg)
      case Ok((audio, sr)) =>
        if sr == 0 then ProcessFailed("division by zero")
        else Saved(EnhanceSpec(wasInitialized, audio, attenOverride, gainOverride, e),
                   |audio| as real / sr as real, sr, outputPath, e)
    }

    /** A successful run reports the target rate, the duration of the loaded audio and the
        path `save_audio` chose; a run fails exactly when loading, the duration, the model,
        enhancement or saving fails, and then reports that error instead of raising. */
    lemma ProcessOutcome(wasInitialized: bool, outputPath: string, attenOverride: Option<real>,
                         gainOverride: Option<real>, e: Environment)
      requires |e.attempts| == 3
      ensures var r := ProcessSpec(wasInitialized, outputPath, attenOverride, gainOverride, e);
        var l := LoadAudio(e.loaded, e.resample);
        (r.Processed? <==>
           l.Ok? && targetSampleRate != 0
           && EnhanceSpec(wasInitialized, l.value.0, attenOverride, gainOverride, e).Ok?
           && SaveAudio(outputPath, e.mkdirError, e.writeError, e.conversion).Ok?)
        && (r.Processed? ==>
              r.sampleRate == targetSampleRate
              && r.durationSeconds == |l.value.0| as real / targetSampleRate as real
              && r.outputPath == SaveAudio(outputPath, e.mkdirError, e.writeError, e.conversion).value
              && r.outputSizeBytes == e.outputSize
              && r.outputSizeMb == r.outputSizeBytes as real / 1048576.0)
        && (l.Err? ==> r == ProcessFailed(l.error))
        && (l.Ok? && targetSampleRate == 0 ==> r == ProcessFailed("division by zero"))
    {
    }

    /** `process_file`: load, enhance, save and report; every failure becomes a result with
        `success` false and the error's text. */
    method ProcessFile(outputPath: string, attenOverride: Option<real>, gainOverride: Option<real>,
                       e: Environment) returns (r: ProcessResult)
      requires |e.attempts| == 3
      modifies this
      ensures r == ProcessSpec(old(initialized), outputPath, attenOverride, gainOverride, e)
      ensures initialized <==> old(initialized) || (LoadAudio(e.loaded, e.resample).Ok?
                                                   && targetSampleRate != 0
                                                   && InitializeSpec(e.importError, e.attempts).error.None?)
    {
      match LoadAudio(e.loaded, e.resample)
      case Err(msg) =>
        r := ProcessFailed(msg);
      case Ok((audio, sr)) =>
        if sr == 0 {
          r := ProcessFailed("division by zero");
        } else {
          var duration := |audio| as real / sr as real;
          var enhanced := EnhanceAudio(audio, attenOverride, gainOverride, e);
          r := Saved(enhanced, duration, sr, outputPath, e);
        }
    }

    /** The end of `process_file` once the audio was enhanced (or not): save it and report. */
    static function Saved(enhanced: Result<seq<real>>, duration: real, sr: int, outputPath: string,
                          e: Environment): (r: ProcessResult)
      ensures enhanced.Err? ==> r == ProcessFailed(enhanced.error)
      ensures r.Processed? ==> r.durationSeconds == duration && r.sampleRate == sr
    {
      match enhanced
      case Err(msg) => ProcessFailed(msg)
      case Ok(_) =>
        match SaveAudio(outputPath, e.mkdirError, e.writeError, e.conversion)
        case Err(msg) => ProcessFailed(msg)
        case Ok(path) => Processed(duration, sr, e.outputSize, e.outputSize as real / 1048576.0, path)
    }
  }
}
