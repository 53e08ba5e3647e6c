# OpenVoice backend in Dafny

This project is a Dafny model of the backend of OpenVoice, a web service that removes noise from uploaded audio with DeepFilterNet. It covers six parts:

- **The FastAPI gateway** (`backend/main.py`). It covers the upload endpoint, with its four checks, the unique file names and the queueing; the status endpoint; the download endpoint; the delete endpoint; and the queue endpoint.
- **The settings** that `backend/config.py` derives from the environment.
- **The upload validators and the ClamAV verdict** (`backend/utils/file_handler.py`).
- **The retention sweeper** (`backend/utils/file_cleanup.py`).
- **The Celery worker's two tasks and its configuration** (`backend/celery_worker.py`).
- **The DeepFilterNet wrapper** (`backend/utils/audio_processor.py`). This covers the lazy model loading with retries, the chunked enhancement with its crossfade merge, normalisation and gain, loading and saving with the WAV fallback, and `process_file`.

## How the model is built

- Everything outside the core becomes an input of the model. This covers libmagic, ClamAV, DeepFilterNet, librosa, soundfile, pydub, Redis, Celery's broker and result backend, the clock and `uuid4`. What each of them returns or raises is passed in as a value.
- Objects whose fields the source updates in place are classes:
  - the audio processor and its `initialized` flag;
  - a task's entry in the result backend;
  - the file system;
  - the Redis metadata store;
  - the broker's list of submitted tasks.
- Each handler that changes state is a method proved against a specification function. The lemmas state the properties of those functions.

Modules:

- `Wrappers` holds Option and Result.
- `Strings` and `Paths` model the parts of `str` and `pathlib` that the core uses.
- `Json` and `Tasks` hold JSON values and Celery task records.
- `Config`, `FileHandling`, `FileCleanup`, `Chunking` (the chunk loop and `_merge_chunks`), `AudioProcessing`, `Worker` and `Gateway` each follow one source file.

Three behaviours of the code differ from what the repository's own tests and messages lead one to expect. The model follows the code:

- A task in Celery's `PROGRESS` state is reported with status `"progress"` and progress 0 (`backend/main.py:257-286`). The test at `backend/tests/test_api.py:203-212` expects `"processing"` and the progress from the task's info (`Gateway.ProgressStateIsNotProcessing`).
- The fallback message `'Unknown error during processing'` at `backend/celery_worker.py:101` can never be raised. `process_file` always puts an `error` into a failed result (`Worker.TaskOutcomeFacts`).
- The merged output of a chunked enhancement can be longer than the input. See Findings.

## Model

| member | source | states |
|---|---|---|
| Config.IntSetting | backend/config.py:13 | Defines `int(os.getenv(key, default))`: the default when unset, else the text parsed by `int`'s base-10 grammar (surrounding whitespace stripped, which is ASCII `\t\n\v\f\r` and space plus the non-ASCII spaces but not U+001C to U+001F, then single underscores between digits), or None for the `ValueError` that aborts the import. Its meaning is stated by `Config.LoadSucceeds` and `Config.IntSettingPadded`. |
| Config.IntSettingPadded | backend/config.py:13-55 | An integer variable with whitespace that `int` strips around its number reads as that number. |
| Config.SeparatorPortFails | backend/config.py:13 | `PORT="\x1c8000"` aborts the import, because `int` does not strip U+001C. |
| Config.PaddedPortLoads | backend/config.py:13 | `PORT="8000 "` loads, with port 8000. |
| Config.FloatSetting | backend/config.py:59-61 | Defines `float(os.getenv(key, default))` the same way, with Python's `float` on the text as a parameter. |
| Config.BoolSetting | backend/config.py:14 | Defines a flag as the lower-cased variable (default "False") equal to "true". Its meaning is stated by `Config.BoolSettingMeaning`. |
| Config.ListSetting | backend/config.py:19 | Defines a list setting as the variable (or default) split on commas. Stated by `Config.ListSettingRoundTrip`. |
| Config.RedisUrl | backend/config.py:37 | Defines `redis://host:port/db`. Stated by `Config.RedisUrlRoundTrip`. |
| Config.Load | backend/config.py:9-61 | Defines every module-level setting from the environment, or None when a numeric setting does not parse. Stated by `Config.LoadSucceeds` and `Config.Defaults`. |
| Config.LoadSucceeds | backend/config.py:13-61 | The import succeeds exactly when every integer and float variable that is set parses. |
| Config.MaxFileSizeBytes | backend/config.py:17-18 | The byte limit is a whole number of MiB: dividing by 1048576 gives the MB setting back with no remainder. |
| Config.RetentionSeconds | backend/config.py:30-31 | Retention in seconds is whole minutes: dividing by 60 gives the minutes back. |
| Config.BoolSettingMeaning | backend/config.py:14 | A flag is on exactly when the variable is set and reads "true" in any case. |
| Config.ListSettingRoundTrip | backend/config.py:19 | Splitting a list setting on commas loses nothing. The pieces joined with commas give back the variable's text, and no piece contains a comma. |
| Config.ListSettingOfJoin | backend/config.py:19 | A variable holding comma-free names joined by commas is read back as exactly those names. |
| Config.RedisUrlRoundTrip | backend/config.py:34-37 | The Redis URL parses back to the configured host, port and database, for any host without ':' or '/'. |
| Config.ParseUrlParts | backend/config.py:37 | A URL `redis://host:port/db` built from ':'- and '/'-free parts parses into those parts, or into None when the port or db is not an integer. |
| Config.DefaultExtensionList | backend/config.py:19 | The default `ALLOWED_EXTENSIONS` splits into mp3, wav, ogg, m4a, flac, aac and wma, in that order. |
| Config.LoadedExtensions | backend/config.py:19 | The allowed extensions are the set of the comma-separated entries. |
| Config.DefaultExtensions | backend/config.py:19 | With nothing set, the allowed extensions are those seven. |
| Config.DefaultNumbers | backend/config.py:17-61 | With nothing set, the settings load, with 52428800 bytes, 600 s of retention, 2048 MB of worker memory, 48000 Hz, a 12 dB attenuation limit and 0 dB gain. |
| Config.DefaultFlags | backend/config.py:14-46 | With nothing set, debug and virus scanning are off. |
| Config.DefaultRedis | backend/config.py:34-41 | With nothing set, Redis is localhost:6379 db 0, and it is both broker and result backend. |
| Config.DefaultDirs | backend/config.py:22-23 | The default directory names join below the base directory. |
| Config.DefaultDirectories | backend/config.py:22-23 | With nothing set, the directories are `uploads` and `processed` below the base directory. |
| Config.Defaults | backend/config.py:12-61 | Every default at once: 50 MB, ten minutes, flags off, the seven extensions, the Redis URLs, 2048 MB, both directories, 48000 Hz, 12 dB and 0 dB. |
| Strings.Lower | backend/utils/file_handler.py:41 | `lower()` keeps the length and lower-cases each character independently. |
| Strings.JoinSplit | backend/config.py:19 | Joining the pieces of `split(",")` gives back the text. |
| Strings.SplitJoin | backend/config.py:19 | Splitting a join of separator-free pieces gives back the pieces. |
| Strings.ParseIntToString | backend/config.py:35-37 | `int(str(i)) == i` for every integer. |
| Strings.ParseIntPadded | backend/config.py:13-55 | `int` ignores the whitespace it strips around the number: ASCII `\t\n\v\f\r` and space, and the non-ASCII characters `str.isspace` accepts. |
| Strings.ParseIntRejectsSeparators | backend/config.py:13-55 | `int` refuses a number with one of U+001C to U+001F at either end. `str.isspace` accepts these, but `int` does not strip them. |
| Strings.ParseIntUnderscore | backend/config.py:13-55 | `int` reads one underscore between two digit groups as nothing, so `int("8_000") == int("8000")`. |
| Strings.ParseIntRejectsBlank | backend/config.py:13-55 | `int` refuses empty text and text that is only whitespace. |
| Strings.ParseIntRejectsUnderscores | backend/config.py:13-55 | `int` refuses any number, signed or not, with a leading, trailing or doubled underscore. |
| Strings.ParseIntRejectsSign | backend/config.py:13-55 | `int` refuses a lone sign and whitespace between the sign and the digits. |
| Paths.StemSuffix | backend/main.py:147-148 | Stem and suffix split a name with nothing lost. The directory prefix and the name make up the path. |
| Paths.WithSuffixShape | backend/utils/audio_processor.py:272 | `with_suffix(ext)` keeps the directory and the stem, and yields the new suffix. |
| Paths.JoinedIsDirectlyIn | backend/main.py:145 | A file written to `d / name` is listed by `d.iterdir()` under that name. |
| FileHandling.Reject | backend/utils/file_handler.py:32-55 | A rejection is invalid and carries its message. |
| FileHandling.ValidateFileSize | backend/utils/file_handler.py:32-37 | A file is accepted exactly when it is at most the limit. A rejection names the limit in MB, and every verdict carries a message exactly when it rejects. |
| FileHandling.ExtensionOf | backend/utils/file_handler.py:41 | The extension has no dot and is lower case. It is empty when the name has no dot. |
| FileHandling.ExtensionOfDotted | backend/utils/file_handler.py:41 | The extension is the lower-cased text after the last dot. |
| FileHandling.ExtensionCaseInsensitive | backend/utils/file_handler.py:41 | The extension does not depend on the case of the name. |
| FileHandling.ValidateFileExtension | backend/utils/file_handler.py:39-44 | A file is accepted exactly when its extension is in the allowed list, and the verdict is well formed. |
| FileHandling.ExtensionCheckIgnoresCase | backend/utils/file_handler.py:39-44 | Upper- and lower-case spellings of a name get the same verdict. |
| FileHandling.NoDotRejected | backend/utils/file_handler.py:41-43 | A name without a dot is rejected unless "" is allowed. |
| FileHandling.ValidateMimeType | backend/utils/file_handler.py:46-55 | A file is accepted exactly when libmagic reports an allowed audio type. A libmagic exception rejects with "Error validating file type: " and its text. |
| FileHandling.UniqueExtension | backend/utils/file_handler.py:59 | The kept extension has no dot. |
| FileHandling.GenerateUniqueFilename | backend/utils/file_handler.py:57-61 | The name is the id, a dot and the extension, with that length. |
| FileHandling.UniqueNameExtension | backend/utils/file_handler.py:57-61 | The generated name's extension is the original's lower-cased extension, or "bin". |
| FileHandling.UniqueNameKeepsValidity | backend/utils/file_handler.py:39-61 | Renaming a dotted upload never changes whether its extension is accepted. |
| FileHandling.UniqueNamesDistinct | backend/utils/file_handler.py:57-61 | Different dot-free ids give different stored names. |
| FileHandling.VirusScanner.constructor | backend/utils/file_handler.py:71-90 | Scanning stays on only when it was requested and pyclamd imports, connects and answers the ping. |
| FileHandling.VirusScanner.ScanFile | backend/utils/file_handler.py:92-118 | A file is clean exactly when scanning is off or ClamAV reports nothing. A finding is rejected with the virus name, or "Unknown". A client error is rejected with its text (fail safe). |
| FileHandling.FailedProbeAcceptsAll | backend/utils/file_handler.py:78-101 | A scanner whose probe failed accepts every file. |
| FileCleanup.FileSystem.constructor | backend/utils/file_cleanup.py:24-45 | The file system holds the given entries, the paths whose unlink fails and the directories whose listing fails. |
| FileCleanup.Cleared | backend/utils/file_cleanup.py:29-42 | One directory pass removes only existing, unlocked regular files. |
| FileCleanup.Swept | backend/utils/file_cleanup.py:24-45 | A sweep removes only existing, unlocked regular files. |
| FileCleanup.SweptExactly | backend/utils/file_cleanup.py:24-45 | A file is swept exactly when it is a regular file directly in a listed, readable directory, older than the cutoff, and its unlink succeeds. |
| FileCleanup.SweepSpares | backend/utils/file_cleanup.py:30-36 | Directories, files at or after the cutoff, locked files and files outside the listed directories survive. |
| FileCleanup.ClearedAfterRemoval | backend/utils/file_cleanup.py:24-45 | Removing files does not change what a later pass over another directory finds, less what was already removed. |
| FileCleanup.SweepStep | backend/utils/file_cleanup.py:24-45 | Sweeping one more directory removes what that pass clears and counts each removed file once. |
| FileCleanup.AfterDelete | backend/utils/file_cleanup.py:52-62 | `delete_file` removes its path when it deletes, and no other path. |
| FileCleanup.DeleteIdempotent | backend/utils/file_cleanup.py:52-62 | A second `delete_file` of a path deletes nothing and changes nothing. |
| FileCleanup.FileAge | backend/utils/file_cleanup.py:64-70 | The age is 0 for a missing file, else the time since its modification. |
| FileCleanup.TimeUntilDeletion | backend/utils/file_cleanup.py:72-76 | The time left is the retention minus the age, floored at 0. |
| FileCleanup.TimeLeftMeansKept | backend/utils/file_cleanup.py:17-76 | A file that still shows time left survives a sweep made at that moment. |
| FileCleanup.FileCleanupManager.constructor | backend/utils/file_cleanup.py:13-15 | The manager keeps its directories and retention. |
| FileCleanup.FileCleanupManager.SweepDirectory | backend/utils/file_cleanup.py:25-45 | One directory pass leaves exactly the old files less `Cleared`, and returns how many went. |
| FileCleanup.FileCleanupManager.CleanupOldFiles | backend/utils/file_cleanup.py:17-50 | A sweep at `now` removes exactly `Swept` with cutoff `now - retention`, and returns its size. |
| FileCleanup.FileCleanupManager.DeleteFile | backend/utils/file_cleanup.py:52-62 | The result is true exactly when the file existed, was a regular file and unlinked. The new file system is `AfterDelete`. |
| FileCleanup.FileCleanupManager.GetFileAgeSeconds | backend/utils/file_cleanup.py:64-70 | The age of a file in the manager's file system is `FileAge`. |
| FileCleanup.FileCleanupManager.GetTimeUntilDeletion | backend/utils/file_cleanup.py:72-76 | The countdown uses the manager's retention. |
| Chunking.ChunkOverlap | backend/utils/audio_processor.py:168 | The overlap is at most the configured one and a quarter chunk, so it is shorter than a chunk. |
| Chunking.WindowsFrom | backend/utils/audio_processor.py:167-188 | Defines the windows the chunk loop visits: from `start`, one chunk or up to the end, the next starting `overlap` before this one's end. Stated by the `Windows*` lemmas below. |
| Chunking.WindowsInBounds | backend/utils/audio_processor.py:167-188 | Every window the loop visits is a non-empty range inside the signal, at most one chunk long. |
| Chunking.WindowsEnds | backend/utils/audio_processor.py:167-188 | The windows start at the loop's start and the last ends at the end of the signal. |
| Chunking.WindowsChain | backend/utils/audio_processor.py:167-188 | Consecutive windows share exactly the overlap, and all but the last are full chunks. |
| Chunking.WindowsCover | backend/utils/audio_processor.py:167-188 | Every sample lies in some window. |
| Chunking.WindowSamplesTotal | backend/utils/audio_processor.py:167-188 | The windows hold the signal plus one overlap per boundary. |
| Chunking.WindowsLong | backend/utils/audio_processor.py:167-188 | When the signal is longer than the overlap, so is every window. |
| Chunking.EnhancedChunks | backend/utils/audio_processor.py:167-188 | There is one enhanced chunk per window. |
| Chunking.EnhancedChunksMatch | backend/utils/audio_processor.py:167-188 | A length-keeping enhancer gives chunks as long as their windows. |
| Chunking.EnhanceChunks | backend/utils/audio_processor.py:167-188 | The loop collects exactly the enhanced window slices, in order. |
| Chunking.ConcatLength | backend/utils/audio_processor.py:235-236 | A concatenation is as long as its chunks together. |
| Chunking.MinLength | backend/utils/audio_processor.py:239 | The minimum is at most every chunk's length and equals one of them. |
| Chunking.Blend | backend/utils/audio_processor.py:253-256 | The crossfade keeps the overlap's length. |
| Chunking.Extend | backend/utils/audio_processor.py:250-261 | One more chunk adds its length less the overlap. |
| Chunking.MergeSpec | backend/utils/audio_processor.py:243-261 | The merge is at least as long as the first chunk. |
| Chunking.MergeLength | backend/utils/audio_processor.py:240 | The merge is the chunks' total length less one overlap per boundary, which is the buffer size line 240 allocates. |
| Chunking.MergeWithoutOverlap | backend/utils/audio_processor.py:235-236 | With no overlap the crossfade merge is plain concatenation. |
| Chunking.SafeOverlapAsWritten | backend/utils/audio_processor.py:239 | `safe_overlap` as written fits every chunk. |
| Chunking.SafeOverlapAligned | backend/utils/audio_processor.py:239 | The corrected overlap fits every chunk. |
| Chunking.MergeChunksAsWritten | backend/utils/audio_processor.py:230-263 | No chunks merge to nothing. Otherwise the output is the total length less `safe_overlap` per boundary. |
| Chunking.MergeChunksAligned | backend/utils/audio_processor.py:230-263 | The same merge with the windows' own overlap, capped by the shortest chunk. |
| Chunking.AsWrittenAgreesOnLongChunks | backend/utils/audio_processor.py:239 | The two merges agree when every chunk is at least twice the overlap. |
| Chunking.CopyInto | backend/utils/audio_processor.py:246-260 | The slice assignment writes the chunk at its position and nothing else. |
| Chunking.BlendInto | backend/utils/audio_processor.py:253-256 | The crossfade rewrites exactly the overlap region with `prev * (1 - f) + next * f`. |
| Chunking.AppendChunk | backend/utils/audio_processor.py:250-261 | One loop iteration turns the written prefix into `Extend` of it and returns the new write position. |
| Chunking.ExtendAt | backend/utils/audio_processor.py:250-261 | Each merged sample is untouched, blended or appended, by position. |
| Chunking.MergePrefixShorter | backend/utils/audio_processor.py:243-261 | Merging a prefix of the chunks never gives more samples than merging all of them. |
| Chunking.MergedPrefix | backend/utils/audio_processor.py:243-261 | A merged prefix fits in the output buffer. |
| Chunking.MergeStep | backend/utils/audio_processor.py:250-261 | Merging one more chunk is one blend-and-append. |
| Chunking.MergeEnds | backend/utils/audio_processor.py:243-261 | One chunk merges to itself, and all of them merge to the whole merge. |
| Chunking.MergeInto | backend/utils/audio_processor.py:240-263 | The buffer loop produces exactly `MergeSpec`. |
| Chunking.ToArray | backend/utils/audio_processor.py:232-236 | The fresh array holds the given samples. |
| Chunking.MergeChunks | backend/utils/audio_processor.py:230-263 | `_merge_chunks` as written returns `MergeChunksAsWritten`. |
| Chunking.MergeChunksFixed | backend/utils/audio_processor.py:230-263 | The corrected merge returns `MergeChunksAligned`. |
| Chunking.ChunkSamples | backend/utils/audio_processor.py:167-188 | Chunks as long as their windows hold as many samples as the windows. |
| Chunking.ChunkFacts | backend/utils/audio_processor.py:162-188 | With chunking in use, every chunk is longer than the overlap, and the chunks hold the signal plus one overlap per boundary. |
| Chunking.AlignedMergeKeepsLength | backend/utils/audio_processor.py:162-263 | The corrected merge returns exactly as many samples as the signal had. |
| Chunking.AsWrittenMergeLength | backend/utils/audio_processor.py:239-240 | As written, each boundary adds `overlap - safe_overlap` samples: the output is never shorter than the input, and longer when some chunk is shorter than twice the overlap. |
| Chunking.FirstWindowFull | backend/utils/audio_processor.py:167-188 | A signal longer than one chunk is cut into at least two windows, the first a full chunk. |
| Chunking.LongWindowsKeepLength | backend/utils/audio_processor.py:239-240 | When no window is shorter than twice the overlap, the merge as written returns exactly as many samples as the signal had. |
| Chunking.ShortLastChunkCounterexample | backend/utils/audio_processor.py:239-240 | A 101-sample signal with 100-sample chunks and overlap 25 merges to 113 samples. |
| Chunking.DefaultSettingsCounterexample | backend/utils/audio_processor.py:239-240 | At the worker's settings, a signal one sample longer than a chunk comes back 1200 samples too long. |
| AudioProcessing.SamplesFor | backend/utils/audio_processor.py:30-35 | The sample count is the truncated product for positive durations, and 0 otherwise. |
| AudioProcessing.DefaultChunking | backend/utils/audio_processor.py:19-35 | At 48 kHz the default chunks are 1440000 samples and the overlap is 2400. |
| AudioProcessing.Backoff | backend/utils/audio_processor.py:72-74 | There is one sleep per failed attempt. |
| AudioProcessing.FirstReady | backend/utils/audio_processor.py:61-74 | It finds the first attempt that loads the model, or none. |
| AudioProcessing.InitializeSpec | backend/utils/audio_processor.py:49-83 | Defines loading from the unloaded state: the sleeps made and the error raised. Stated by `AudioProcessing.InitializeRetries`. |
| AudioProcessing.InitializeRetries | backend/utils/audio_processor.py:49-83 | Loading succeeds exactly when the import works and some attempt does. The sleeps are 1, 2, 4 s, one per failed attempt before the first that loads, which is the attempt right after the last sleep. When all fail, the message reports the last failure under both prefixes. |
| AudioProcessing.Peak | backend/utils/audio_processor.py:146 | The peak bounds every sample's magnitude and is reached. |
| AudioProcessing.Normalize | backend/utils/audio_processor.py:146-147 | Normalising keeps the length. |
| AudioProcessing.NormalizeBounds | backend/utils/audio_processor.py:146-147 | Normalised audio lies in [-1, 1], and audio already in range is left alone. |
| AudioProcessing.Clip | backend/utils/audio_processor.py:197 | Clipping lands in [-1, 1] and leaves in-range samples alone. |
| AudioProcessing.Amplify | backend/utils/audio_processor.py:193-197 | The gain keeps the length, lands in [-1, 1], and only scales samples that stay in range. |
| AudioProcessing.WavPath | backend/utils/audio_processor.py:271-272 | Defines `output_path.with_suffix('.wav')`, None for a target without a name. Stated by `AudioProcessing.WavPathShape`. |
| AudioProcessing.WavPathShape | backend/utils/audio_processor.py:271-272 | The WAV path exists exactly for named targets. It keeps the directory and stem and has a ".wav" suffix. |
| AudioProcessing.SaveAudio | backend/utils/audio_processor.py:265-305 | Defines `save_audio`: the path returned or the error raised, given the outcomes of `mkdir`, the WAV write and the conversion. Stated by `AudioProcessing.SaveAudioChoice`. |
| AudioProcessing.SaveAudioChoice | backend/utils/audio_processor.py:265-305 | Saving succeeds exactly when the directory and WAV writes work and the target has a name. The requested non-WAV path is returned only after a conversion left a non-empty file, and otherwise the WAV path is returned. Errors carry the save prefix. |
| AudioProcessing.AudioProcessor.constructor | backend/utils/audio_processor.py:17-37 | A new processor has its sample rate, chunk and overlap sample counts and enhancement settings, and is not initialised. |
| AudioProcessing.AudioProcessor.Initialize | backend/utils/audio_processor.py:49-83 | A loaded model is left alone. Otherwise the sleeps and error are `InitializeSpec`, and the processor is loaded exactly when no error occurred. |
| AudioProcessing.AudioProcessor.Enhanced | backend/utils/audio_processor.py:136-205 | Defines `enhance_audio` once the model is loaded: normalise, enhance whole or chunk by chunk with the as-written merge, then apply the gain. Stated by the lemmas below. |
| AudioProcessing.AudioProcessor.EnhanceSpec | backend/utils/audio_processor.py:116-205 | Defines `enhance_audio` from either state: a loading error propagates unchanged, otherwise `Enhanced`. |
| AudioProcessing.AudioProcessor.EnhancedKeepsLength | backend/utils/audio_processor.py:116-263 | With a length-keeping model, enhancement succeeds exactly on non-empty audio without a model error. It never returns fewer samples than it was given, and exactly as many when the audio is not chunked or no window is shorter than twice the overlap. A gain keeps the samples in [-1, 1]. |
| AudioProcessing.AudioProcessor.EnhancedChunkedLength | backend/utils/audio_processor.py:162-263 | Chunked audio comes back longer by `overlap - safe_overlap` samples per chunk boundary, with at least two chunks. |
| AudioProcessing.AudioProcessor.EnhancedUsesOverrides | backend/utils/audio_processor.py:116-205 | For all audio, a missing override means the processor's own attenuation and gain. With both overrides given, any processor with the same chunking returns the same result. |
| AudioProcessing.AudioProcessor.EnhancedSinglePass | backend/utils/audio_processor.py:146-205 | Audio within one chunk is normalised, enhanced with the given attenuation and amplified by the given gain. Empty audio fails with numpy's message under the enhancement prefix. |
| AudioProcessing.AudioProcessor.EnhanceAudio | backend/utils/audio_processor.py:116-205 | `enhance_audio`, with `_merge_chunks` as written, returns `EnhanceSpec` and leaves the model loaded exactly when it was or loading worked. |
| AudioProcessing.AudioProcessor.LoadAudio | backend/utils/audio_processor.py:85-114 | Loaded audio is at the target rate, unchanged when no resampling is needed. It fails exactly when reading or the needed resampling fails, with the load prefix. |
| AudioProcessing.AudioProcessor.ProcessSpec | backend/utils/audio_processor.py:307-355 | Defines `process_file` from either state: load, compute the duration, enhance, save, and report. Stated by `AudioProcessing.AudioProcessor.ProcessOutcome`. |
| AudioProcessing.AudioProcessor.ProcessOutcome | backend/utils/audio_processor.py:307-355 | A run succeeds exactly when loading, the duration, enhancement and saving work. It then reports the target rate, the loaded duration, the saved path and the size in bytes and MB. Otherwise it reports the error. |
| AudioProcessing.AudioProcessor.ProcessFile | backend/utils/audio_processor.py:307-355 | `process_file` returns `ProcessSpec`. The model is loaded afterwards exactly when it was before, or the audio loaded at a non-zero rate and loading the model worked. |
| AudioProcessing.AudioProcessor.Saved | backend/utils/audio_processor.py:333-355 | An enhancement error is reported as is, and a success reports the given duration and rate. |
| Worker.MaxMemoryPerChildKb | backend/celery_worker.py:32-34 | The memory limit is 0 (off) for a non-positive setting, else the MB in KiB. |
| Worker.DefaultAttenuation | backend/celery_worker.py:43-47 | A negative attenuation setting means no limit, and any other is kept. |
| Worker.SharedProcessor | backend/celery_worker.py:41-49 | The shared processor uses the configured rate, 30 s chunks, 50 ms overlap, `NOISE_ATTENUATION_LIMIT_DB` (none when negative) and `OUTPUT_GAIN_DB`, and is not loaded. |
| Worker.NumberOption | backend/celery_worker.py:74-76 | An absent option is None, and a number is read as itself. |
| Worker.TaskOutcome | backend/celery_worker.py:86-107 | Defines what the task returns or raises from `process_file`'s result. Stated by `Worker.TaskOutcomeFacts`. |
| Worker.TaskOutcomeFacts | backend/celery_worker.py:86-107 | A task returns exactly when processing succeeded, with progress 100, its id, the written path and the rate. Otherwise it raises the processor's error. |
| Worker.Settle | backend/celery_worker.py:86-107 | A return is stored as SUCCESS with the dictionary, and a raise as FAILURE with the exception. |
| Worker.TaskEntry.constructor | backend/celery_worker.py:52-72 | A new entry has no history. |
| Worker.TaskEntry.Current | backend/celery_worker.py:27-72 | A reader sees the last state written, or PENDING before any. |
| Worker.TaskEntry.Write | backend/celery_worker.py:66-72 | Writing appends one state. |
| Worker.ProcessAudioTask | backend/celery_worker.py:52-107 | A task run writes STARTED, PROCESSING and the settled outcome, in that order, so every state it writes is one of those four and the last is SUCCESS or FAILURE. Its outcome is `process_file` with the options' overrides, and the shared processor is loaded afterwards exactly as `ProcessFile` says. |
| Worker.CleanupFilesTask | backend/celery_worker.py:110-122 | The cleanup task sweeps the upload and processed directories with the configured retention and returns the count. |
| Gateway.GetTaskStatus | backend/main.py:233-325 | Defines `get_task_status`: the status table, the download check, the error text and the 500 on bad values. Stated by the status lemmas below. |
| Gateway.InfoSeen | backend/main.py:262-268 | An unreadable payload counts as none, and any other is kept. |
| Gateway.StatusTable | backend/main.py:233-293 | It gives the name, progress and queue position for PENDING, PROCESSING, SUCCESS, FAILURE and any other state. |
| Gateway.ProgressStateIsNotProcessing | backend/main.py:270-286 | A PROGRESS state is reported as "progress" with progress 0. |
| Gateway.StatusFailsOnlyOnBadValues | backend/main.py:247-325 | The status lookup fails (500, with its prefix) exactly on non-object metadata or a finished task whose output path is not a string. |
| Gateway.FailureErrorText | backend/main.py:308-319 | Only failed tasks carry an error. Its text is the dictionary's, the exception's, the value's text or a placeholder. |
| Gateway.DownloadReadyRule | backend/main.py:296-305 | A download is offered exactly for a finished task whose output file exists, with the cleanup countdown. |
| Gateway.StartedAsSeen | backend/main.py:270-293 | The worker's STARTED record reads as "started". |
| Gateway.ProcessingAsSeen | backend/main.py:270-293 | The worker's PROCESSING record reads as "processing" with progress 10 and queue position 0. |
| Gateway.SettledAsSeen | backend/main.py:270-319 | The worker's final record reads as "completed" with progress 100 and a download exactly when the file exists. Otherwise it reads as "failed" with the processor's error. |
| Gateway.Clamp | backend/main.py:203 | The slider value is clamped into [0, 10], and in-range values are kept. |
| Gateway.Round2 | backend/main.py:206 | Defines `round(x, 2)`, rounding halves up. Stated by `Gateway.Round2Between`. |
| Gateway.ProcOptions | backend/main.py:199-206 | Defines the options built from the slider. Stated by `Gateway.ProcOptionsBounds` and `Gateway.ProcOptionsExamples`. |
| Gateway.Round2Between | backend/main.py:206 | Rounding keeps a gain in [1, 2] within [1, 2]. |
| Gateway.ProcOptionsBounds | backend/main.py:199-206 | Without a slider the options are empty. With one, the attenuation lies in [6, 26] dB and the gain in [1, 2] dB. |
| Gateway.ProcOptionsExamples | backend/main.py:199-206 | The midpoint gives 16 dB and 1.5 dB, and values beyond the ends count as the ends. |
| Gateway.WorkerReadsOptions | backend/main.py:199-206 | The worker reads back exactly the options the gateway chose. |
| Gateway.QueueStatus | backend/main.py:433-468 | Defines `get_queue_status`. Stated by `Gateway.QueueTotals`. |
| Gateway.SumCountsEveryTask | backend/main.py:178-179 | The sum counts every task of every worker once. |
| Gateway.SumAppend | backend/main.py:178-179 | Counting more workers adds their tasks. |
| Gateway.QueueTotals | backend/main.py:433-468 | The total is active plus pending and counts every listed task. A failed inspection gives zeros and its error. |
| Gateway.QueueExample | backend/main.py:433-468 | Two active tasks and one reserved give 2, 1 and 3. |
| Gateway.ProcessedName | backend/main.py:143-149 | Defines the processed file's name. Stated by `Gateway.ProcessedNameFromId`. |
| Gateway.DownloadName | backend/main.py:359-371 | Defines the name the download is sent under. Stated by `Gateway.DownloadNameShape` and `Gateway.DownloadNameDefault`. |
| Gateway.ProcessedNameFromId | backend/main.py:143-149 | The processed file is "enhanced_" plus the id plus the lower-cased suffix, or ".wav". |
| Gateway.DownloadNameShape | backend/main.py:359-371 | The download name is "enhanced_" before the uploaded name, with its suffix as sent. |
| Gateway.StoredName | backend/main.py:359-371 | A stored name is sent in its enhanced form. |
| Gateway.DefaultFilename | backend/main.py:359-371 | The fallback name "audio.wav" has stem "audio" and suffix ".wav". |
| Gateway.DownloadNameDefault | backend/main.py:359-371 | Without a stored name the file is sent as "enhanced_audio.wav". |
| Gateway.Download | backend/main.py:328-384 | Defines `download_processed_audio`. Stated by `Gateway.DownloadRules`. |
| Gateway.DownloadRules | backend/main.py:328-384 | A file is sent, under the stored name, exactly for a finished task with a readable result whose path exists. A result without `output_path` names `Path('')`, the working directory, which exists and is sent. A named path that does not exist is a 404. An unfinished task is a 400 naming its state. |
| Gateway.DownloadAfterWorker | backend/main.py:328-384 | After the worker, the download sends the processor's file when it exists. A failed task is not ready. |
| Gateway.UploadSpec | backend/main.py:116-230 | Defines `upload_audio` on a state: the four checks, the write, the discard and the queueing. Stated by the upload lemmas below. |
| Gateway.CheckOrder | backend/main.py:129-167 | The checks run in the order extension, size, type, scan. Each is reached only after the earlier ones pass, and an upload passes exactly when all four do. |
| Gateway.RejectedBeforeWrite | backend/main.py:129-140 | A name or size rejection is a 400 and changes nothing. |
| Gateway.WrittenThenScreened | backend/main.py:143-167 | After the name and size checks and the write, the upload goes on with the file recorded. |
| Gateway.RejectedAfterWrite | backend/main.py:157-230 | A type or virus rejection submits nothing and stores nothing. It removes the written file and answers 400, or answers 500 and keeps the file when the removal fails. |
| Gateway.FailedToDiscard | backend/main.py:157-167 | A type or virus failure goes on to removing the written file with that check's message. |
| Gateway.ScreenedDiscards | backend/main.py:157-167 | A failed type check, or a failed scan after a passed type check, discards the upload with that check's message. |
| Gateway.UploadAccepted | backend/main.py:143-224 | An accepted upload is stored, submitted once with its options and paths, and answered with its queue position and 30 s per task ahead. Its metadata records that position. |
| Gateway.Queued | backend/main.py:169-224 | The queueing step stores metadata where it can, submits once and answers with the position. |
| Gateway.PassedToAccept | backend/main.py:143-212 | An upload passing every check goes on to the queueing step with the file written. |
| Gateway.UploadThenStatus | backend/main.py:183-371 | A fresh upload reads back as queued at its reported position, and its download carries the uploaded name. |
| Gateway.Store.constructor | backend/main.py:58-69 | A store holds its connection flag and metadata. |
| Gateway.Store.Lookup | backend/main.py:247-255 | A lookup finds metadata exactly when Redis is there and holds the task. |
| Gateway.Broker.constructor | backend/main.py:208-212 | A new broker has no submissions. |
| Gateway.DiscardRejected | backend/main.py:160-230 | A rejected upload is unlinked with a 400, or a 500 when the unlink fails and the file stays. |
| Gateway.UploadAudio | backend/main.py:116-230 | `upload_audio` leaves the files, metadata and submissions and answers as `UploadSpec` says. |
| Gateway.ScreenWritten | backend/main.py:157-224 | The checks on the saved file and the queueing match `Screened`. |
| Gateway.Enqueue | backend/main.py:169-224 | The queueing matches `Accept`. |
| Gateway.DeletionTargets | backend/main.py:399-405 | Defines the two paths `delete_files` acts on, or None when the metadata is missing or not usable. |
| Gateway.Reported | backend/main.py:408-414 | Defines the names `delete_files` reports. Stated by `Gateway.DeleteReport`. |
| Gateway.DeleteReport | backend/main.py:408-426 | The deletion answer always succeeds. It reports "No files found to delete" exactly when neither file existed, and lists only names of files that existed. |
| Gateway.DeleteFiles | backend/main.py:387-430 | `delete_files` deletes both listed paths where they exist, drops the metadata and reports their names. Without usable metadata it changes nothing. |
| Gateway.DeleteListed | backend/main.py:408-414 | Each `delete_file` is made only for an existing path, and the names are those paths'. |

## Left out

- Float formatting: `FileHandling.ValidateFileSize` states the MB text only for whole mebibytes (the limit always is one). Python's printing of other floats is not modelled.
- The order in which Python iterates a `set`: `FileHandling.FileHandler` takes the allowed extensions as a sequence in that order, so the rejection message lists them as given.
- `Gateway.Round2`: rounds halves up. Python's `round` rounds binary floats, where halves are rare and round to even. The bound the gain keeps does not depend on it.
- Samples are reals. float32 rounding and DeepFilterNet's DSP are outside the model, and the enhancer is a function parameter assumed to keep lengths where a lemma says so.
- `pathlib` is modelled on POSIX strings without normalisation (`..`, repeated slashes, a trailing slash, which pathlib drops, so that `x/` has the name `x`). Only the empty path is printed as pathlib prints it, as `PosixPath('.')`.
- Gateway.PathTypeError: the `TypeError` text that `Path()` raises for a non-string is Python 3.11's ("expected str, bytes or os.PathLike object, not int"). From Python 3.12 on, pathlib says "argument should be a str or an os.PathLike object where __fspath__ returns a str, not 'int'" instead. The repository does not pin a Python version. The text only reaches the 500 details of `Gateway.GetTaskStatus` and `Gateway.Download`.
- `Strings.Lower` lower-cases ASCII letters only; Unicode case mapping is not modelled.
- Config.IntSetting: `int` also accepts decimal digits outside ASCII (such as Arabic-Indic digits), which the model reads as a failed parse that aborts the import. Surrounding whitespace, with U+001C to U+001F left unstripped, and underscores between digits are modelled.
- Strings.ParseIntToString: Python (3.11 on, and the security releases of 3.7 to 3.10) refuses `int()` of text with more than 4300 digits, and `str()` of an integer that long, with `ValueError`. The model has no such limit, so `Strings.ParseInt`, `Config.IntSetting`, `Config.LoadSucceeds` and the round trip also accept longer numbers.
- I/O, `time.sleep`, `psutil` memory logging, logging, `mkdir` of the directories, the `.env` file and torch tensors are left out. Their outcomes enter as values.
- Redis TTLs (`setex` expiry) are left out: stored metadata never expires in the model. Celery's scheduling, prefetch, time limits and child recycling are kept only as constants, and the beat schedule (`backend/celery_worker.py:125-133`) is not modelled.
- `Worker.NumberOption`: non-numeric options are read as None. The gateway only ever stores numbers there.
- The health and root endpoints (`backend/main.py:72-113`), the CORS middleware and the application setup are not part of this model.
- `Config.DefaultAllowedExtensions` is defined as the comma-join of the seven default extensions. This is the same text as the literal in `backend/config.py:19`.
- `AudioProcessing.AudioProcessor.LoadAudio`: the stereo-to-mono step is part of the loaded value passed in, not modelled sample by sample.
- `Chunking.MergeChunks`: only the length and the merge function are stated for chunk lists whose shortest chunk is below the overlap. This is the as-written behaviour, kept to exhibit the finding below.
- Worker.SharedProcessor: requires a non-negative `AUDIO_SAMPLE_RATE`. `backend/config.py:55` accepts any integer. A negative rate would give negative chunk and overlap sizes, which the processor's natural-number sample counts cannot hold.
- Config.FloatSetting: Python's `float` on the variable's text (signs, exponents, "inf", "nan", underscores) is the parameter `parseFloat`. The model states only that a failed parse aborts the import.
- Gateway.GetTaskStatus: a SUCCESS payload without `output_path` reads as `Path('')`, which is the current directory and exists, so the source offers a download (`backend/main.py:297-298`). The model looks the empty path up in the file system like any other, so that download is not offered. The countdown would need the working directory's modification time, which is not an input. `Gateway.Download` does treat the empty path as the existing working directory.
- Gateway.DeletionTargets: a missing `upload_path` or `processed_path` becomes `Path('')`, the current directory. The source then calls `delete_file` on it, which deletes nothing, and reports the name "" (`backend/main.py:404-410`). The model looks "" up like any other path.
- Gateway.DeleteFiles: a failing `redis_client.delete` (`backend/main.py:417`) keeps the metadata in the source. The model always removes it.
- Gateway.UploadAudio: a write that fails part-way (`backend/main.py:152-153`) can leave a partial upload on disk. The model's failed write leaves nothing.
- `time.time()` is a float. The model's clock counts whole seconds.
- AudioProcessing.SaveAudio: after a successful conversion, an unlink of the intermediate WAV that raises lands in the conversion's `except`, and the WAV path is returned (`backend/utils/audio_processor.py:287-296`). That unlink is not an input of the model, which returns the converted path.

## Findings

| source | as written | input that shows it | evidently intended | confidence | as-written member | corrected member |
|---|---|---|---|---|---|---|
| backend/utils/audio_processor.py:239-240 | `safe_overlap` caps the crossfade at half the shortest chunk, although consecutive windows were cut to share the full `overlap`. When the last chunk is shorter than twice the overlap, each boundary keeps `overlap - safe_overlap` duplicated samples, and the output is longer than the input. | 101 samples, chunks of 100, overlap 25: windows [0,100) and [75,101), output 113 samples. At the worker's settings (48 kHz, 30 s, 50 ms), 1440001 samples give 1441201. | The merge removes exactly the overlap the windows share, so the enhanced audio keeps the input's length. | not executed | Chunking.MergeChunksAsWritten, Chunking.ShortLastChunkCounterexample | Chunking.MergeChunksAligned, Chunking.AlignedMergeKeepsLength |

The enhancement itself follows the code: `AudioProcessing.AudioProcessor.Enhanced` and `AudioProcessing.AudioProcessor.EnhanceAudio` use the as-written merge. `AudioProcessing.AudioProcessor.EnhancedKeepsLength` and `AudioProcessing.AudioProcessor.EnhancedChunkedLength` state how long their output is. The corrected merge is `Chunking.MergeChunksAligned`, and `Chunking.MergeChunksFixed` computes it.
