/** backend/celery_worker.py: the Celery application, the shared audio processor and the two
    tasks. Celery's broker and scheduler are outside the model; a task's entry in the result
    backend is a `TaskEntry` whose history lists every state written for it. */
module Worker {
  import opened Wrappers
  import opened Json
  import opened Tasks
  import Config
  import opened AudioProcessing
  import FileCleanup

  /** Worker limits of `celery_app.conf`: hard and soft time limits in seconds, prefetch
      multiplier, tasks per child process, and the cleanup period in minutes. */
  const TaskTimeLimit := 3600
  const TaskSoftTimeLimit := 3300
  const PrefetchMultiplier := 1
  const MaxTasksPerChild := 5
  const CleanupPeriodMinutes := 5

  /** `worker_max_memory_per_child`, in KiB, from `CELERY_MAX_MEMORY_MB`: 0 switches the check
      off, and any positive limit is kept exactly. */
  function MaxMemoryPerChildKb(mb: int): (kb: nat)
    ensures kb == 0 <==> mb <= 0
    ensures mb > 0 ==> kb / 1024 == mb && kb % 1024 == 0
  {
    if mb <= 0 then 0 else mb * 1024
  }

  /** `attenuation_limit_db` of the shared processor: a negative `NOISE_ATTENUATION_LIMIT_DB`
      means no limit. */
  function DefaultAttenuation(db: real): (limit: Option<real>)
    ensures limit.None? <==> db < 0.0
    ensures limit.Some? ==> limit.value == db
  {
    if db < 0.0 then None else Some(db)
  }

  /** The module-level `audio_processor`: the configured rate, the constructor's default 30 s
      chunks with 50 ms overlap, and the attenuation and gain settings. */
  method SharedProcessor(settings: Config.Settings) returns (p: AudioProcessor)
    requires settings.audioSampleRate >= 0
    ensures fresh(p) && !p.initialized
    ensures p.targetSampleRate == settings.audioSampleRate
    ensures p.maxChunkSamples == SamplesFor(30.0, settings.audioSampleRate)
    ensures p.chunkOverlapSamples == SamplesFor(0.05, settings.audioSampleRate)
    ensures p.attenuationLimitDb == DefaultAttenuation(settings.noiseAttenuationLimitDb)
    ensures p.outputGainDb == settings.outputGainDb
  {
    p := new AudioProcessor(settings.audioSampleRate, 30.0, 0.05,
                            DefaultAttenuation(settings.noiseAttenuationLimitDb),
                            settings.outputGainDb);
  }

  /** `options.get(key)` read as a number of decibels: absent and `null` mean None. Options
      come from the gateway, which only stores numbers or `null` there. */
  function NumberOption(options: map<string, Json>, key: string): (v: Option<real>)
    ensures key !in options ==> v == None
    ensures key in options && options[key].JReal? ==> v == Some(options[key].r)
    ensures key in options && options[key].JInt? ==> v == Some(options[key].i as real)
  {
    if key !in options then None
    else match options[key]
      case JReal(r) => Some(r)
      case JInt(i) => Some(i as real)
      case _ => None
  }

  /** The progress record `process_audio_task` writes before it starts. */
  const Processing := Record("PROCESSING", DictInfo(map["status" := JStr("Processing audio..."),
                                                        "progress" := JInt(10)]))

  /** What `process_audio_task` returns (Ok) or raises (Err, with the exception's text), given
      the dictionary `process_file` produced. */
  function TaskOutcome(result: ProcessResult, taskId: string): Result<map<string, Json>> {
    match result
    case Processed(duration, rate, _, mb, path) =>
      Ok(map["status" := JStr("completed"), "task_id" := JStr(taskId),
             "output_path" := JStr(path), "duration_seconds" := JReal(duration),
             "sample_rate" := JInt(rate), "output_size_mb" := JReal(mb),
             "progress" := JInt(100)])
    case ProcessFailed(error) => Err(error)
  }

  /** A finished task reports progress 100, its own id and the path the processor actually
      wrote (the WAV fallback included); a failed one raises with the processor's message. */
  lemma TaskOutcomeFacts(result: ProcessResult, taskId: string)
    ensures var o := TaskOutcome(result, taskId);
      (o.Ok? <==> result.Processed?)
      && (o.Ok? ==> o.value["progress"] == JInt(100) && o.value["status"] == JStr("completed")
                    && o.value["task_id"] == JStr(taskId)
                    && o.value["output_path"] == JStr(result.outputPath)
                    && o.value["sample_rate"] == JInt(result.sampleRate))
      && (o.Err? ==> o.error == result.error)
  {
  }

  /** How Celery stores a task's end: the returned dictionary as SUCCESS, the raised exception
      as FAILURE. */
  function Settle(outcome: Result<map<string, Json>>): (r: Record)
    ensures r.state == "SUCCESS" <==> outcome.Ok?
    ensures r.state == "FAILURE" <==> outcome.Err?
    ensures outcome.Ok? ==> r.info == DictInfo(outcome.value)
    ensures outcome.Err? ==> r.info == ExceptionInfo(outcome.error)
  {
    match outcome
    case Ok(d) => Record("SUCCESS", DictInfo(d))
    case Err(message) => Record("FAILURE", ExceptionInfo(message))
  }

  /** A task id's entry in the result backend. */
  class TaskEntry {
    var history: seq<Record>

    constructor ()
      ensures history == []
    {
      history := [];
    }

    /** What a reader of the backend sees: the last state written, PENDING before any. */
    function Current(): (r: Record)
      reads this
      ensures history == [] ==> r == Unknown
      ensures history != [] ==> r == history[|history| - 1]
    {
      if history == [] then Unknown else history[|history| - 1]
    }

    method Write(r: Record)
      modifies this
      ensures history == old(history) + [r]
    {
      history := history + [r];
    }
  }

  /** The STARTED record `task_track_started` makes Celery write when a worker picks the task. */
  function Started(pid: int, hostname: string): Record {
    Record("STARTED", DictInfo(map["pid" := JInt(pid), "hostname" := JStr(hostname)]))
  }

  /** The states a run of `process_audio_task` writes. */
  const TaskStates := {"STARTED", "PROCESSING", "SUCCESS", "FAILURE"}

  /** One run of `process_audio_task` as the worker executes it: Celery marks it STARTED, the
      task writes its PROCESSING progress, runs `process_file` with the options' overrides
      (`options or {}`), and Celery stores what it returned or raised. */
  method ProcessAudioTask(entry: TaskEntry, processor: AudioProcessor, pid: int, hostname: string,
                          outputPath: string, taskId: string, options: Option<map<string, Json>>,
                          e: Environment) returns (outcome: Result<map<string, Json>>)
    requires |e.attempts| == 3
    modifies entry, processor
    ensures var opts := options.GetOr(map[]);
      var result := processor.ProcessSpec(old(processor.initialized), outputPath,
                                          NumberOption(opts, "attenuation_limit_db"),
                                          NumberOption(opts, "output_gain_db"), e);
      outcome == TaskOutcome(result, taskId)
    ensures entry.history == old(entry.history) + [Started(pid, hostname), Processing, Settle(outcome)]
    ensures var run := entry.history[|old(entry.history)|..];
      (forall i :: 0 <= i < |run| ==> run[i].state in TaskStates)
      && (entry.Current().state == "SUCCESS" || entry.Current().state == "FAILURE")
    ensures processor.initialized <==>
      old(processor.initialized)
      || (processor.LoadAudio(e.loaded, e.resample).Ok? && processor.targetSampleRate != 0
          && InitializeSpec(e.importError, e.attempts).error.None?)
  {
    entry.Write(Started(pid, hostname));
    entry.Write(Processing);
    var opts := options.GetOr(map[]);
    var result := processor.ProcessFile(outputPath, NumberOption(opts, "attenuation_limit_db"),
                                        NumberOption(opts, "output_gain_db"), e);
    outcome := TaskOutcome(result, taskId);
    entry.Write(Settle(outcome));
  }

  /** `cleanup_files_task`: sweep the upload and processed directories with the configured
      retention, and return how many files went. */
  method CleanupFilesTask(fs: FileCleanup.FileSystem, settings: Config.Settings, now: int)
    returns (deleted: nat)
    modifies fs
    ensures var gone := FileCleanup.Swept(old(fs.files), fs.locked, fs.unreadable,
                                          [settings.uploadDir, settings.processedDir],
                                          now - settings.fileRetentionSeconds);
      fs.files == old(fs.files) - gone && deleted == |gone|
  {
    var manager := new FileCleanup.FileCleanupManager([settings.uploadDir, settings.processedDir],
                                                      settings.fileRetentionSeconds);
    deleted := manager.CleanupOldFiles(fs, now);
  }
}
