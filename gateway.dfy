/** backend/main.py: the decisions the FastAPI handlers make. Transport is left out: a handler
    answers with a JSON body, a file to send, or an HTTP error. Celery's result backend, Redis,
    the worker inspection and the file system are inputs; the upload and delete handlers, which
    change files, Redis and the queue, are methods over objects holding that state. */
module Gateway {
  import opened Wrappers
  import opened Strings
  import opened Paths
  import opened Json
  import opened Tasks
  import Config
  import opened FileHandling
  import opened FileCleanup
  import Worker
  import AudioProcessing

  /** A handler's answer: a body, or the `HTTPException` it raises. */
  datatype Reply<+T> = Body(body: T) | HttpError(code: int, detail: string)

  const StatusFailure := "Failed to get status: "

  /** Python's name for the type of a decoded JSON value, as its error messages print it. */
  function TypeName(j: Json): string {
    match j
    case JNull => "NoneType"
    case JBool(_) => "bool"
    case JInt(_) => "int"
    case JReal(_) => "float"
    case JStr(_) => "str"
    case JArr(_) => "list"
    case JObj(_) => "dict"
  }

  /** The text of the `TypeError` `Path(x)` raises for a value that is not a string. */
  function PathTypeError(j: Json): string {
    "expected str, bytes or os.PathLike object, not " + TypeName(j)
  }

  // ---------------------------------------------------------------- task status

  /** The metadata dictionary `get_task_status` works with, given what Redis held under
      `task:<id>` and decoded to (None when Redis is not configured, holds nothing, or the read
      or the decoding raised, all of which leave `{}`). A stored value that is not a JSON object
      makes `metadata.get` raise. */
  function MetadataFields(stored: Option<Json>): Result<map<string, Json>> {
    match stored
    case None => Ok(map[])
    case Some(JObj(fields)) => Ok(fields)
    case Some(other) => Err("'" + TypeName(other) + "' object has no attribute 'get'")
  }

  /** `task_result.info`, read inside its guard: a payload that cannot be read counts as None. */
  function InfoSeen(info: Payload): (seen: Payload)
    ensures !seen.Unreadable?
    ensures info.Unreadable? ==> seen == NoInfo
    ensures !info.Unreadable? ==> seen == info
  {
    if info.Unreadable? then NoInfo else info
  }

  /** The `status` field: the four known states have their own names, any other state is
      reported lower-cased. */
  function StatusOf(state: string): string {
    if state == "PENDING" then "queued"
    else if state == "PROCESSING" then "processing"
    else if state == "SUCCESS" then "completed"
    else if state == "FAILURE" then "failed"
    else Lower(state)
  }

  function ProgressOf(state: string, info: Payload): Json {
    if state == "PROCESSING" then
      if info.DictInfo? then Get(info.fields, "progress", JInt(50)) else JInt(50)
    else if state == "SUCCESS" then JInt(100)
    else JInt(0)
  }

  function QueuePositionOf(state: string, metadata: map<string, Json>): Json {
    if state == "PROCESSING" || state == "SUCCESS" || state == "FAILURE" then JInt(0)
    else Get(metadata, "queue_position", JInt(0))
  }

  /** The `error` field of a failed task. */
  function FailureError(info: Payload): Json {
    match info
    case DictInfo(fields) => Get(fields, "error", JStr("Unknown error"))
    case ExceptionInfo(message) => JStr(message)
    case OtherInfo(truthy, text) =>
      if !truthy then JStr("Task failed")
      else if text.Some? then JStr(text.value)
      else JStr("Task failed with unknown error")
    case NoInfo => JStr("Task failed")
    case Unreadable(_) => JStr("Task failed")
  }

  /** The extra fields of a finished task whose file exists (`download_ready` is then true). */
  datatype DownloadOffer = DownloadOffer(durationSeconds: Json, outputSizeMb: Json,
                                         timeUntilDeletionSeconds: nat)

  /** The status response, field by field; `download` and `error` are the optional keys. */
  datatype StatusBody = StatusBody(taskId: string, status: string, progress: Json,
                                   queuePosition: Json, download: Option<DownloadOffer>,
                                   error: Option<Json>)

  /** `get_task_status(task_id)`: `stored` is the decoded metadata, `files` the file system
      the download check looks at, and `now`/`retention` what the countdown is computed with. */
  function GetTaskStatus(taskId: string, record: Record, stored: Option<Json>, files: Files,
                         now: int, retention: int): Reply<StatusBody>
  {
    match MetadataFields(stored)
    case Err(e) => HttpError(500, StatusFailure + e)
    case Ok(metadata) =>
      var state, info := record.state, InfoSeen(record.info);
      var response := StatusBody(taskId, StatusOf(state), ProgressOf(state, info),
                                 QueuePositionOf(state, metadata), None, None);
      if state == "SUCCESS" && info.DictInfo? then
        match Get(info.fields, "output_path", JStr(""))
        case JStr(p) =>
          if p in files then
            Body(response.(download := Some(DownloadOffer(
                   Get(info.fields, "duration_seconds", JNull),
                   Get(info.fields, "output_size_mb", JNull),
                   TimeUntilDeletion(files, retention, p, now)))))
          else Body(response)
        case other => HttpError(500, StatusFailure + PathTypeError(other))
      else if state == "FAILURE" then Body(response.(error := Some(FailureError(info))))
      else Body(response)
  }

  /** The state table of the status endpoint: name, progress and queue position per state,
      the stored queue position surviving only for states other than PROCESSING, SUCCESS and
      FAILURE. */
  lemma StatusTable(taskId: string, record: Record, stored: Option<Json>, files: Files,
                    now: int, retention: int)
    requires MetadataFields(stored).Ok?
    ensures var r := GetTaskStatus(taskId, record, stored, files, now, retention);
      var s, meta := record.state, MetadataFields(stored).value;
      r.Body? ==>
        var b := r.body;
        b.taskId == taskId
        && (s == "PENDING" ==> b.status == "queued" && b.progress == JInt(0)
                               && b.queuePosition == Get(meta, "queue_position", JInt(0)))
        && (s == "PROCESSING" ==>
              b.status == "processing" && b.queuePosition == JInt(0)
              && b.progress == (if record.info.DictInfo?
                                then Get(record.info.fields, "progress", JInt(50)) else JInt(50)))
        && (s == "SUCCESS" ==> b.status == "completed" && b.progress == JInt(100)
                               && b.queuePosition == JInt(0))
        && (s == "FAILURE" ==> b.status == "failed" && b.progress == JInt(0)
                               && b.queuePosition == JInt(0))
        && (s !in {"PENDING", "PROCESSING", "SUCCESS", "FAILURE"} ==>
              b.status == Lower(s) && b.progress == JInt(0)
              && b.queuePosition == Get(meta, "queue_position", JInt(0)))
  {
  }

  /** A state named PROGRESS is reported as "progress", not "processing". */
  lemma ProgressStateIsNotProcessing(taskId: string, info: Payload)
    ensures var r := GetTaskStatus(taskId, Record("PROGRESS", info), None, map[], 0, 0);
      r.Body? && r.body.status == "progress" && r.body.progress == JInt(0)
  {
    assert Lower("PROGRESS") == "progress";
  }

  /** When the lookup fails, and that it never fails because of the task payload: only a
      stored metadata value that is not an object, or a finished task whose `output_path` is
      not a string, gives a 500. */
  lemma StatusFailsOnlyOnBadValues(taskId: string, record: Record, stored: Option<Json>,
                                   files: Files, now: int, retention: int)
    ensures var r := GetTaskStatus(taskId, record, stored, files, now, retention);
      var info := InfoSeen(record.info);
      (r.HttpError? <==>
         MetadataFields(stored).Err?
         || (record.state == "SUCCESS" && info.DictInfo?
             && !Get(info.fields, "output_path", JStr("")).JStr?))
      && (r.HttpError? ==> r.code == 500 && |r.detail| >= |StatusFailure|
                           && r.detail[..|StatusFailure|] == StatusFailure)
  {
  }

  /** The error text of a failed task: a dictionary's "error" entry (or "Unknown error"), the
      text of an exception or of another truthy value, and placeholders otherwise; a payload
      that cannot be read counts as absent. Only failed tasks carry it. */
  lemma FailureErrorText(taskId: string, record: Record, stored: Option<Json>, files: Files,
                         now: int, retention: int)
    requires MetadataFields(stored).Ok?
    ensures var r := GetTaskStatus(taskId, record, stored, files, now, retention);
      var info := record.info;
      (r.Body? ==> (r.body.error.Some? <==> record.state == "FAILURE"))
      && (record.state == "FAILURE" ==>
            r.Body?
            && (info.DictInfo? ==> r.body.error == Some(Get(info.fields, "error", JStr("Unknown error"))))
            && (info.ExceptionInfo? ==> r.body.error == Some(JStr(info.message)))
            && (info.OtherInfo? && info.truthy && info.text.Some? ==>
                  r.body.error == Some(JStr(info.text.value)))
            && (info.OtherInfo? && info.truthy && info.text.None? ==>
                  r.body.error == Some(JStr("Task failed with unknown error")))
            && ((info.NoInfo? || info.Unreadable? || (info.OtherInfo? && !info.truthy)) ==>
                  r.body.error == Some(JStr("Task failed"))))
  {
  }

  /** A finished task is offered for download exactly when its output file exists, and then
      the countdown is the cleanup manager's; no other state is ever offered. */
  lemma DownloadReadyRule(taskId: string, record: Record, stored: Option<Json>, files: Files,
                          now: int, retention: int)
    ensures var r := GetTaskStatus(taskId, record, stored, files, now, retention);
      var info := record.info;
      (r.Body? && r.body.download.Some? <==>
         MetadataFields(stored).Ok? && record.state == "SUCCESS" && info.DictInfo?
         && Get(info.fields, "output_path", JStr("")).JStr?
         && Get(info.fields, "output_path", JStr("")).s in files)
      && (r.Body? && r.body.download.Some? ==>
            r.body.download.value.timeUntilDeletionSeconds
            == TimeUntilDeletion(files, retention, Get(info.fields, "output_path", JStr("")).s, now))
  {
  }

  /** A client polling the status endpoint sees the worker's STARTED record as "started". */
  lemma StartedAsSeen(taskId: string, metadata: map<string, Json>, files: Files, now: int,
                      retention: int, pid: int, hostname: string)
    ensures var r := GetTaskStatus(taskId, Worker.Started(pid, hostname), Some(JObj(metadata)),
                                   files, now, retention);
      r.Body? && r.body.status == "started" && r.body.progress == JInt(0)
  {
    assert Lower("STARTED") == "started";
  }

  /** The worker's PROCESSING record reads as "processing" with progress 10, no longer queued. */
  lemma ProcessingAsSeen(taskId: string, metadata: map<string, Json>, files: Files, now: int,
                         retention: int)
    ensures var r := GetTaskStatus(taskId, Worker.Processing, Some(JObj(metadata)), files, now,
                                   retention);
      r.Body? && r.body.status == "processing" && r.body.progress == JInt(10)
      && r.body.queuePosition == JInt(0)
  {
  }

  /** The worker's final record reads as "completed" with progress 100 and, once the file
      exists, the download offer, or as "failed" with the processor's error text. */
  lemma SettledAsSeen(taskId: string, metadata: map<string, Json>, files: Files, now: int,
                      retention: int, result: AudioProcessing.ProcessResult)
    ensures var r := GetTaskStatus(taskId, Worker.Settle(Worker.TaskOutcome(result, taskId)),
                                   Some(JObj(metadata)), files, now, retention);
      r.Body?
      && (result.Processed? ==>
            r.body.status == "completed" && r.body.progress == JInt(100)
            && (r.body.download.Some? <==> result.outputPath in files))
      && (result.ProcessFailed? ==>
            r.body.status == "failed" && r.body.error == Some(JStr(result.error)))
  {
    Worker.TaskOutcomeFacts(result, taskId);
  }

  // ---------------------------------------------------------------- processing options

  /** `max(0.0, min(10.0, s))`. */
  function Clamp(s: real): (c: real)
    ensures 0.0 <= c <= 10.0
    ensures 0.0 <= s <= 10.0 ==> c == s
  {
    if s < 0.0 then 0.0 else if s > 10.0 then 10.0 else s
  }

  /** `round(x, 2)`, rounding halves up. */
  function Round2(x: real): real {
    (x * 100.0 + 0.5).Floor as real / 100.0
  }

  /** The options `upload_audio` builds from the noise-strength slider. */
  function ProcOptions(noiseStrength: Option<real>): map<string, Json> {
    match noiseStrength
    case None => map[]
    case Some(s) =>
      var strength := Clamp(s);
      var gain := Round2(2.0 - strength * 0.1);
      map["attenuation_limit_db" := JReal(6.0 + strength * 2.0),
          "output_gain_db" := JReal(if gain < 0.0 then 0.0 else gain)]
  }

  lemma Round2Between(x: real)
    requires 1.0 <= x <= 2.0
    ensures 1.0 <= Round2(x) <= 2.0
  {
    var k := (x * 100.0 + 0.5).Floor;
    assert 100 <= k <= 200;
  }

  /** Without a slider value the options are empty; with one, the attenuation limit lies in
      [6, 26] dB and the gain in [1, 2] dB, whatever value was sent. */
  lemma ProcOptionsBounds(noiseStrength: Option<real>)
    ensures noiseStrength.None? ==> ProcOptions(noiseStrength) == map[]
    ensures noiseStrength.Some? ==>
      var o := ProcOptions(noiseStrength);
      o.Keys == {"attenuation_limit_db", "output_gain_db"}
      && o["attenuation_limit_db"].JReal? && 6.0 <= o["attenuation_limit_db"].r <= 26.0
      && o["output_gain_db"].JReal? && 1.0 <= o["output_gain_db"].r <= 2.0
  {
    if noiseStrength.Some? {
      var strength := Clamp(noiseStrength.value);
      Round2Between(2.0 - strength * 0.1);
    }
  }

  /** The slider's midpoint: 16 dB of attenuation and a 1.5 dB lift; values beyond the ends
      count as the ends. */
  lemma ProcOptionsExamples(s: real)
    ensures ProcOptions(Some(5.0)) == map["attenuation_limit_db" := JReal(16.0),
                                          "output_gain_db" := JReal(1.5)]
    ensures s >= 10.0 ==> ProcOptions(Some(s)) == ProcOptions(Some(10.0))
    ensures s <= 0.0 ==> ProcOptions(Some(s)) == ProcOptions(Some(0.0))
  {
    assert (1.5 * 100.0 + 0.5).Floor == 150;
  }

  /** The worker reads back exactly the attenuation and gain the gateway chose, and none when
      no slider value was sent. */
  lemma WorkerReadsOptions(noiseStrength: Option<real>)
    ensures var o := ProcOptions(noiseStrength);
      (noiseStrength.None? ==> Worker.NumberOption(o, "attenuation_limit_db") == None
                               && Worker.NumberOption(o, "output_gain_db") == None)
      && (noiseStrength.Some? ==>
            Worker.NumberOption(o, "attenuation_limit_db") == Some(o["attenuation_limit_db"].r)
            && Worker.NumberOption(o, "output_gain_db") == Some(o["output_gain_db"].r))
  {
  }

  // ---------------------------------------------------------------- queue counts

  /** What `celery_app.control.inspect()` gave: per-worker task lists from `active()` and
      `reserved()` (None when no worker answered), or the text of what one of the calls raised. */
  datatype Inspection =
    | Inspected(active: Option<seq<seq<string>>>, reserved: Option<seq<seq<string>>>)
    | InspectRaised(message: string)

  /** `sum(len(tasks) for tasks in lists)`. */
  function Sum(lists: seq<seq<string>>): nat
    decreases |lists|
  {
    if |lists| == 0 then 0 else Sum(lists[..|lists| - 1]) + |lists[|lists| - 1]|
  }

  /** All task ids of all workers, worker after worker. */
  function Flatten(lists: seq<seq<string>>): seq<string>
    decreases |lists|
  {
    if |lists| == 0 then [] else Flatten(lists[..|lists| - 1]) + lists[|lists| - 1]
  }

  /** The sum counts every task of every worker once. */
  lemma {:induction false} SumCountsEveryTask(lists: seq<seq<string>>)
    ensures Sum(lists) == |Flatten(lists)|
    decreases |lists|
  {
    if |lists| > 0 {
      SumCountsEveryTask(lists[..|lists| - 1]);
    }
  }

  /** Counting one worker more adds that worker's tasks. */
  lemma {:induction false} SumAppend(lists: seq<seq<string>>, more: seq<seq<string>>)
    ensures Sum(lists + more) == Sum(lists) + Sum(more)
    decreases |more|
  {
    if |more| > 0 {
      var last := more[|more| - 1];
      assert (lists + more)[..|lists + more| - 1] == lists + more[..|more| - 1];
      SumAppend(lists, more[..|more| - 1]);
    } else {
      assert lists + more == lists;
    }
  }

  function TaskCount(lists: Option<seq<seq<string>>>): nat {
    if lists.None? then 0 else Sum(lists.value)
  }

  /** The body of `get_queue_status`. */
  datatype QueueBody = QueueBody(activeTasks: nat, pendingTasks: nat, totalQueue: nat,
                                 error: Option<string>)

  /** `get_queue_status`: it never raises; a failed inspection reports zeros and the error. */
  function QueueStatus(i: Inspection): QueueBody {
    match i
    case InspectRaised(message) => QueueBody(0, 0, 0, Some(message))
    case Inspected(active, reserved) =>
      QueueBody(TaskCount(active), TaskCount(reserved), TaskCount(active) + TaskCount(reserved), None)
  }

  /** The total is always active plus pending and counts every listed task once; a failed
      inspection reports zeros with its error. */
  lemma QueueTotals(i: Inspection)
    ensures var q := QueueStatus(i);
      q.totalQueue == q.activeTasks + q.pendingTasks
      && (q.error.Some? <==> i.InspectRaised?)
      && (i.InspectRaised? ==> q == QueueBody(0, 0, 0, Some(i.message)))
      && (i.Inspected? ==> q.totalQueue == |Flatten(i.active.GetOr([]) + i.reserved.GetOr([]))|)
  {
    if i.Inspected? {
      var a, r := i.active.GetOr([]), i.reserved.GetOr([]);
      SumAppend(a, r);
      SumCountsEveryTask(a + r);
    }
  }

  /** One worker with two active tasks and one reserved: 2, 1 and 3. */
  lemma QueueExample()
    ensures QueueStatus(Inspected(Some([["task1", "task2"]]), Some([["task3"]])))
            == QueueBody(2, 1, 3, None)
  {
    assert Sum([["task1", "task2"]]) == 2 by {
      assert [["task1", "task2"]][..0] == [];
    }
    assert Sum([["task3"]]) == 1 by {
      assert [["task3"]][..0] == [];
    }
  }

  // ---------------------------------------------------------------- names

  /** The processed file's name: "enhanced_", the stem of the stored upload, then the upload's
      own suffix lower-cased, or ".wav" when it has none. */
  function ProcessedName(filename: string, uniqueName: string): string {
    var ext := Lower(Suffix(filename));
    "enhanced_" + Stem(uniqueName) + (if ext == "" then ".wav" else ext)
  }

  /** The stored upload is named after the id, so the processed file is too: a dot- and
      slash-free id with an extension gives "enhanced_<id>" plus the suffix. */
  lemma ProcessedNameFromId(filename: string, uid: string)
    requires uid != "" && '.' !in uid && '/' !in uid
    requires ExtensionOf(filename) != "" && '/' !in ExtensionOf(filename)
    ensures Stem(GenerateUniqueFilename(filename, uid)) == uid
    ensures var ext := Lower(Suffix(filename));
      ProcessedName(filename, GenerateUniqueFilename(filename, uid))
      == "enhanced_" + uid + (if ext == "" then ".wav" else ext)
  {
    var ext := ExtensionOf(filename);
    assert '.' in filename;
    var dotted := "." + ext;
    assert dotted[1..] == ext;
    assert IsExtension(dotted);
    SuffixedName(uid, dotted);
    ConcatAssoc(uid, ".", ext);
  }

  /** "enhanced_", the stem of `original`, then its suffix as sent, or ".wav" without one. */
  function EnhancedName(original: string): string {
    "enhanced_" + Stem(original) + (if Suffix(original) == "" then ".wav" else Suffix(original))
  }

  /** The name `download_processed_audio` sends the file under. */
  function DownloadName(stored: Option<Json>): string {
    match stored
    case Some(JObj(fields)) =>
      (match Get(fields, "filename", JStr("audio.wav"))
       case JStr(original) => EnhancedName(original)
       case _ => "enhanced_audio.wav")
    case _ => "enhanced_audio.wav"
  }

  lemma DefaultFilename()
    ensures Stem("audio.wav") == "audio" && Suffix("audio.wav") == ".wav"
  {
    WavIsExtension();
    assert '/' !in "audio";
    SuffixedName("audio", ".wav");
    assert "audio" + ".wav" == "audio.wav";
  }

  /** The download keeps the uploaded name, with "enhanced_" before it and its suffix as sent
      (case included). */
  lemma DownloadNameShape(stem: string, ext: string, fields: map<string, Json>)
    requires stem != "" && '/' !in stem && IsExtension(ext)
    ensures DownloadName(Some(JObj(fields["filename" := JStr(stem + ext)]))) == "enhanced_" + stem + ext
  {
    StoredName(fields, stem + ext);
    SuffixedName(stem, ext);
    assert Suffix(stem + ext) != "";
  }

  /** A stored name is sent as its enhanced form. */
  lemma StoredName(fields: map<string, Json>, name: string)
    ensures DownloadName(Some(JObj(fields["filename" := JStr(name)]))) == EnhancedName(name)
  {
    assert Get(fields["filename" := JStr(name)], "filename", JStr("audio.wav")) == JStr(name);
  }

  /** Metadata without a name gives "enhanced_audio.wav", as does no metadata at all. */
  lemma DownloadNameDefault(fields: map<string, Json>)
    requires "filename" !in fields
    ensures DownloadName(Some(JObj(fields))) == "enhanced_audio.wav"
    ensures DownloadName(None) == "enhanced_audio.wav"
  {
    DefaultFilename();
    assert EnhancedName("audio.wav") == "enhanced_" + "audio" + ".wav";
  }

  // ---------------------------------------------------------------- download

  /** `Path(p).exists()` for the download: the empty path is `Path('.')`, the working
      directory, which always exists. */
  predicate PathExists(files: Files, p: string) {
    p == "" || p in files
  }

  /** `download_processed_audio`, answering with the path and the name to send it under. */
  function Download(record: Record, stored: Option<Json>, files: Files): Reply<(string, string)> {
    if record.state != "SUCCESS" then
      HttpError(400, "File not ready. Current status: " + record.state)
    else match record.info
      case Unreadable(message) => HttpError(500, "Download failed: " + message)
      case DictInfo(fields) =>
        (match Get(fields, "output_path", JStr(""))
         case JStr(p) =>
           if !PathExists(files, p) then HttpError(404, "Processed file not found. It may have been deleted.")
           else Body((p, DownloadName(stored)))
         case other => HttpError(500, "Download failed: " + PathTypeError(other)))
      case _ => HttpError(500, "Invalid task result")
  }

  /** A file is sent exactly for a finished task with a readable result naming a path that
      exists, the working directory when the result names none; it is sent under the stored
      name. A named path that does not exist is a 404, and an unfinished task is a 400 naming
      its state. */
  lemma DownloadRules(record: Record, stored: Option<Json>, files: Files)
    ensures var r := Download(record, stored, files);
      var named := record.state == "SUCCESS" && record.info.DictInfo?
        && Get(record.info.fields, "output_path", JStr("")).JStr?;
      (r.Body? <==> named && PathExists(files, Get(record.info.fields, "output_path", JStr("")).s))
      && (r.Body? ==> r.body == (Get(record.info.fields, "output_path", JStr("")).s, DownloadName(stored)))
      && (named && "output_path" !in record.info.fields ==> r.Body? && r.body.0 == "")
      && (r == HttpError(404, "Processed file not found. It may have been deleted.") <==>
            named && !PathExists(files, Get(record.info.fields, "output_path", JStr("")).s))
      && (record.state != "SUCCESS" ==>
            r == HttpError(400, "File not ready. Current status: " + record.state))
  {
  }

  /** After the worker finished, the download sends the file the processor wrote, as long as
      it exists; a failed task is not ready. */
  lemma DownloadAfterWorker(taskId: string, result: AudioProcessing.ProcessResult,
                            stored: Option<Json>, files: Files)
    ensures var r := Download(Worker.Settle(Worker.TaskOutcome(result, taskId)), stored, files);
      (result.Processed? && result.outputPath in files ==>
         r == Body((result.outputPath, DownloadName(stored))))
      && (result.ProcessFailed? ==> r == HttpError(400, "File not ready. Current status: FAILURE"))
  {
    Worker.TaskOutcomeFacts(result, taskId);
  }

  // ---------------------------------------------------------------- upload

  /** A task handed to the worker: `process_audio_task(input, output, task_id, options)`. */
  datatype Submission = Submission(taskId: string, inputPath: string, outputPath: string,
                                   options: map<string, Json>)

  /** What the upload handler finds in the world: the two fresh ids, the clock, and the
      outcome of each external call, given as the text it raised when it raised. */
  datatype UploadEnv = UploadEnv(
    taskId: string,             // uuid4().hex for the task
    uid: string,                // uuid4().hex for the stored file name
    now: int,                   // the modification time the written file gets
    writeError: Option<string>, // writing the upload
    mime: Result<string>,       // libmagic
    scan: ScanReply,            // ClamAV
    inspection: Inspection,     // the worker inspection
    setexError: Option<string>, // storing the metadata
    unlinkError: string,        // removing a rejected upload, when that raises
    submitError: Option<string>)// apply_async

  /** The body of a successful upload. */
  datatype UploadBody = UploadBody(taskId: string, filename: string, fileSizeMb: real,
                                   queuePosition: nat, estimatedWaitSeconds: nat,
                                   retentionMinutes: int, message: string)

  const UploadMessage := "File uploaded successfully. Processing will begin shortly."
  const UploadFailed := "Upload failed: "
  const ScanFailed := "Security scan failed: "

  /** The state the upload handler changes: the files, the Redis metadata by task id, and
      the submitted tasks. */
  datatype UploadState = UploadState(files: Files, metadata: map<string, Json>,
                                     submitted: seq<Submission>)

  /** The metadata stored for an accepted upload. */
  function TaskMetadata(taskId: string, filename: string, uploadPath: string,
                        processedPath: string, queuePosition: nat): Json {
    JObj(map["task_id" := JStr(taskId), "filename" := JStr(filename),
             "upload_path" := JStr(uploadPath), "processed_path" := JStr(processedPath),
             "status" := JStr("queued"), "queue_position" := JInt(queuePosition)])
  }

  /** How many tasks are ahead: active plus reserved, when Redis is there and the inspection
      worked, else 0. */
  function QueuePosition(connected: bool, i: Inspection): nat {
    if connected && i.Inspected? then TaskCount(i.active) + TaskCount(i.reserved) else 0
  }

  /** The checks of `upload_audio`, in the order it makes them. */
  datatype Check = ExtensionCheck | SizeCheck | TypeCheck | ScanCheck

  /** The first check that fails, with the 400 detail it answers with. */
  function FailedCheck(h: FileHandler, scanner: VirusScanner, filename: string, size: int,
                       uploadPath: string, mime: Result<string>, scan: ScanReply)
    : (failed: Option<(Check, string)>)
    reads scanner
  {
    if !ValidateFileExtension(h, filename).valid then
      Some((ExtensionCheck, ValidateFileExtension(h, filename).error.value))
    else if !ValidateFileSize(h, size).valid then
      Some((SizeCheck, ValidateFileSize(h, size).error.value))
    else if !ValidateMimeType(mime).valid then
      Some((TypeCheck, ValidateMimeType(mime).error.value))
    else if !scanner.ScanFile(uploadPath, scan).valid then
      Some((ScanCheck, ScanFailed + scanner.ScanFile(uploadPath, scan).error.value))
    else None
  }

  /** Each check is reached only when the ones before it passed, and an upload passes exactly
      when all four do. */
  lemma CheckOrder(h: FileHandler, scanner: VirusScanner, filename: string, size: int,
                   uploadPath: string, mime: Result<string>, scan: ScanReply)
    ensures var failed := FailedCheck(h, scanner, filename, size, uploadPath, mime, scan);
      var ext, sz, ty, sc := ValidateFileExtension(h, filename).valid, ValidateFileSize(h, size).valid,
                             ValidateMimeType(mime).valid, scanner.ScanFile(uploadPath, scan).valid;
      (failed.None? <==> ext && sz && ty && sc)
      && (failed.Some? && failed.value.0 == SizeCheck ==> ext && !sz)
      && (failed.Some? && failed.value.0 == TypeCheck ==> ext && sz && !ty)
      && (failed.Some? && failed.value.0 == ScanCheck ==> ext && sz && ty && !sc)
      && (!ext ==> failed.Some? && failed.value.0 == ExtensionCheck)
  {
  }

  /** `upload_audio` on the state `st`. */
  function UploadSpec(st: UploadState, locked: set<string>, connected: bool, h: FileHandler,
                      scanner: VirusScanner, settings: Config.Settings, filename: string,
                      size: nat, noiseStrength: Option<real>, e: UploadEnv)
    : (Reply<UploadBody>, UploadState)
    reads scanner
  {
    var unique := GenerateUniqueFilename(filename, e.uid);
    var uploadPath := JoinPath(settings.uploadDir, unique);
    var processedPath := JoinPath(settings.processedDir, ProcessedName(filename, unique));
    var extCheck, sizeCheck := ValidateFileExtension(h, filename), ValidateFileSize(h, size);
    if !extCheck.valid then (HttpError(400, extCheck.error.value), st)
    else if !sizeCheck.valid then (HttpError(400, sizeCheck.error.value), st)
    else if e.writeError.Some? then (HttpError(500, UploadFailed + e.writeError.value), st)
    else Screened(st.(files := st.files[uploadPath := Entry(true, e.now)]), locked, connected,
                  scanner, settings, filename, size, noiseStrength, e, uploadPath, processedPath)
  }

  /** The part of `upload_audio` after the upload was written: the type and virus checks on
      the saved file, then the queueing. */
  function Screened(st: UploadState, locked: set<string>, connected: bool, scanner: VirusScanner,
                    settings: Config.Settings, filename: string, size: nat,
                    noiseStrength: Option<real>, e: UploadEnv, uploadPath: string,
                    processedPath: string): (Reply<UploadBody>, UploadState)
    reads scanner
  {
    var typeCheck, scanCheck := ValidateMimeType(e.mime), scanner.ScanFile(uploadPath, e.scan);
    if !typeCheck.valid then Discarded(st, locked, uploadPath, typeCheck.error.value, e.unlinkError)
    else if !scanCheck.valid then
      Discarded(st, locked, uploadPath, ScanFailed + scanCheck.error.value, e.unlinkError)
    else Accept(st, connected, settings, filename, size, noiseStrength, e, uploadPath, processedPath)
  }

  /** A rejected upload that was already written: `upload_path.unlink()`, then the 400; an
      unlink that raises turns into the handler's 500 and leaves the file. */
  function Discarded(st: UploadState, locked: set<string>, uploadPath: string, detail: string,
                     unlinkError: string): (Reply<UploadBody>, UploadState)
  {
    if uploadPath in locked then (HttpError(500, UploadFailed + unlinkError), st)
    else (HttpError(400, detail), st.(files := st.files - {uploadPath}))
  }

  /** The part of `upload_audio` after every check passed, on the state with the upload
      written: the queue position, the metadata, the submission and the answer. */
  function Accept(st: UploadState, connected: bool, settings: Config.Settings, filename: string,
                  size: nat, noiseStrength: Option<real>, e: UploadEnv, uploadPath: string,
                  processedPath: string): (Reply<UploadBody>, UploadState)
  {
    var position := QueuePosition(connected, e.inspection);
    var metadata :=
      if connected && e.inspection.Inspected? && e.setexError.None? then
        st.metadata[e.taskId := TaskMetadata(e.taskId, filename, uploadPath, processedPath, position)]
      else st.metadata;
    if e.submitError.Some? then
      (HttpError(500, UploadFailed + e.submitError.value),
       UploadState(st.files, metadata, st.submitted))
    else
      (Body(UploadBody(e.taskId, filename, Round2(size as real / 1048576.0), position,
                       position * 30, settings.fileRetentionMinutes,
                       UploadMessage)),
       UploadState(st.files, metadata,
                   st.submitted + [Submission(e.taskId, uploadPath, processedPath,
                                              ProcOptions(noiseStrength))]))
  }

  /** A name or size rejection is a 400 with the failing check's message and leaves files,
      metadata and queue as they were: nothing was written yet. */
  lemma RejectedBeforeWrite(st: UploadState, locked: set<string>, connected: bool, h: FileHandler,
                            scanner: VirusScanner, settings: Config.Settings, filename: string,
                            size: nat, noiseStrength: Option<real>, e: UploadEnv)
    ensures var uploadPath := JoinPath(settings.uploadDir, GenerateUniqueFilename(filename, e.uid));
      var failed := FailedCheck(h, scanner, filename, size, uploadPath, e.mime, e.scan);
      failed.Some? && (failed.value.0 == ExtensionCheck || failed.value.0 == SizeCheck) ==>
        UploadSpec(st, locked, connected, h, scanner, settings, filename, size, noiseStrength, e)
        == (HttpError(400, failed.value.1), st)
  {
  }

  /** Past the name and size checks and a successful write, `upload_audio` continues with
      the saved file: the type and virus checks, then the queueing. */
  lemma WrittenThenScreened(st: UploadState, locked: set<string>, connected: bool, h: FileHandler,
                            scanner: VirusScanner, settings: Config.Settings, filename: string,
                            size: nat, noiseStrength: Option<real>, e: UploadEnv)
    requires e.writeError.None?
    requires ValidateFileExtension(h, filename).valid && ValidateFileSize(h, size).valid
    ensures var unique := GenerateUniqueFilename(filename, e.uid);
      var uploadPath := JoinPath(settings.uploadDir, unique);
      UploadSpec(st, locked, connected, h, scanner, settings, filename, size, noiseStrength, e)
      == Screened(st.(files := st.files[uploadPath := Entry(true, e.now)]), locked, connected,
                  scanner, settings, filename, size, noiseStrength, e, uploadPath,
                  JoinPath(settings.processedDir, ProcessedName(filename, unique)))
  {
  }

  /** A type or virus rejection submits nothing and stores no metadata. It removes the file
      it had already written and touches no other, answering 400 with the failing check's
      message; when that removal raises, the answer is a 500 and the file stays. */
  lemma RejectedAfterWrite(st: UploadState, locked: set<string>, connected: bool, h: FileHandler,
                           scanner: VirusScanner, settings: Config.Settings, filename: string,
                           size: nat, noiseStrength: Option<real>, e: UploadEnv)
    requires e.writeError.None?
    ensures var (r, after) := UploadSpec(st, locked, connected, h, scanner, settings, filename,
                                         size, noiseStrength, e);
      var uploadPath := JoinPath(settings.uploadDir, GenerateUniqueFilename(filename, e.uid));
      var failed := FailedCheck(h, scanner, filename, size, uploadPath, e.mime, e.scan);
      failed.Some? && (failed.value.0 == TypeCheck || failed.value.0 == ScanCheck) ==>
        after.submitted == st.submitted && after.metadata == st.metadata
        && (uploadPath !in locked ==>
              r == HttpError(400, failed.value.1) && after.files == st.files - {uploadPath})
        && (uploadPath in locked ==>
              r == HttpError(500, UploadFailed + e.unlinkError)
              && after.files == st.files[uploadPath := Entry(true, e.now)])
  {
    var unique := GenerateUniqueFilename(filename, e.uid);
    var uploadPath := JoinPath(settings.uploadDir, unique);
    var failed := FailedCheck(h, scanner, filename, size, uploadPath, e.mime, e.scan);
    if failed.Some? && (failed.value.0 == TypeCheck || failed.value.0 == ScanCheck) {
      FailedToDiscard(st, locked, connected, h, scanner, settings, filename, size, noiseStrength, e);
      RemoveWritten(st.files, uploadPath, Entry(true, e.now));
    }
  }

  /** An upload that fails the type or virus check after it was written goes on to the
      removal of the written file, with the failing check's message. */
  lemma FailedToDiscard(st: UploadState, locked: set<string>, connected: bool, h: FileHandler,
                        scanner: VirusScanner, settings: Config.Settings, filename: string,
                        size: nat, noiseStrength: Option<real>, e: UploadEnv)
    requires e.writeError.None?
    ensures var uploadPath := JoinPath(settings.uploadDir, GenerateUniqueFilename(filename, e.uid));
      var failed := FailedCheck(h, scanner, filename, size, uploadPath, e.mime, e.scan);
      failed.Some? && (failed.value.0 == TypeCheck || failed.value.0 == ScanCheck) ==>
        UploadSpec(st, locked, connected, h, scanner, settings, filename, size, noiseStrength, e)
        == Discarded(st.(files := st.files[uploadPath := Entry(true, e.now)]), locked, uploadPath,
                     failed.value.1, e.unlinkError)
  {
    var unique := GenerateUniqueFilename(filename, e.uid);
    var uploadPath := JoinPath(settings.uploadDir, unique);
    var processedPath := JoinPath(settings.processedDir, ProcessedName(filename, unique));
    var failed := FailedCheck(h, scanner, filename, size, uploadPath, e.mime, e.scan);
    if failed.Some? && (failed.value.0 == TypeCheck || failed.value.0 == ScanCheck) {
      CheckOrder(h, scanner, filename, size, uploadPath, e.mime, e.scan);
      WrittenThenScreened(st, locked, connected, h, scanner, settings, filename, size,
                          noiseStrength, e);
      ScreenedDiscards(st.(files := st.files[uploadPath := Entry(true, e.now)]), locked, connected,
                       scanner, settings, filename, size, noiseStrength, e, uploadPath,
                       processedPath);
    }
  }

  /** A failed type check, or a passed one followed by a failed scan, discards the upload with
      that check's message. */
  lemma ScreenedDiscards(st: UploadState, locked: set<string>, connected: bool,
                         scanner: VirusScanner, settings: Config.Settings, filename: string,
                         size: nat, noiseStrength: Option<real>, e: UploadEnv, uploadPath: string,
                         processedPath: string)
    ensures var typeCheck, scanCheck := ValidateMimeType(e.mime), scanner.ScanFile(uploadPath, e.scan);
      var screened := Screened(st, locked, connected, scanner, settings, filename, size,
                               noiseStrength, e, uploadPath, processedPath);
      && (!typeCheck.valid ==>
            screened == Discarded(st, locked, uploadPath, typeCheck.error.value, e.unlinkError))
      && (typeCheck.valid && !scanCheck.valid ==>
            screened == Discarded(st, locked, uploadPath, ScanFailed + scanCheck.error.value,
                                  e.unlinkError))
  {
  }

  /** An accepted upload is stored with the clock's time, submitted once with its options
      and both paths, and answered with its place in the queue, 30 seconds of wait per task
      ahead; the metadata stored for it records that place. */
  lemma UploadAccepted(st: UploadState, locked: set<string>, connected: bool, h: FileHandler,
                       scanner: VirusScanner, settings: Config.Settings, filename: string,
                       size: nat, noiseStrength: Option<real>, e: UploadEnv)
    requires e.writeError.None? && e.submitError.None?
    requires FailedCheck(h, scanner, filename, size,
                         JoinPath(settings.uploadDir, GenerateUniqueFilename(filename, e.uid)),
                         e.mime, e.scan).None?
    ensures var (r, after) := UploadSpec(st, locked, connected, h, scanner, settings, filename,
                                         size, noiseStrength, e);
      var unique := GenerateUniqueFilename(filename, e.uid);
      var uploadPath := JoinPath(settings.uploadDir, unique);
      var processedPath := JoinPath(settings.processedDir, ProcessedName(filename, unique));
      var position := QueuePosition(connected, e.inspection);
      r.Body?
      && after.files == st.files[uploadPath := Entry(true, e.now)]
      && after.submitted == st.submitted + [Submission(e.taskId, uploadPath, processedPath,
                                                       ProcOptions(noiseStrength))]
      && r.body.queuePosition == position && r.body.estimatedWaitSeconds == 30 * position
      && (connected && e.inspection.Inspected? && e.setexError.None? ==>
            after.metadata == st.metadata[e.taskId := TaskMetadata(e.taskId, filename,
                                             uploadPath, processedPath, position)])
  {
    var unique := GenerateUniqueFilename(filename, e.uid);
    var uploadPath := JoinPath(settings.uploadDir, unique);
    var processedPath := JoinPath(settings.processedDir, ProcessedName(filename, unique));
    PassedToAccept(st, locked, connected, h, scanner, settings, filename, size, noiseStrength, e);
    Queued(st.(files := st.files[uploadPath := Entry(true, e.now)]), connected, settings, filename,
           size, noiseStrength, e, uploadPath, processedPath);
  }

  /** The queueing step stores the task's metadata where it can, submits the task once, and
      answers with its place in the queue. */
  lemma Queued(st: UploadState, connected: bool, settings: Config.Settings, filename: string,
               size: nat, noiseStrength: Option<real>, e: UploadEnv, uploadPath: string,
               processedPath: string)
    requires e.submitError.None?
    ensures var (r, after) := Accept(st, connected, settings, filename, size, noiseStrength, e,
                                     uploadPath, processedPath);
      var position := QueuePosition(connected, e.inspection);
      r.Body?
      && after.files == st.files
      && after.submitted == st.submitted + [Submission(e.taskId, uploadPath, processedPath,
                                                       ProcOptions(noiseStrength))]
      && r.body.queuePosition == position && r.body.estimatedWaitSeconds == 30 * position
      && (connected && e.inspection.Inspected? && e.setexError.None? ==>
            after.metadata == st.metadata[e.taskId := TaskMetadata(e.taskId, filename,
                                             uploadPath, processedPath, position)])
  {
  }

  /** An upload that passes every check and is written goes on to the queueing step. */
  lemma PassedToAccept(st: UploadState, locked: set<string>, connected: bool, h: FileHandler,
                       scanner: VirusScanner, settings: Config.Settings, filename: string,
                       size: nat, noiseStrength: Option<real>, e: UploadEnv)
    requires e.writeError.None?
    requires FailedCheck(h, scanner, filename, size,
                         JoinPath(settings.uploadDir, GenerateUniqueFilename(filename, e.uid)),
                         e.mime, e.scan).None?
    ensures var unique := GenerateUniqueFilename(filename, e.uid);
      var uploadPath := JoinPath(settings.uploadDir, unique);
      UploadSpec(st, locked, connected, h, scanner, settings, filename, size, noiseStrength, e)
      == Accept(st.(files := st.files[uploadPath := Entry(true, e.now)]), connected, settings,
                filename, size, noiseStrength, e, uploadPath,
                JoinPath(settings.processedDir, ProcessedName(filename, unique)))
  {
    var unique := GenerateUniqueFilename(filename, e.uid);
    var uploadPath := JoinPath(settings.uploadDir, unique);
    var processedPath := JoinPath(settings.processedDir, ProcessedName(filename, unique));
    var written := st.(files := st.files[uploadPath := Entry(true, e.now)]);
    WrittenThenScreened(st, locked, connected, h, scanner, settings, filename, size,
                        noiseStrength, e);
    assert Screened(written, locked, connected, scanner, settings, filename, size, noiseStrength,
                    e, uploadPath, processedPath)
      == Accept(written, connected, settings, filename, size, noiseStrength, e, uploadPath,
                processedPath);
  }

  /** A task just uploaded reads back as queued at the position the upload reported, and its
      download will carry the uploaded name. */
  lemma UploadThenStatus(taskId: string, filename: string, uploadPath: string,
                         processedPath: string, position: nat, files: Files, now: int,
                         retention: int)
    ensures var stored := Some(TaskMetadata(taskId, filename, uploadPath, processedPath, position));
      var r := GetTaskStatus(taskId, Unknown, stored, files, now, retention);
      r.Body? && r.body.status == "queued" && r.body.queuePosition == JInt(position)
      && DownloadName(stored) == EnhancedName(filename)
  {
    var m := TaskMetadata(taskId, filename, uploadPath, processedPath, position).fields;
    assert m["queue_position"] == JInt(position);
    assert m["filename"] == JStr(filename);
  }

  /** Redis as the gateway uses it: whether a client exists, and the decoded metadata stored
      under `task:<id>`, by task id. */
  class Store {
    const connected: bool
    var metadata: map<string, Json>

    constructor (connected: bool, metadata: map<string, Json>)
      ensures this.connected == connected && this.metadata == metadata
    {
      this.connected := connected;
      this.metadata := metadata;
    }

    /** `redis_client.get(f"task:{task_id}")`, decoded; None without a client. */
    function Lookup(taskId: string): (stored: Option<Json>)
      reads this
      ensures stored.Some? <==> connected && taskId in metadata
      ensures stored.Some? ==> stored.value == metadata[taskId]
    {
      if connected && taskId in metadata then Some(metadata[taskId]) else None
    }
  }

  /** The tasks handed to Celery, in order. */
  class Broker {
    var submitted: seq<Submission>

    constructor ()
      ensures submitted == []
    {
      submitted := [];
    }
  }

  /** `upload_path.unlink()` of a rejected upload, and the answer. */
  method DiscardRejected(fs: FileSystem, uploadPath: string, detail: string, unlinkError: string)
    returns (r: Reply<UploadBody>)
    modifies fs
    ensures uploadPath in fs.locked ==>
              r == HttpError(500, UploadFailed + unlinkError) && fs.files == old(fs.files)
    ensures uploadPath !in fs.locked ==>
              r == HttpError(400, detail) && fs.files == old(fs.files) - {uploadPath}
  {
    if uploadPath in fs.locked {
      return HttpError(500, UploadFailed + unlinkError);
    }
    fs.files := fs.files - {uploadPath};
    r := HttpError(400, detail);
  }

  /** `upload_audio`. */
  method UploadAudio(fs: FileSystem, store: Store, broker: Broker, h: FileHandler,
                     scanner: VirusScanner, settings: Config.Settings, filename: string,
                     size: nat, noiseStrength: Option<real>, e: UploadEnv)
    returns (r: Reply<UploadBody>)
    modifies fs, store, broker
    ensures (r, UploadState(fs.files, store.metadata, broker.submitted))
            == UploadSpec(UploadState(old(fs.files), old(store.metadata), old(broker.submitted)),
                          fs.locked, store.connected, h, scanner, settings, filename, size,
                          noiseStrength, e)
  {
    var extCheck := ValidateFileExtension(h, filename);
    if !extCheck.valid {
      return HttpError(400, extCheck.error.value);
    }
    var sizeCheck := ValidateFileSize(h, size);
    if !sizeCheck.valid {
      return HttpError(400, sizeCheck.error.value);
    }
    var unique := GenerateUniqueFilename(filename, e.uid);
    var uploadPath := JoinPath(settings.uploadDir, unique);
    var processedPath := JoinPath(settings.processedDir, ProcessedName(filename, unique));
    if e.writeError.Some? {
      return HttpError(500, UploadFailed + e.writeError.value);
    }
    fs.files := fs.files[uploadPath := Entry(true, e.now)];
    r := ScreenWritten(fs, store, broker, scanner, settings, filename, size, noiseStrength, e,
                       uploadPath, processedPath);
  }

  /** The checks `upload_audio` makes on the saved file, then the queueing. */
  method ScreenWritten(fs: FileSystem, store: Store, broker: Broker, scanner: VirusScanner,
                       settings: Config.Settings, filename: string, size: nat,
                       noiseStrength: Option<real>, e: UploadEnv, uploadPath: string,
                       processedPath: string) returns (r: Reply<UploadBody>)
    modifies fs, store, broker
    ensures (r, UploadState(fs.files, store.metadata, broker.submitted))
            == Screened(UploadState(old(fs.files), old(store.metadata), old(broker.submitted)),
                        fs.locked, store.connected, scanner, settings, filename, size,
                        noiseStrength, e, uploadPath, processedPath)
  {
    var typeCheck := ValidateMimeType(e.mime);
    if !typeCheck.valid {
      r := DiscardRejected(fs, uploadPath, typeCheck.error.value, e.unlinkError);
      return;
    }
    var scanCheck := scanner.ScanFile(uploadPath, e.scan);
    if !scanCheck.valid {
      r := DiscardRejected(fs, uploadPath, ScanFailed + scanCheck.error.value, e.unlinkError);
      return;
    }
    r := Enqueue(store, broker, fs.files, settings, filename, size, noiseStrength, e,
                 uploadPath, processedPath);
  }

  /** The queue position, the metadata and the submission of an upload that passed its checks. */
  method Enqueue(store: Store, broker: Broker, files: Files, settings: Config.Settings,
                 filename: string, size: nat, noiseStrength: Option<real>, e: UploadEnv,
                 uploadPath: string, processedPath: string) returns (r: Reply<UploadBody>)
    modifies store, broker
    ensures (r, UploadState(files, store.metadata, broker.submitted))
            == Accept(UploadState(files, old(store.metadata), old(broker.submitted)),
                      store.connected, settings, filename, size, noiseStrength, e, uploadPath,
                      processedPath)
  {
    var position := QueuePosition(store.connected, e.inspection);
    if store.connected && e.inspection.Inspected? {
      if e.setexError.None? {
        store.metadata := store.metadata[e.taskId := TaskMetadata(e.taskId, filename, uploadPath,
                                                                  processedPath, position)];
      }
    }

    var options := ProcOptions(noiseStrength);
    if e.submitError.Some? {
      return HttpError(500, UploadFailed + e.submitError.value);
    }
    broker.submitted := broker.submitted + [Submission(e.taskId, uploadPath, processedPath, options)];
    r := Body(UploadBody(e.taskId, filename, Round2(size as real / 1048576.0), position,
                         position * 30, settings.fileRetentionMinutes,
                         UploadMessage));
  }

  // ---------------------------------------------------------------- delete

  /** The paths `delete_files` acts on: both entries of an object, when both are strings
      (`Path()` of anything else raises before any file is touched). */
  function DeletionTargets(stored: Option<Json>): Option<(string, string)> {
    match stored
    case Some(JObj(fields)) =>
      (match (Get(fields, "upload_path", JStr("")), Get(fields, "processed_path", JStr("")))
       case (JStr(u), JStr(p)) => Some((u, p))
       case _ => None)
    case _ => None
  }

  /** The names `delete_files` reports: each of the two paths that existed when it was checked
      (the processed one after the upload was deleted). */
  function Reported(files: Files, locked: set<string>, u: string, p: string): seq<string> {
    var afterUpload := if u in files then AfterDelete(files, locked, u) else files;
    (if u in files then [Name(u)] else []) + (if p in afterUpload then [Name(p)] else [])
  }

  /** The body of `delete_files`. */
  datatype DeleteBody = DeleteBody(success: bool, taskId: string, deletedFiles: seq<string>,
                                   message: string)

  function DeleteAnswer(taskId: string, names: seq<string>): DeleteBody {
    DeleteBody(true, taskId, names,
               if names == [] then "No files found to delete" else "Files deleted successfully")
  }

  /** The answer always reports success, and says "No files found to delete" exactly when
      nothing existed; every name it lists is the name of a path that existed. */
  lemma DeleteReport(files: Files, locked: set<string>, taskId: string, u: string, p: string)
    ensures var names := Reported(files, locked, u, p);
      var b := DeleteAnswer(taskId, names);
      b.success
      && (b.message == "No files found to delete" <==> u !in files && p !in files)
      && |names| <= 2
      && (forall i :: 0 <= i < |names| ==>
            (names[i] == Name(u) && u in files) || (names[i] == Name(p) && p in files))
  {
    var afterUpload := if u in files then AfterDelete(files, locked, u) else files;
    if u !in files && p in files {
      assert afterUpload == files;
      assert Reported(files, locked, u, p) == [Name(p)];
    }
  }

  /** `delete_files(task_id)`. */
  method DeleteFiles(fs: FileSystem, manager: FileCleanupManager, store: Store, taskId: string)
    returns (body: DeleteBody)
    modifies fs, store
    ensures var targets := DeletionTargets(old(store.Lookup(taskId)));
      (targets.None? ==>
         body == DeleteAnswer(taskId, []) && fs.files == old(fs.files)
         && store.metadata == old(store.metadata))
      && (targets.Some? ==>
            var (u, p) := targets.value;
            body == DeleteAnswer(taskId, Reported(old(fs.files), fs.locked, u, p))
            && fs.files == AfterDelete(AfterDelete(old(fs.files), fs.locked, u), fs.locked, p)
            && store.metadata == old(store.metadata) - {taskId})
  {
    var names: seq<string> := [];
    var targets := DeletionTargets(store.Lookup(taskId));
    if targets.Some? {
      names := DeleteListed(fs, manager, targets.value.0, targets.value.1);
      store.metadata := store.metadata - {taskId};
    }
    body := DeleteAnswer(taskId, names);
  }

  /** The two `delete_file` calls of `delete_files`, each made only for a path that exists,
      and the names of the paths they were made for. */
  method DeleteListed(fs: FileSystem, manager: FileCleanupManager, u: string, p: string)
    returns (names: seq<string>)
    modifies fs
    ensures names == Reported(old(fs.files), fs.locked, u, p)
    ensures fs.files == AfterDelete(AfterDelete(old(fs.files), fs.locked, u), fs.locked, p)
  {
    names := [];
    if u in fs.files {
      var _ := manager.DeleteFile(fs, u);
      names := [Name(u)];
    }
    ghost var between := fs.files;
    if p in fs.files {
      var _ := manager.DeleteFile(fs, p);
      names := names + [Name(p)];
    }
    assert fs.files == AfterDelete(between, fs.locked, p);
  }
}
